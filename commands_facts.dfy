/**
 * What the `worker` command guarantees about which workers run and in what
 * order, and what every command guarantees about errors and cleanup. A
 * worker's run starts with its validation, so the workers named by the
 * `Reached(Validating, _)` events are the workers that ran, in order.
 */
module CommandsFacts {
  import opened Wrappers
  import opened Errors
  import opened Host
  import opened CommandTypes
  import opened Files
  import opened WranglerService
  import opened Configuration
  import opened WorkerCommands
  import opened WorkerCommandsFacts
  import opened Commands

  /** The workers whose runs started in `events`, in order. */
  function Validated(events: seq<Event>): (r: seq<string>)
    ensures |r| <= |events|
  {
    if events == [] then []
    else (if events[0].Reached? && events[0].stage == Validating then [events[0].worker] else [])
         + Validated(events[1..])
  }

  lemma {:induction false} ValidatedAppend(a: seq<Event>, b: seq<Event>)
    ensures Validated(a + b) == Validated(a) + Validated(b)
    decreases |a|
  {
    if a == [] {
      assert a + b == b;
    } else {
      assert (a + b)[1..] == a[1..] + b;
      ValidatedAppend(a[1..], b);
    }
  }

  /** A plan whose first stage starts `w`'s run and whose other stages start nobody's. */
  ghost predicate StartsOnly(plan: seq<Event>, w: string) {
    && |plan| > 0 && plan[0] == Reached(Validating, w)
    && forall i | 0 < i < |plan| :: !(plan[i].Reached? && plan[i].stage == Validating)
  }

  /** Every nonempty prefix of such a plan starts `w`'s run only. */
  lemma ValidatedPlanPrefix(w: string, plan: seq<Event>, n: nat)
    requires StartsOnly(plan, w) && 0 < n <= |plan|
    ensures Validated(plan[..n]) == [w]
  {
    var rest := plan[1..n];
    assert plan[..n] == [plan[0]] + rest;
    ValidatedAppend([plan[0]], rest);
    ValidatedNone(rest);
  }

  /** Events that start no worker's run name none. */
  lemma {:induction false} ValidatedNone(events: seq<Event>)
    requires forall i | 0 <= i < |events| :: !(events[i].Reached? && events[i].stage == Validating)
    ensures Validated(events) == []
    decreases |events|
  {
    if events != [] {
      ValidatedNone(events[1..]);
    }
  }

  /**
   * `run` on worker `w` only appends to the output, and of what it appends
   * exactly one event starts a worker's run: `w`'s own.
   */
  ghost predicate ValidatesOnce(run: Executor, s: Session, w: string, p: WorkerCommandParams) {
    var (s', _) := run(s, w, p);
    && |s.events| <= |s'.events| && s'.events[..|s.events|] == s.events
    && Validated(s'.events[|s.events|..]) == [w]
  }

  /** The dev and the deploy executor each validate the worker they run, once. */
  lemma ExecutorValidatesOnce(c: Context, s: Session, w: string, p: WorkerCommandParams)
    ensures ValidatesOnce(ExecutorFor(c, p.Command()), s, w, p)
  {
    if p.DevCommandParams? {
      var (s', r) := DevRun(c, s, w, p);
      DevTrace(c, s, w, p);
      DevAddsOneValidation(c, s.events, s'.events, w, r);
    } else {
      var (s', r) := DeployRun(c, s, w, p);
      DeployTrace(c, s, w, p);
      DeployAddsOneValidation(c, s.events, s'.events, w, r);
    }
  }

  /** A run that stopped partway through such a plan started `w`'s run only. */
  lemma StoppedStartsOnly(e: seq<Event>, e': seq<Event>, plan: seq<Event>, r: Result<Unit, Failure>, w: string)
    requires Stopped(e, e', plan, r) && StartsOnly(plan, w)
    ensures |e| <= |e'| && e'[..|e|] == e && Validated(e'[|e|..]) == [w]
  {
    var n :| 0 < n <= |plan| && e' == e + plan[..n];
    assert e'[..|e|] == e && e'[|e|..] == plan[..n];
    ValidatedPlanPrefix(w, plan, n);
  }

  /** A run that went through such a plan and started a process started `w`'s run only. */
  lemma RanStartsOnly(c: Context, e: seq<Event>, e': seq<Event>, plan: seq<Event>, r: Result<Unit, Failure>,
                      head: seq<string>, w: string)
    requires Ran(c, e, e', plan, r, head) && StartsOnly(plan, w)
    ensures |e| <= |e'| && e'[..|e|] == e && Validated(e'[|e|..]) == [w]
  {
    var args: seq<string> :| |head| <= |args| && args[..|head|] == head
      && e' == e + plan + [Spawned(args, c.tool(args))] && r == Settle(args, c.tool(args));
    var added := plan + [Spawned(args, c.tool(args))];
    assert e'[..|e|] == e && e'[|e|..] == added;
    assert added[..|added|] == added;
    ValidatedPlanPrefix(w, added, |added|);
  }

  /** A dev trace names its own worker once. */
  lemma DevAddsOneValidation(c: Context, e: seq<Event>, e': seq<Event>, w: string, r: Result<Unit, Failure>)
    requires Stopped(e, e', DevPlan(w), r) || Ran(c, e, e', DevPlan(w), r, ["dev", "-c"])
    ensures |e| <= |e'| && e'[..|e|] == e && Validated(e'[|e|..]) == [w]
  {
    assert StartsOnly(DevPlan(w), w);
    if Stopped(e, e', DevPlan(w), r) {
      StoppedStartsOnly(e, e', DevPlan(w), r, w);
    } else {
      RanStartsOnly(c, e, e', DevPlan(w), r, ["dev", "-c"], w);
    }
  }

  /** A deploy trace names its own worker once. */
  lemma DeployAddsOneValidation(c: Context, e: seq<Event>, e': seq<Event>, w: string, r: Result<Unit, Failure>)
    requires |e| < |e'|
    requires || Stopped(e, e', DeployPlan(w), r)
             || (|e| + 2 < |e'| && e'[..|e| + 2] == e + DeployPlan(w)
                 && forall i | |e| + 2 <= i < |e'| :: e'[i].Spawned?)
    ensures e'[..|e|] == e && Validated(e'[|e|..]) == [w]
  {
    var plan := DeployPlan(w);
    assert StartsOnly(plan, w);
    if Stopped(e, e', plan, r) {
      StoppedStartsOnly(e, e', plan, r, w);
    } else {
      var added := e'[|e|..];
      assert e'[..|e|] == e;
      assert added == plan + added[2..];
      ValidatedAppend(plan, added[2..]);
      ValidatedPlanPrefix(w, plan, 2);
      assert plan[..2] == plan;
      ValidatedNone(added[2..]);
    }
  }

  /**
   * The loop over the workers runs them one at a time in listed order and
   * stops at the first failure: the workers whose runs started are a prefix
   * of the list, all of it when the loop succeeds, and a failure comes from
   * a worker that started.
   */
  lemma {:induction false} RunEachInOrder(run: Executor, s: Session, workers: seq<string>, p: WorkerCommandParams)
    requires forall s: Session, w: string, q: WorkerCommandParams | q.Command() == p.Command() :: ValidatesOnce(run, s, w, q)
    ensures var (s', r) := RunEach(run, s, workers, p);
      && |s.events| <= |s'.events| && s'.events[..|s.events|] == s.events
      && var started := Validated(s'.events[|s.events|..]);
      && started <= workers
      && (r.Ok? ==> started == workers)
      && (r.Err? ==> started != [])
    decreases |workers|
  {
    var (s', r) := RunEach(run, s, workers, p);
    if workers == [] {
      assert s'.events[|s.events|..] == [];
    } else {
      var p' := p.(workerName := workers[0]);
      var (s1, r1) := run(s, workers[0], p');
      assert ValidatesOnce(run, s, workers[0], p');
      if r1.Err? {
        assert [workers[0]] <= workers;
      } else {
        RunEachInOrder(run, s1, workers[1..], p');
        assert workers == [workers[0]] + workers[1..];
        AppendedInOrder(s.events, s1.events, s'.events, workers[0]);
      }
    }
  }

  /** Output appended by one run and then by the rest of the loop is appended by both, in that order. */
  lemma AppendedInOrder(e: seq<Event>, e1: seq<Event>, e': seq<Event>, w: string)
    requires |e| <= |e1| && e1[..|e|] == e && Validated(e1[|e|..]) == [w]
    requires |e1| <= |e'| && e'[..|e1|] == e1
    ensures |e| <= |e'| && e'[..|e|] == e
    ensures Validated(e'[|e|..]) == [w] + Validated(e'[|e1|..])
  {
    assert e'[|e|..] == e1[|e|..] + e'[|e1|..];
    ValidatedAppend(e1[|e|..], e'[|e1|..]);
  }

  /**
   * With `--all`, the workers listed in the workers directory run one at a
   * time in listed order, stopping at the first failure.
   */
  lemma AllRunsListedWorkers(c: Context, s: Session, config: CliConfig, args: WorkerArgs)
    requires config.command.Some? && config.all
    requires ValidateWorkersDirectory(s.fs, config.rootDir, config.workersDirName).Ok?
    requires GetWorkers(s.fs, config.rootDir, config.workersDirName).Ok?
    ensures var (s', r) := RunSelected(c, s, config, args);
      var workers := s.fs.dirs[Join(config.rootDir, config.workersDirName)];
      && |s.events| <= |s'.events|
      && var started := Validated(s'.events[|s.events|..]);
      && started <= workers && (r.Ok? ==> started == workers) && (r.Err? ==> started != [])
  {
    var workers := GetWorkers(s.fs, config.rootDir, config.workersDirName).value;
    var p := ParamsOf(config, args);
    forall s: Session, w: string, q: WorkerCommandParams | q.Command() == p.Command()
      ensures ValidatesOnce(ExecutorFor(c, p.Command()), s, w, q)
    {
      ExecutorValidatesOnce(c, s, w, q);
    }
    RunEachInOrder(ExecutorFor(c, p.Command()), s, workers, p);
  }

  /** Without `--all` and with a worker name, exactly that worker runs, once. */
  lemma NamedWorkerRunsOnce(c: Context, s: Session, config: CliConfig, args: WorkerArgs)
    requires config.command.Some? && !config.all && args.workerName != ""
    requires ValidateWorkersDirectory(s.fs, config.rootDir, config.workersDirName).Ok?
    ensures var (s', r) := RunSelected(c, s, config, args);
      && |s.events| <= |s'.events| && s'.events[..|s.events|] == s.events
      && Validated(s'.events[|s.events|..]) == [args.workerName]
  {
    ExecutorValidatesOnce(c, s, args.workerName, ParamsOf(config, args));
  }

  /** Without `--all` and without a worker name, nothing runs and a `ConfigurationError` is raised. */
  lemma NoWorkerSelected(c: Context, s: Session, config: CliConfig, args: WorkerArgs)
    requires config.command.Some? && !config.all && args.workerName == ""
    requires ValidateWorkersDirectory(s.fs, config.rootDir, config.workersDirName).Ok?
    ensures RunSelected(c, s, config, args) == (s, Err(ConfigurationError("Worker name is required")))
  {
  }

  /** A missing workers directory is reported before any worker runs. */
  lemma MissingWorkersDirectory(c: Context, s: Session, config: CliConfig, args: WorkerArgs)
    requires config.command.Some?
    requires !s.fs.Exists(Join(config.rootDir, config.workersDirName))
    ensures var (s', r) := RunSelected(c, s, config, args);
      s' == s && r.Err? && r.error.FileOperationError?
  {
  }

  /** A configuration that does not load or validate stops the command before any worker runs. */
  lemma LoadFailureRunsNothing(h: Surroundings, s: Session, cfg: CliConfig, args: WorkerArgs, flags: WorkerFlags)
    requires Load(s.fs, h.cwd, h.parseCliConfig, cfg, flags, args).1.Err?
    ensures var (cfg', s', r) := WranglerRun(h, s, cfg, args, flags);
      && s' == s && r == Err(Load(s.fs, h.cwd, h.parseCliConfig, cfg, flags, args).1.error)
      && cfg' == Load(s.fs, h.cwd, h.parseCliConfig, cfg, flags, args).0
  {
  }

  /** An error the CLI framework throws is reported unchanged when it is handled again. */
  lemma RaisedTwice(f: Failure)
    ensures Raised(Raised(f)) == Raised(f)
  {
  }

  /**
   * Whatever `execute` does, the command ends either normally or with the
   * framework's exit error with code 1, and the worker commands always end
   * with no temp files tracked, having deleted the ones they tracked.
   */
  lemma HandledEnds(k: CommandClass, h: Surroundings, s: Session, cfg: CliConfig, args: WorkerArgs, flags: WorkerFlags)
    ensures var (_, s', r) := Handled(k, h, s, cfg, args, flags);
      var (_, s1, r1) := Executed(k, h, s, cfg, args, flags);
      && (r.Ok? <==> r1.Ok?)
      && (r.Err? ==> r == Err(ExitError(HandleError(r1.error, true).message, 1)))
      && (k.WhoamiCommand? ==> s' == s1)
      && (!k.WhoamiCommand? ==> s'.tempFiles == [] && s'.fs == Cleanup(s1.fs, s1.tempFiles).0)
  {
  }

  /** `whoami` starts one `wrangler whoami` and changes nothing else. */
  lemma WhoamiRunsOnce(h: Surroundings, s: Session, cfg: CliConfig, args: WorkerArgs, flags: WorkerFlags)
    ensures var (cfg', s', r) := Handled(WhoamiCommand, h, s, cfg, args, flags);
      var outcome := h.services.tool(["whoami"]);
      && cfg' == cfg
      && s' == s.(events := s.events + [Spawned(["whoami"], outcome)])
      && (r.Ok? <==> Settle(["whoami"], outcome).Ok?)
  {
  }
}
