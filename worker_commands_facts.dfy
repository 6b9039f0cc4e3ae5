/**
 * What the dev and deploy executors guarantee about the order and effect of
 * their stages. The lemmas hold for every `Context`, that is, whatever the
 * composer, the binding resolver, the environment patcher and the
 * `wrangler` process do.
 */
module WorkerCommandsFacts {
  import opened Wrappers
  import opened Errors
  import opened Host
  import opened CommandTypes
  import opened Files
  import opened Bindings
  import opened WranglerService
  import opened WorkerCommands

  /** The stages of a dev run, in order. */
  function DevPlan(worker: string): seq<Event> {
    [Reached(Validating, worker), Reached(Composing, worker), Reached(Binding, worker),
     Reached(PatchingEnvironment, worker)]
  }

  /** The stages of a deploy run, in order. */
  function DeployPlan(worker: string): seq<Event> {
    [Reached(Validating, worker), Reached(Composing, worker)]
  }

  /**
   * A run that reached the first `n > 0` stages of `plan`, started no
   * process, and ended with the error the CLI framework exits with, code 1.
   */
  ghost predicate Stopped(before: seq<Event>, after: seq<Event>, plan: seq<Event>, r: Result<Unit, Failure>) {
    && (exists n | 0 < n <= |plan| :: after == before + plan[..n])
    && r.Err? && r.error.ExitError? && r.error.exitCode == 1
  }

  /**
   * A run that went through all of `plan` and then started one wrangler
   * process whose arguments begin with `head`, and whose result is that
   * process's own settlement.
   */
  ghost predicate Ran(c: Context, before: seq<Event>, after: seq<Event>, plan: seq<Event>, r: Result<Unit, Failure>,
                head: seq<string>)
  {
    exists args: seq<string> | |head| <= |args| && args[..|head|] == head ::
      after == before + plan + [Spawned(args, c.tool(args))] && r == Settle(args, c.tool(args))
  }

  /** Params of the wrong kind are refused before anything happens. */
  lemma DevRefusesOtherParams(c: Context, s: Session, workerName: string, p: WorkerCommandParams)
    requires !p.DevCommandParams?
    ensures DevRun(c, s, workerName, p) == (s, Err(ConfigurationError("Invalid command parameters for dev command")))
  {
  }

  /** A worker that fails validation is recorded as reached and nothing else changes. */
  lemma DevValidationFailure(c: Context, s: Session, workerName: string, p: WorkerCommandParams)
    requires p.DevCommandParams?
    requires ValidateWorker(s.fs, p.rootDir, p.workersDirName, workerName).Err?
    ensures DevRun(c, s, workerName, p) ==
      (s.(events := s.events + [Reached(Validating, workerName)]),
       Err(Raised(ValidateWorker(s.fs, p.rootDir, p.workersDirName, workerName).error)))
  {
  }

  /**
   * After composition a dev run resolves bindings, then patches the
   * environment, stopping at the first failure; only after both does it
   * run `wrangler dev -c <temp config> ...`.
   */
  lemma DevComposedTrace(c: Context, s: Session, workerName: string, p: WorkerCommandParams, tempPath: string)
    ensures var (s', r) := DevComposed(c, s, workerName, p, tempPath);
      || Stopped(s.events, s'.events, DevPlan(workerName)[2..], r)
      || Ran(c, s.events, s'.events, DevPlan(workerName)[2..], r, ["dev", "-c", tempPath])
  {
    var plan := DevPlan(workerName)[2..];
    var (s1, entries) := BindStage(c, s, workerName, DevBindingOptions(p, tempPath));
    if entries.Err? {
      StoppedAt(s.events, s1.events, plan, 1, Err(Raised(entries.error)));
    } else {
      var (s2, patched) := PatchStage(c, s1, workerName, WorkerPath(p, workerName), p.env);
      if patched.Err? {
        StoppedAt(s.events, s2.events, plan, 2, Err(Raised(patched.error)));
      } else {
        var args := WorkerCommandArgs(Dev, [tempPath] + BindingPaths(entries.value), p.env);
        RanWith(c, s.events, s2.events, plan, ["dev", "-c", tempPath], args);
      }
    }
  }

  /** Stopping after `n` stages, with the handled error. */
  lemma StoppedAt(before: seq<Event>, after: seq<Event>, plan: seq<Event>, n: nat, r: Result<Unit, Failure>)
    requires 0 < n <= |plan| && after == before + plan[..n]
    requires r.Err? && r.error.ExitError? && r.error.exitCode == 1
    ensures Stopped(before, after, plan, r)
  {
  }

  /** Running `args` once the plan is done. */
  lemma RanWith(c: Context, before: seq<Event>, done: seq<Event>, plan: seq<Event>, head: seq<string>,
                args: seq<string>)
    requires done == before + plan && |head| <= |args| && args[..|head|] == head
    ensures Ran(c, before, done + [Spawned(args, c.tool(args))], plan, Settle(args, c.tool(args)), head)
  {
  }

  /**
   * A dev run records its stages in the order validate, compose, bindings,
   * environment and stops at the first failing one with the handled error;
   * only after all four does it start wrangler, and the run's outcome is
   * returned as wrangler settled it, not handled.
   */
  lemma DevTrace(c: Context, s: Session, workerName: string, p: WorkerCommandParams)
    requires p.DevCommandParams?
    ensures var (s', r) := DevRun(c, s, workerName, p);
      || Stopped(s.events, s'.events, DevPlan(workerName), r)
      || Ran(c, s.events, s'.events, DevPlan(workerName), r, ["dev", "-c"])
  {
    var plan := DevPlan(workerName);
    var (s', r) := DevRun(c, s, workerName, p);
    var s0 := Reach(s, Validating, workerName);
    if ValidateWorker(s.fs, p.rootDir, p.workersDirName, workerName).Err? {
      assert s'.events == s.events + plan[..1];
    } else {
      var (s1, temp) := ComposeStage(c, s0, WorkerComposeOptions(p, workerName));
      if temp.Err? {
        assert s'.events == s.events + plan[..2];
      } else {
        assert s1.events == s.events + plan[..2];
        DevComposedTrace(c, s1, workerName, p, temp.value);
        DevLiftTrace(c, s.events, s1.events, s'.events, plan, r, temp.value);
      }
    }
  }

  /** A trace of the last two dev stages, after the first two, is a trace of the whole plan. */
  lemma DevLiftTrace(c: Context, e: seq<Event>, e1: seq<Event>, e': seq<Event>, plan: seq<Event>,
                     r: Result<Unit, Failure>, tempPath: string)
    requires |plan| == 4 && e1 == e + plan[..2]
    requires Stopped(e1, e', plan[2..], r) || Ran(c, e1, e', plan[2..], r, ["dev", "-c", tempPath])
    ensures Stopped(e, e', plan, r) || Ran(c, e, e', plan, r, ["dev", "-c"])
  {
    if Stopped(e1, e', plan[2..], r) {
      LiftStopped(e, e1, e', plan, 2, r);
    } else {
      var head: seq<string> := ["dev", "-c", tempPath];
      assert head[..2] == ["dev", "-c"];
      LiftRan(c, e, e1, e', plan, 2, r, ["dev", "-c"], head);
    }
  }

  /** Stopping partway through the rest of a plan, after its first `k` stages, is stopping partway through it. */
  lemma LiftStopped(e: seq<Event>, e1: seq<Event>, e': seq<Event>, plan: seq<Event>, k: nat, r: Result<Unit, Failure>)
    requires k <= |plan| && e1 == e + plan[..k]
    requires Stopped(e1, e', plan[k..], r)
    ensures Stopped(e, e', plan, r)
  {
    var n :| 0 < n <= |plan| - k && e' == e1 + plan[k..][..n];
    assert plan[..k] + plan[k..][..n] == plan[..k + n];
    StoppedAt(e, e', plan, k + n, r);
  }

  /** Running after the rest of a plan, after its first `k` stages, is running after all of it. */
  lemma LiftRan(c: Context, e: seq<Event>, e1: seq<Event>, e': seq<Event>, plan: seq<Event>, k: nat,
                r: Result<Unit, Failure>, head: seq<string>, head': seq<string>)
    requires k <= |plan| && e1 == e + plan[..k]
    requires |head| <= |head'| && head'[..|head|] == head
    requires Ran(c, e1, e', plan[k..], r, head')
    ensures Ran(c, e, e', plan, r, head)
  {
    var args := RanArgs(c, e1, e', plan[k..], r, head');
    PrefixOfPrefix(args, head', head);
    RestOfPlan(e, e1, plan, k);
    RanWith(c, e, e + plan, plan, head, args);
  }

  /** The arguments wrangler was started with in a run. */
  lemma RanArgs(c: Context, before: seq<Event>, after: seq<Event>, plan: seq<Event>, r: Result<Unit, Failure>,
                head: seq<string>) returns (args: seq<string>)
    requires Ran(c, before, after, plan, r, head)
    ensures |head| <= |args| && args[..|head|] == head
    ensures after == before + plan + [Spawned(args, c.tool(args))] && r == Settle(args, c.tool(args))
  {
    args :| |head| <= |args| && args[..|head|] == head
      && after == before + plan + [Spawned(args, c.tool(args))] && r == Settle(args, c.tool(args));
  }

  /** A prefix of a prefix is a prefix. */
  lemma PrefixOfPrefix(args: seq<string>, head': seq<string>, head: seq<string>)
    requires |head'| <= |args| && args[..|head'|] == head'
    requires |head| <= |head'| && head'[..|head|] == head
    ensures args[..|head|] == head
  {
    assert args[..|head|] == args[..|head'|][..|head|];
  }

  /** The events before the first `k` stages, then those stages, then the rest of the plan, are the events before the plan and the plan. */
  lemma RestOfPlan(e: seq<Event>, e1: seq<Event>, plan: seq<Event>, k: nat)
    requires k <= |plan| && e1 == e + plan[..k]
    ensures e1 + plan[k..] == e + plan
  {
    assert plan[..k] + plan[k..] == plan;
  }

  /**
   * Once bindings and the environment are in place, `dev` is given the temp
   * config first and then each binding's temp config, in the order the
   * resolver returned them, and its settlement is the run's result.
   */
  lemma DevRunArgs(c: Context, s: Session, workerName: string, p: WorkerCommandParams, tempPath: string,
                   bound: Session, entries: seq<ResolvedBinding>, patched: Session)
    requires BindStage(c, s, workerName, DevBindingOptions(p, tempPath)) == (bound, Ok(entries))
    requires PatchStage(c, bound, workerName, WorkerPath(p, workerName), p.env).0 == patched
    requires PatchStage(c, bound, workerName, WorkerPath(p, workerName), p.env).1.Ok?
    ensures var args := WorkerCommandArgs(Dev, [tempPath] + BindingPaths(entries), p.env);
      && FlagValues(args[1..3 + 2 * |entries|]) == [tempPath] + BindingPaths(entries)
      && DevComposed(c, s, workerName, p, tempPath) ==
         (patched.(events := patched.events + [Spawned(args, c.tool(args))]), Settle(args, c.tool(args)))
  {
  }

  /** Bindings are resolved on the composed config, with the worker's base config, variables and environment. */
  lemma DevBindsComposedConfig(p: WorkerCommandParams, tempPath: string)
    ensures var o := DevBindingOptions(p, tempPath);
      && o.configPath == tempPath && o.rootDir == p.rootDir && o.workersDirName == p.workersDirName
      && o.variables == p.variables && o.env == p.env
      && (p.baseConfig == "" ==> o.baseConfigPath == "")
      && (p.baseConfig != "" ==> o.baseConfigPath == Join(p.rootDir, p.baseConfig) && o.baseConfigPath != "")
  {
  }

  /** Params of the wrong kind are refused before anything happens. */
  lemma DeployRefusesOtherParams(c: Context, s: Session, workerName: string, p: WorkerCommandParams)
    requires !p.DeployCommandParams?
    ensures DeployRun(c, s, workerName, p) ==
      (s, Err(ConfigurationError("Invalid command parameters for deploy command")))
  {
  }

  /**
   * Without both `deploySecrets` and an environment, a composed deploy
   * starts exactly one `wrangler deploy -c <temp config> [--env e]` and
   * returns its settlement unhandled.
   */
  lemma DeployPlain(c: Context, s: Session, workerName: string, p: WorkerCommandParams, tempPath: string)
    requires p.DeployCommandParams? && !(p.deploySecrets && p.env != "")
    ensures var args := WorkerCommandArgs(Deploy, [tempPath], p.env);
      && args == ["deploy", "-c", tempPath] + EnvFlag(p.env)
      && DeployComposed(c, s, workerName, p, tempPath) ==
         (s.(events := s.events + [Spawned(args, c.tool(args))]), Settle(args, c.tool(args)))
  {
    var args := WorkerCommandArgs(Deploy, [tempPath], p.env);
    assert args[..3] == ["deploy", "-c", tempPath];
  }

  /**
   * With `deploySecrets` and an environment, the deploy runs first; if it
   * fails the handled error is returned and nothing else runs. Otherwise
   * the worker's own environment file is uploaded when it exists, and a
   * failed upload is reported as a `WorkerCommandError` naming the worker.
   */
  lemma DeployWithSecrets(c: Context, s: Session, workerName: string, p: WorkerCommandParams, tempPath: string)
    requires p.DeployCommandParams? && p.deploySecrets && p.env != ""
    ensures var (s', r) := DeployComposed(c, s, workerName, p, tempPath);
      var deploy := WorkerCommandArgs(Deploy, [tempPath], p.env);
      var deployed := Settle(deploy, c.tool(deploy));
      var varsPath := GetEnvironmentFile(s.fs, WorkerPath(p, workerName), p.env);
      var upload := SecretBulkUploadArgs(varsPath, tempPath, p.env);
      var uploaded := Settle(upload, c.tool(upload));
      && s'.fs == s.fs && s'.tempFiles == s.tempFiles && s'.backups == s.backups
      && (deployed.Err? ==>
            s'.events == s.events + [Spawned(deploy, c.tool(deploy))] && r == Err(Raised(deployed.error)))
      && (deployed.Ok? && !s.fs.Exists(varsPath) ==>
            s'.events == s.events + [Spawned(deploy, c.tool(deploy))] && r == Ok(Unit))
      && (deployed.Ok? && s.fs.Exists(varsPath) ==>
            && s'.events == s.events + [Spawned(deploy, c.tool(deploy)), Spawned(upload, c.tool(upload))]
            && (uploaded.Ok? <==> r.Ok?)
            && (uploaded.Err? ==> r == Err(Raised(WorkerCommandError("Failed to deploy secrets for " + workerName
                                                                     + ": " + uploaded.error.message)))))
  {
  }

  /**
   * A deploy run validates, then composes, stopping at the first failure;
   * it never resolves bindings or patches an environment file, and keeps no
   * environment backups.
   */
  lemma DeployTrace(c: Context, s: Session, workerName: string, p: WorkerCommandParams)
    requires p.DeployCommandParams?
    ensures var (s', r) := DeployRun(c, s, workerName, p);
      && s'.backups == s.backups
      && |s.events| < |s'.events|
      && (Stopped(s.events, s'.events, DeployPlan(workerName), r)
          || (|s.events| + 2 < |s'.events| && s'.events[..|s.events| + 2] == s.events + DeployPlan(workerName)
              && forall i | |s.events| + 2 <= i < |s'.events| :: s'.events[i].Spawned?))
  {
    var plan := DeployPlan(workerName);
    var (s', r) := DeployRun(c, s, workerName, p);
    var s0 := Reach(s, Validating, workerName);
    if ValidateWorker(s.fs, p.rootDir, p.workersDirName, workerName).Err? {
      assert s'.events == s.events + plan[..1];
    } else {
      var (s1, temp) := ComposeStage(c, s0, WorkerComposeOptions(p, workerName));
      if temp.Err? {
        assert s'.events == s.events + plan[..2];
      } else {
        assert s1.events == s.events + plan;
        DeployComposedSpawnsOnly(c, s1, workerName, p, temp.value);
      }
    }
  }

  /** After composition a deploy run only starts processes: one or two. */
  lemma DeployComposedSpawnsOnly(c: Context, s: Session, workerName: string, p: WorkerCommandParams, tempPath: string)
    requires p.DeployCommandParams?
    ensures var (s', r) := DeployComposed(c, s, workerName, p, tempPath);
      && s'.backups == s.backups
      && |s.events| < |s'.events| <= |s.events| + 2
      && s'.events[..|s.events|] == s.events
      && forall i | |s.events| <= i < |s'.events| :: s'.events[i].Spawned?
  {
  }
}
