/**
 * The commands a user runs: the base command's error handling and cleanup
 * (src/core/commands/abstract-command.ts), the `worker` command that loads
 * the configuration and runs the dev or deploy executor on the selected
 * workers (src/core/commands/worker/wrangler-command.ts), `whoami`
 * (src/core/commands/whoami/index.ts) and `worker:create`, whose work is
 * foreign.
 */
module Commands {
  import opened Wrappers
  import opened Errors
  import opened Host
  import opened CommandTypes
  import opened Files
  import opened Environment
  import opened WranglerService
  import opened Configuration
  import opened WorkerCommands

  /** The command classes that can be registered. */
  datatype CommandClass = WhoamiCommand | WranglerCommand | WorkerCreateCommand

  /** What a command reads besides its executors' services: the working directory and the foreign code it calls. */
  datatype Surroundings = Surroundings(
    services: Context,
    cwd: string,
    parseCliConfig: string -> Result<CliConfigFile, string>,
    createWorker: (WorkerArgs, WorkerFlags) -> Result<Unit, Failure>)

  /** The surroundings of a command in `world` whose environment service has root `envRootDir`. */
  function SurroundingsOf(world: World, envRootDir: string): Surroundings {
    Surroundings(ContextOf(world, envRootDir), world.cwd, world.parseCliConfig, world.createWorker)
  }

  /**
   * The `params` object `execute` builds from the loaded configuration: the
   * worker name from the arguments, and `deploySecrets` only for `deploy`.
   */
  function ParamsOf(config: CliConfig, args: WorkerArgs): (p: WorkerCommandParams)
    requires config.command.Some?
    ensures p.Command() == config.command.value && p.workerName == args.workerName
    ensures p.rootDir == config.rootDir && p.workersDirName == config.workersDirName && p.env == config.env
    ensures p.baseConfig == config.baseConfig && p.variables == config.variables
    ensures p.DeployCommandParams? ==> p.deploySecrets == config.deploySecrets
  {
    match config.command.value
    case Dev => DevCommandParams(args.workerName, config.rootDir, config.workersDirName, config.env,
                                 config.baseConfig, config.variables)
    case Deploy => DeployCommandParams(args.workerName, config.rootDir, config.workersDirName, config.env,
                                       config.baseConfig, config.variables, config.deploySecrets)
  }

  /** A worker command executor's `execute(workerName, params)`, as the run it makes. */
  type Executor = (Session, string, WorkerCommandParams) -> (Session, Result<Unit, Failure>)

  /** `WorkerCommandFactory.createCommand(command, services)`: the dev or the deploy executor. */
  function ExecutorFor(c: Context, command: WorkerCommand): Executor {
    match command
    case Dev => (s, worker, p) => DevRun(c, s, worker, p)
    case Deploy => (s, worker, p) => DeployRun(c, s, worker, p)
  }

  /**
   * The `for` loop over the workers: `params.workerName` is set to each in
   * turn and `run` awaited on it, so the first failure ends the loop.
   */
  function RunEach(run: Executor, s: Session, workers: seq<string>, p: WorkerCommandParams)
    : (Session, Result<Unit, Failure>)
    decreases |workers|
  {
    if workers == [] then (s, Ok(Unit))
    else
      var p' := p.(workerName := workers[0]);
      var (s1, r) := run(s, workers[0], p');
      if r.Err? then (s1, r) else RunEach(run, s1, workers[1..], p')
  }

  /**
   * `WranglerCommand.execute(args, flags)`: load the configuration, then
   * run the selected workers.
   */
  function WranglerRun(h: Surroundings, s: Session, cfg: CliConfig, args: WorkerArgs, flags: WorkerFlags)
    : (CliConfig, Session, Result<Unit, Failure>)
  {
    var (cfg', loaded) := Load(s.fs, h.cwd, h.parseCliConfig, cfg, flags, args);
    if loaded.Err? then (cfg', s, Err(loaded.error))
    else
      var (s', r) := RunSelected(h.services, s, loaded.value, args);
      (cfg', s', r)
  }

  /**
   * The rest of `execute` once the configuration is loaded: check the
   * workers directory, then run every worker with `--all`, the named worker
   * otherwise, and fail when there is neither.
   */
  function RunSelected(c: Context, s: Session, config: CliConfig, args: WorkerArgs): (Session, Result<Unit, Failure>)
    requires config.command.Some?
  {
    var dir := ValidateWorkersDirectory(s.fs, config.rootDir, config.workersDirName);
    if dir.Err? then (s, Err(dir.error))
    else
      var p := ParamsOf(config, args);
      var run := ExecutorFor(c, config.command.value);
      if config.all then
        match GetWorkers(s.fs, config.rootDir, config.workersDirName)
        case Err(f) => (s, Err(f))
        case Ok(workers) => RunEach(run, s, workers, p)
      else if p.workerName != "" then run(s, p.workerName, p)
      else (s, Err(ConfigurationError("Worker name is required")))
  }

  /** `execute(args, flags)` of each command class. */
  function Executed(k: CommandClass, h: Surroundings, s: Session, cfg: CliConfig, args: WorkerArgs, flags: WorkerFlags)
    : (CliConfig, Session, Result<Unit, Failure>)
  {
    match k
    case WhoamiCommand =>
      var outcome := h.services.tool(WhoamiArgs);
      (cfg, s.(events := s.events + [Spawned(WhoamiArgs, outcome)]), Settle(WhoamiArgs, outcome))
    case WranglerCommand => WranglerRun(h, s, cfg, args, flags)
    case WorkerCreateCommand => (cfg, s, h.createWorker(args, flags))
  }

  /** `finally()`: the worker commands delete their temp files; `whoami` keeps the default, which does nothing. */
  function CleanedUp(k: CommandClass, s: Session): Session {
    if k.WhoamiCommand? then s
    else
      var (fs', warnings) := Cleanup(s.fs, s.tempFiles);
      s.(fs := fs', events := s.events + warnings, tempFiles := [])
  }

  /**
   * `executeWithErrorHandling(args, flags)`: a failure of `execute` is
   * handled with `exit` true, which makes the CLI framework throw; `finally`
   * runs in every case.
   */
  function Handled(k: CommandClass, h: Surroundings, s: Session, cfg: CliConfig, args: WorkerArgs, flags: WorkerFlags)
    : (CliConfig, Session, Result<Unit, Failure>)
  {
    var (cfg', s', r) := Executed(k, h, s, cfg, args, flags);
    (cfg', CleanedUp(k, s'), if r.Ok? then r else Err(Raised(r.error)))
  }

  /**
   * A command instance: its own file service (so its temp files are its
   * own), configuration service and environment service.
   */
  class Command {
    const kind: CommandClass
    const files: FileService
    const config: ConfigurationService
    const environment: EnvironmentService

    constructor (kind: CommandClass, tempEnvFileName: string)
      ensures this.kind == kind && fresh(files) && fresh(config) && fresh(environment)
      ensures Initial() && environment.tempEnvFileName == tempEnvFileName
    {
      this.kind := kind;
      files := new FileService();
      config := new ConfigurationService();
      environment := new EnvironmentService(tempEnvFileName);
    }

    /** The state of the command's services right after construction. */
    predicate Initial()
      reads files, config, environment
    {
      && files.tempFiles == [] && config.cliConfig == InitialConfig
      && environment.backupList == [] && environment.rootDir == "" && environment.tempEnvPath == ""
    }

    /** The session this command's services hold now. */
    function Held(world: World): Session
      reads world, files, environment
    {
      SessionOf(world, files, environment.backupList)
    }

    /** `executeWithErrorHandling(args, flags)`. */
    method ExecuteWithErrorHandling(world: World, args: WorkerArgs, flags: WorkerFlags)
      returns (r: Result<Unit, Failure>)
      modifies world, files, config, environment
      ensures environment.rootDir == old(environment.rootDir)
      ensures (config.cliConfig, Held(world), r) ==
              Handled(kind, SurroundingsOf(world, environment.rootDir), old(Held(world)), old(config.cliConfig), args, flags)
    {
      var executed := Execute(world, args, flags);
      r := if executed.Ok? then executed else Err(Raised(executed.error));
      Finally(world);
    }

    /** `execute(args, flags)`. */
    method Execute(world: World, args: WorkerArgs, flags: WorkerFlags) returns (r: Result<Unit, Failure>)
      modifies world, files, config, environment
      ensures environment.rootDir == old(environment.rootDir)
      ensures (config.cliConfig, Held(world), r) ==
              Executed(kind, SurroundingsOf(world, environment.rootDir), old(Held(world)), old(config.cliConfig), args, flags)
    {
      match kind
      case WhoamiCommand =>
        r := ExecWhoami(world);
      case WranglerCommand =>
        r := RunWrangler(world, args, flags);
      case WorkerCreateCommand =>
        r := world.createWorker(args, flags);
    }

    /** `finally()`. */
    method Finally(world: World)
      modifies world, files
      ensures Held(world) == CleanedUp(kind, old(Held(world)))
    {
      if !kind.WhoamiCommand? {
        files.CleanupTempFiles(world);
      }
    }

    /** `WranglerCommand.execute(args, flags)`. */
    method RunWrangler(world: World, args: WorkerArgs, flags: WorkerFlags) returns (r: Result<Unit, Failure>)
      modifies world, files, config, environment
      ensures environment.rootDir == old(environment.rootDir)
      ensures (config.cliConfig, Held(world), r) ==
              WranglerRun(SurroundingsOf(world, environment.rootDir), old(Held(world)), old(config.cliConfig),
                          args, flags)
    {
      var loaded := config.LoadConfiguration(world, flags, args);
      if loaded.Err? {
        return Err(loaded.error);
      }
      r := RunLoaded(world, loaded.value, args);
    }

    /** The rest of `execute` once the configuration is loaded. */
    method RunLoaded(world: World, c: CliConfig, args: WorkerArgs) returns (r: Result<Unit, Failure>)
      requires c.command.Some?
      modifies world, files, environment
      ensures environment.rootDir == old(environment.rootDir)
      ensures (Held(world), r) == RunSelected(ContextOf(world, environment.rootDir), old(Held(world)), c, args)
    {
      var dir := ValidateWorkersDirectory(world.fs, c.rootDir, c.workersDirName);
      if dir.Err? {
        return Err(dir.error);
      }
      var params := ParamsOf(c, args);
      if c.all {
        var workers := GetWorkers(world.fs, c.rootDir, c.workersDirName);
        if workers.Err? {
          return Err(workers.error);
        }
        r := RunWorkers(world, workers.value, params);
      } else if params.workerName != "" {
        r := RunWorkers(world, [params.workerName], params);
        ghost var s := old(Held(world));
        ghost var run := ExecutorFor(ContextOf(world, environment.rootDir), params.Command());
        RunEachOne(run, s, params.workerName, params);
      } else {
        return Err(ConfigurationError("Worker name is required"));
      }
    }

    /** The executor for `params`, awaited on each of `workers` in turn. */
    method RunWorkers(world: World, workers: seq<string>, params: WorkerCommandParams) returns (r: Result<Unit, Failure>)
      modifies world, files, environment
      ensures environment.rootDir == old(environment.rootDir)
      ensures (Held(world), r) ==
              RunEach(ExecutorFor(ContextOf(world, environment.rootDir), params.Command()), old(Held(world)), workers, params)
    {
      var dev: DevCommand? := null;
      var deploy: DeployCommand? := null;
      if params.DevCommandParams? {
        dev := new DevCommand(files, environment);
      } else {
        deploy := new DeployCommand(files);
      }
      ghost var run := ExecutorFor(ContextOf(world, environment.rootDir), params.Command());
      ghost var result := RunEach(run, Held(world), workers, params);
      var p := params;
      var i := 0;
      while i < |workers|
        invariant 0 <= i <= |workers|
        invariant p.Command() == params.Command()
        invariant p.DevCommandParams? ==> dev != null && dev.files == files && dev.environment == environment
        invariant !p.DevCommandParams? ==> deploy != null && deploy.files == files
        invariant environment.rootDir == old(environment.rootDir)
        invariant RunEach(run, Held(world), workers[i..], p) == result
      {
        ghost var s := Held(world);
        var worker := workers[i];
        p := p.(workerName := worker);
        r := RunOne(world, dev, deploy, worker, p);
        RunEachStep(run, s, workers[i..], p, Held(world), r);
        if r.Err? {
          return;
        }
        assert workers[i..][1..] == workers[i + 1..];
        i := i + 1;
      }
      return Ok(Unit);
    }

    /** One awaited `commandExecutor.execute(worker, params)`. */
    method RunOne(world: World, dev: DevCommand?, deploy: DeployCommand?, worker: string, p: WorkerCommandParams)
      returns (r: Result<Unit, Failure>)
      requires p.DevCommandParams? ==> dev != null && dev.files == files && dev.environment == environment
      requires !p.DevCommandParams? ==> deploy != null && deploy.files == files
      modifies world, files, environment
      ensures environment.rootDir == old(environment.rootDir)
      ensures (Held(world), r) == ExecutorFor(ContextOf(world, environment.rootDir), p.Command())(old(Held(world)), worker, p)
    {
      if p.DevCommandParams? {
        r := dev.Execute(world, worker, p);
      } else {
        r := deploy.Execute(world, worker, p, environment.rootDir, environment.backupList);
      }
    }
  }

  /** One turn of the loop over the workers. */
  lemma RunEachStep(run: Executor, s: Session, workers: seq<string>, p: WorkerCommandParams, s1: Session,
                    r1: Result<Unit, Failure>)
    requires workers != [] && p == p.(workerName := workers[0])
    requires run(s, workers[0], p) == (s1, r1)
    ensures RunEach(run, s, workers, p) == if r1.Err? then (s1, r1) else RunEach(run, s1, workers[1..], p)
  {
  }

  /** The loop over a single worker is one run of it. */
  lemma RunEachOne(run: Executor, s: Session, worker: string, p: WorkerCommandParams)
    requires p.workerName == worker
    ensures RunEach(run, s, [worker], p) == run(s, worker, p)
  {
    assert p.(workerName := worker) == p;
    var (s1, r1) := run(s, worker, p);
    if r1.Ok? {
      assert [worker][1..] == [];
      assert r1.value.Unit? && r1.value == Unit;
    }
  }
}
