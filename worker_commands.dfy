/**
 * The per-worker executors of the `dev` and `deploy` commands
 * (src/core/worker-command-factory/dev-command.ts and deploy-command.ts):
 * fixed sequences of service calls. Each stage is recorded as it starts, so
 * a run's output is the trace of the stages it reached and the wrangler
 * processes it started.
 */
module WorkerCommands {
  import opened Wrappers
  import opened Errors
  import opened Host
  import opened CommandTypes
  import opened Files
  import opened Environment
  import opened Bindings
  import opened WranglerService

  /** What a run changes: the disk, the output, the file service's temp files, the environment backups. */
  datatype Session = Session(fs: FileSystem, events: seq<Event>, tempFiles: seq<string>, backups: seq<Backup>)

  /**
   * The services an executor is constructed with, as the operations it
   * calls on them: `createTempWranglerConfig`, recursive
   * `createServiceBindings`, `patchEnvironmentFile` and the `wrangler`
   * process. Properties of the executors proved for every `Context` hold
   * whatever those services do.
   */
  datatype Context = Context(
    compose: (FileSystem, ComposeOptions) -> (FileSystem, Result<string, Failure>),
    bind: (FileSystem, seq<string>, BindingOptions) -> (FileSystem, seq<string>, Result<seq<ResolvedBinding>, Failure>),
    patch: (FileSystem, seq<Backup>, string, string) -> (seq<Backup>, FileSystem, Result<Unit, Failure>),
    tool: seq<string> -> ProcessOutcome)

  /** The services of a run in `world` whose environment service has root `envRootDir`. */
  function ContextOf(world: World, envRootDir: string): Context {
    var wrangler, dotenvParse, depth := world.wrangler, world.dotenvParse, world.stackDepth;
    Context(
      (fs, o) => Compose(fs, wrangler, o),
      (fs, tempFiles, o) => Resolve(depth, fs, wrangler, tempFiles, o, true),
      (fs, backups, workerPath, env) => Patch(fs, dotenvParse, backups, envRootDir, workerPath, env),
      world.tool)
  }

  /** The session the objects hold now. */
  function SessionOf(world: World, files: FileService, backups: seq<Backup>): Session
    reads world, files
  {
    Session(world.fs, world.events, files.tempFiles, backups)
  }

  /** `join(rootDir, workersDirName, workerName)`. */
  function WorkerPath(p: WorkerCommandParams, workerName: string): string {
    Join(Join(p.rootDir, p.workersDirName), workerName)
  }

  /** The base config path: `join(rootDir, baseConfig)` when a base config is set. */
  function BaseConfigPath(p: WorkerCommandParams): string {
    if p.baseConfig != "" then Join(p.rootDir, p.baseConfig) else ""
  }

  /** The options both executors compose the worker's temp config with. */
  function WorkerComposeOptions(p: WorkerCommandParams, workerName: string): ComposeOptions {
    var workerPath := WorkerPath(p, workerName);
    ComposeOptions(workerName, Join(workerPath, WRANGLER_FILE), workerPath, BaseConfigPath(p), p.variables)
  }

  /** `paths.flatMap(b => b.path)`: the temp config of each resolved binding, in order. */
  function BindingPaths(entries: seq<ResolvedBinding>): (r: seq<string>)
    ensures |r| == |entries|
    ensures forall i | 0 <= i < |entries| :: r[i] == entries[i].path
  {
    if entries == [] then [] else [entries[0].path] + BindingPaths(entries[1..])
  }

  /** Record that `stage` starts for `worker`. */
  function Reach(s: Session, stage: Stage, worker: string): Session {
    s.(events := s.events + [Reached(stage, worker)])
  }

  /** The composition stage: `createTempWranglerConfig`. */
  function ComposeStage(c: Context, s: Session, o: ComposeOptions): (r: (Session, Result<string, Failure>))
    ensures r.0.events == s.events + [Reached(Composing, o.workerName)] && r.0.backups == s.backups
  {
    var (fs', r) := c.compose(s.fs, o);
    var added := if r.Ok? then [TempConfigPath(o.workerPath), TempBasePath(o.workerPath)] else [];
    (Reach(s, Composing, o.workerName).(fs := fs', tempFiles := s.tempFiles + added), r)
  }

  /** The binding stage: recursive `createServiceBindings` on the composed config. */
  function BindStage(c: Context, s: Session, worker: string, o: BindingOptions)
    : (r: (Session, Result<seq<ResolvedBinding>, Failure>))
    ensures r.0.events == s.events + [Reached(Binding, worker)] && r.0.backups == s.backups
  {
    var (fs', tempFiles', r) := c.bind(s.fs, s.tempFiles, o);
    (Reach(s, Binding, worker).(fs := fs', tempFiles := tempFiles'), r)
  }

  /** The environment stage: `patchEnvironmentFile(workerPath, env)`. */
  function PatchStage(c: Context, s: Session, worker: string, workerPath: string, env: string)
    : (r: (Session, Result<Unit, Failure>))
    ensures r.0.events == s.events + [Reached(PatchingEnvironment, worker)] && r.0.tempFiles == s.tempFiles
  {
    var (backups', fs', r) := c.patch(s.fs, s.backups, workerPath, env);
    (Reach(s, PatchingEnvironment, worker).(fs := fs', backups := backups'), r)
  }

  /** One wrangler run: recorded, and settled on how the process ended. */
  function RunStage(c: Context, s: Session, args: seq<string>): (Session, Result<Unit, Failure>) {
    (s.(events := s.events + [Spawned(args, c.tool(args))]), Settle(args, c.tool(args)))
  }

  /** The options the dev executor resolves bindings with. */
  function DevBindingOptions(p: WorkerCommandParams, tempConfigPath: string): BindingOptions {
    BindingOptions(tempConfigPath, p.rootDir, p.workersDirName, BaseConfigPath(p), p.variables, p.env)
  }

  /**
   * `DevCommand.execute(workerName, params)`. A failure before the run is
   * handled inside the executor, so it surfaces as the error the CLI
   * framework throws; the run's own promise is returned unawaited, so its
   * rejection passes the executor's catch untouched.
   */
  function DevRun(c: Context, s: Session, workerName: string, p: WorkerCommandParams)
    : (Session, Result<Unit, Failure>)
  {
    if !IsDevCommandParams(p) then (s, Err(ConfigurationError("Invalid command parameters for dev command")))
    else
      var s0 := Reach(s, Validating, workerName);
      match ValidateWorker(s.fs, p.rootDir, p.workersDirName, workerName)
      case Err(f) => (s0, Err(Raised(f)))
      case Ok(_) =>
        var o := WorkerComposeOptions(p, workerName);
        var (s1, temp) := ComposeStage(c, s0, o);
        match temp
        case Err(f) => (s1, Err(Raised(f)))
        case Ok(tempPath) => DevComposed(c, s1, workerName, p, tempPath)
  }

  /** The dev run once the worker's temp config is composed: bindings, environment, wrangler. */
  function DevComposed(c: Context, s: Session, workerName: string, p: WorkerCommandParams, tempPath: string)
    : (Session, Result<Unit, Failure>)
  {
    var (s1, entries) := BindStage(c, s, workerName, DevBindingOptions(p, tempPath));
    match entries
    case Err(f) => (s1, Err(Raised(f)))
    case Ok(bs) =>
      var (s2, patched) := PatchStage(c, s1, workerName, WorkerPath(p, workerName), p.env);
      match patched
      case Err(f) => (s2, Err(Raised(f)))
      case Ok(_) => RunStage(c, s2, WorkerCommandArgs(Dev, [tempPath] + BindingPaths(bs), p.env))
  }

  /**
   * `deploySecrets`: upload the worker's own environment file, if it
   * exists; a failed upload becomes a `WorkerCommandError` naming the worker.
   */
  function SecretsStage(c: Context, s: Session, workerName: string, workerPath: string, env: string,
                        configPath: string)
    : (Session, Result<Unit, Failure>)
  {
    var varsPath := GetEnvironmentFile(s.fs, workerPath, env);
    if !s.fs.Exists(varsPath) then (s, Ok(Unit))
    else
      var (s1, r) := RunStage(c, s, SecretBulkUploadArgs(varsPath, configPath, env));
      (s1, if r.Ok? then r
           else Err(WorkerCommandError("Failed to deploy secrets for " + workerName + ": " + r.error.message)))
  }

  /**
   * `DeployCommand.execute(workerName, params)`. With `deploySecrets` and an
   * environment, the deploy and the upload are awaited inside the
   * executor's catch; otherwise the single deploy is returned unawaited.
   */
  function DeployRun(c: Context, s: Session, workerName: string, p: WorkerCommandParams)
    : (Session, Result<Unit, Failure>)
  {
    if !IsDeployCommandParams(p) then (s, Err(ConfigurationError("Invalid command parameters for deploy command")))
    else
      var s0 := Reach(s, Validating, workerName);
      match ValidateWorker(s.fs, p.rootDir, p.workersDirName, workerName)
      case Err(f) => (s0, Err(Raised(f)))
      case Ok(_) =>
        var o := WorkerComposeOptions(p, workerName);
        var (s1, temp) := ComposeStage(c, s0, o);
        match temp
        case Err(f) => (s1, Err(Raised(f)))
        case Ok(tempPath) => DeployComposed(c, s1, workerName, p, tempPath)
  }

  /** The deploy run once the worker's temp config is composed. */
  function DeployComposed(c: Context, s: Session, workerName: string, p: WorkerCommandParams, tempPath: string)
    : (Session, Result<Unit, Failure>)
    requires p.DeployCommandParams?
  {
    var args := WorkerCommandArgs(Deploy, [tempPath], p.env);
    if p.deploySecrets && p.env != "" then
      var (s1, deployed) := RunStage(c, s, args);
      match deployed
      case Err(f) => (s1, Err(Raised(f)))
      case Ok(_) =>
        var (s2, uploaded) := SecretsStage(c, s1, workerName, WorkerPath(p, workerName), p.env, tempPath);
        (s2, if uploaded.Ok? then uploaded else Err(Raised(uploaded.error)))
    else RunStage(c, s, args)
  }

  /** The dev executor and the services it was given. */
  class DevCommand {
    const files: FileService
    const environment: EnvironmentService

    constructor (files: FileService, environment: EnvironmentService)
      ensures this.files == files && this.environment == environment
    {
      this.files := files;
      this.environment := environment;
    }

    /** `execute(workerName, params)`. */
    method Execute(world: World, workerName: string, params: WorkerCommandParams) returns (r: Result<Unit, Failure>)
      modifies world, files, environment
      ensures environment.rootDir == old(environment.rootDir) && environment.tempEnvPath == old(environment.tempEnvPath)
      ensures (SessionOf(world, files, environment.backupList), r) ==
              DevRun(ContextOf(world, environment.rootDir), old(SessionOf(world, files, environment.backupList)),
                     workerName, params)
    {
      if !IsDevCommandParams(params) {
        return Err(ConfigurationError("Invalid command parameters for dev command"));
      }
      world.Emit(Reached(Validating, workerName));
      var valid := ValidateWorker(world.fs, params.rootDir, params.workersDirName, workerName);
      if valid.Err? {
        return Err(Raised(valid.error));
      }
      var o := WorkerComposeOptions(params, workerName);
      world.Emit(Reached(Composing, workerName));
      var tempPath := files.CreateTempWranglerConfig(world, o);
      if tempPath.Err? {
        return Err(Raised(tempPath.error));
      }
      r := RunComposed(world, workerName, params, tempPath.value);
    }

    /** The rest of `execute` once the temp config is composed. */
    method RunComposed(world: World, workerName: string, params: WorkerCommandParams, tempPath: string)
      returns (r: Result<Unit, Failure>)
      modifies world, files, environment
      ensures environment.rootDir == old(environment.rootDir) && environment.tempEnvPath == old(environment.tempEnvPath)
      ensures (SessionOf(world, files, environment.backupList), r) ==
              DevComposed(ContextOf(world, environment.rootDir), old(SessionOf(world, files, environment.backupList)),
                          workerName, params, tempPath)
    {
      world.Emit(Reached(Binding, workerName));
      var entries := CreateServiceBindings(world.stackDepth, world, files, DevBindingOptions(params, tempPath), true);
      if entries.Err? {
        return Err(Raised(entries.error));
      }
      world.Emit(Reached(PatchingEnvironment, workerName));
      var patched := environment.PatchEnvironmentFile(world, WorkerPath(params, workerName), params.env);
      if patched.Err? {
        return Err(Raised(patched.error));
      }
      r := ExecWorkerCommand(world, Dev, [tempPath] + BindingPaths(entries.value), params.env);
    }
  }

  /** The deploy executor and the service it was given. */
  class DeployCommand {
    const files: FileService

    constructor (files: FileService)
      ensures this.files == files
    {
      this.files := files;
    }

    /** `deploySecrets(workerName, workerPath, env, configPath)`. */
    method DeploySecrets(world: World, workerName: string, workerPath: string, env: string, configPath: string,
                         ghost envRootDir: string, ghost backups: seq<Backup>)
      returns (r: Result<Unit, Failure>)
      modifies world
      ensures (SessionOf(world, files, backups), r) ==
              SecretsStage(ContextOf(world, envRootDir), old(SessionOf(world, files, backups)), workerName, workerPath,
                           env, configPath)
    {
      var varsPath := GetEnvironmentFile(world.fs, workerPath, env);
      if world.fs.Exists(varsPath) {
        var uploaded := ExecSecretBulkUpload(world, varsPath, configPath, env);
        if uploaded.Err? {
          return Err(WorkerCommandError("Failed to deploy secrets for " + workerName + ": " + uploaded.error.message));
        }
        return uploaded;
      }
      return Ok(Unit);
    }

    /**
     * `execute(workerName, params)`. The deploy executor has no environment
     * service, so its run is the same whatever the environment backups and
     * root of the command it runs in.
     */
    method Execute(world: World, workerName: string, params: WorkerCommandParams,
                   ghost envRootDir: string, ghost backups: seq<Backup>)
      returns (r: Result<Unit, Failure>)
      modifies world, files
      ensures (SessionOf(world, files, backups), r) ==
              DeployRun(ContextOf(world, envRootDir), old(SessionOf(world, files, backups)), workerName, params)
    {
      if !IsDeployCommandParams(params) {
        return Err(ConfigurationError("Invalid command parameters for deploy command"));
      }
      world.Emit(Reached(Validating, workerName));
      var valid := ValidateWorker(world.fs, params.rootDir, params.workersDirName, workerName);
      if valid.Err? {
        return Err(Raised(valid.error));
      }
      var o := WorkerComposeOptions(params, workerName);
      world.Emit(Reached(Composing, workerName));
      var tempPath := files.CreateTempWranglerConfig(world, o);
      if tempPath.Err? {
        return Err(Raised(tempPath.error));
      }
      r := RunComposed(world, workerName, params, tempPath.value, envRootDir, backups);
    }

    /** The rest of `execute` once the temp config is composed. */
    method RunComposed(world: World, workerName: string, params: WorkerCommandParams, tempPath: string,
                       ghost envRootDir: string, ghost backups: seq<Backup>)
      returns (r: Result<Unit, Failure>)
      requires params.DeployCommandParams?
      modifies world
      ensures (SessionOf(world, files, backups), r) ==
              DeployComposed(ContextOf(world, envRootDir), old(SessionOf(world, files, backups)), workerName, params,
                             tempPath)
    {
      if params.deploySecrets && params.env != "" {
        var deployed := ExecWorkerCommand(world, Deploy, [tempPath], params.env);
        if deployed.Err? {
          return Err(Raised(deployed.error));
        }
        var uploaded := DeploySecrets(world, workerName, WorkerPath(params, workerName), params.env, tempPath,
                                      envRootDir, backups);
        if uploaded.Err? {
          return Err(Raised(uploaded.error));
        }
        return Ok(Unit);
      }
      r := ExecWorkerCommand(world, Deploy, [tempPath], params.env);
    }
  }
}
