/** Configuration loading and validation (src/services/configuration-service.ts). */
module Configuration {
  import opened Wrappers
  import opened Errors
  import opened Host
  import opened CommandTypes

  const WORKER_CLI_CONFIG_FILE := "worker.config.json"
  const DEFAULT_BASE_CONFIG := "base.wrangler.jsonc"

  /**
   * `CliConfig & CliFlags`, the service's `cliConfig` field. Absent strings
   * are "", absent booleans false, absent variables [], an absent command
   * `None`.
   */
  datatype CliConfig = CliConfig(
    rootDir: string,
    workersDirName: string,
    baseConfig: string,
    deploySecrets: bool,
    variables: Variables,
    env: string,
    command: Option<WorkerCommand>,
    all: bool)

  /** The field's initial value. */
  const InitialConfig := CliConfig("", "", "", false, [], "", None, false)

  /** Where the CLI's own configuration file is looked for. */
  function CliConfigPath(cwd: string): string {
    Join(cwd, WORKER_CLI_CONFIG_FILE)
  }

  /**
   * `validateConfiguration(workerName)`: a dev run needs a worker name
   * unless `all` is set, `all` excludes a worker name, and a command is
   * required; the checks throw in that order.
   */
  function Validate(c: CliConfig, workerName: string): (r: Result<Unit, Failure>)
    ensures r.Ok? <==>
      && c.command.Some?
      && !(c.all && workerName != "")
      && !(workerName == "" && c.command == Some(Dev) && !c.all)
    ensures r.Err? ==> r.error.ConfigurationError?
    ensures workerName == "" && c.command == Some(Dev) && !c.all ==>
      r == Err(ConfigurationError("Worker name is required for dev command"))
    ensures c.all && workerName != "" ==>
      r == Err(ConfigurationError("Worker name is not allowed when using --all flag"))
    ensures c.command.None? && !(c.all && workerName != "") ==>
      r == Err(ConfigurationError("Command is required"))
  {
    if workerName == "" && c.command == Some(Dev) && !c.all then
      Err(ConfigurationError("Worker name is required for dev command"))
    else if c.all && workerName != "" then
      Err(ConfigurationError("Worker name is not allowed when using --all flag"))
    else if c.command.None? then
      Err(ConfigurationError("Command is required"))
    else Ok(Unit)
  }

  /** The configuration the file branch assigns: file values with defaults, and three flags. */
  function FromFile(parsed: CliConfigFile, cwd: string, flags: WorkerFlags): CliConfig {
    CliConfig(
      if parsed.rootDir != "" then parsed.rootDir else cwd,
      parsed.workersDirName,
      parsed.baseConfig,
      parsed.deploySecrets,
      parsed.variables,
      flags.env,
      flags.command,
      flags.all)
  }

  /**
   * The configuration read from the file, if there is one; a file that
   * cannot be read or parsed is a `ConfigurationError`.
   */
  function ReadCliConfig(fs: FileSystem, cwd: string, parse: string -> Result<CliConfigFile, string>,
                         current: CliConfig, flags: WorkerFlags)
    : Result<CliConfig, Failure>
  {
    var path := CliConfigPath(cwd);
    if !fs.Exists(path) then Ok(current)
    else match fs.ReadFile(path)
      case Err(m) => Err(ConfigurationError("Failed to parse configuration file: " + m))
      case Ok(text) =>
        match parse(text)
        case Err(m) => Err(ConfigurationError("Failed to parse configuration file: " + m))
        case Ok(parsed) => Ok(FromFile(parsed, cwd, flags))
  }

  /** The four flag overrides: a flag wins only when it is truthy. */
  function FlagOverrides(c: CliConfig, flags: WorkerFlags): CliConfig {
    CliConfig(
      if flags.rootDir != "" then flags.rootDir else c.rootDir,
      if flags.workersDirName != "" then flags.workersDirName else c.workersDirName,
      if flags.baseConfig != "" then flags.baseConfig else c.baseConfig,
      c.deploySecrets || flags.deploySecrets,
      c.variables, c.env, c.command, c.all)
  }

  /** The defaults: an empty root is cwd, and `base.wrangler.jsonc` under it is picked up if no base config is set. */
  function Defaults(fs: FileSystem, cwd: string, c: CliConfig): CliConfig {
    var root := if c.rootDir == "" then cwd else c.rootDir;
    c.(rootDir := root,
       baseConfig := if c.baseConfig == "" && fs.Exists(Join(root, DEFAULT_BASE_CONFIG)) then DEFAULT_BASE_CONFIG
                     else c.baseConfig)
  }

  /** Everything `loadConfiguration` does to the configuration after reading the file. */
  function Override(fs: FileSystem, cwd: string, c: CliConfig, flags: WorkerFlags): CliConfig {
    Defaults(fs, cwd, FlagOverrides(c, flags))
  }

  /**
   * `loadConfiguration(flags, args)`: the new value of the field (assigned
   * even when validation then throws) and what the call returns or throws.
   */
  function Load(fs: FileSystem, cwd: string, parse: string -> Result<CliConfigFile, string>,
                current: CliConfig, flags: WorkerFlags, args: WorkerArgs)
    : (r: (CliConfig, Result<CliConfig, Failure>))
    ensures r.1.Ok? ==> r.1.value == r.0 && r.0.command.Some? && !(r.0.all && args.workerName != "")
  {
    match ReadCliConfig(fs, cwd, parse, current, flags)
    case Err(f) => (current, Err(f))
    case Ok(c) =>
      var c' := Override(fs, cwd, c, flags);
      (c', match Validate(c', args.workerName)
           case Err(f) => Err(f)
           case Ok(_) => Ok(c'))
  }

  /** The configuration service of one command. */
  class ConfigurationService {
    var cliConfig: CliConfig

    constructor ()
      ensures cliConfig == InitialConfig
    {
      cliConfig := InitialConfig;
    }

    /** `validateConfiguration`. */
    method ValidateConfiguration(workerName: string) returns (r: Result<Unit, Failure>)
      ensures r == Validate(cliConfig, workerName)
    {
      if workerName == "" && cliConfig.command == Some(Dev) && !cliConfig.all {
        return Err(ConfigurationError("Worker name is required for dev command"));
      }
      if cliConfig.all && workerName != "" {
        return Err(ConfigurationError("Worker name is not allowed when using --all flag"));
      }
      if cliConfig.command.None? {
        return Err(ConfigurationError("Command is required"));
      }
      return Ok(Unit);
    }

    /** The four flag overrides of `loadConfiguration`: a flag wins only when truthy. */
    method OverrideFlags(flags: WorkerFlags)
      modifies this
      ensures cliConfig == FlagOverrides(old(cliConfig), flags)
    {
      if flags.rootDir != "" { cliConfig := cliConfig.(rootDir := flags.rootDir); }
      if flags.workersDirName != "" { cliConfig := cliConfig.(workersDirName := flags.workersDirName); }
      if flags.baseConfig != "" { cliConfig := cliConfig.(baseConfig := flags.baseConfig); }
      if flags.deploySecrets { cliConfig := cliConfig.(deploySecrets := flags.deploySecrets); }
    }

    /** `loadConfiguration`. */
    method LoadConfiguration(world: World, flags: WorkerFlags, args: WorkerArgs) returns (r: Result<CliConfig, Failure>)
      modifies this
      ensures (cliConfig, r) == Load(world.fs, world.cwd, world.parseCliConfig, old(cliConfig), flags, args)
    {
      var cliConfigPath := CliConfigPath(world.cwd);
      if world.fs.Exists(cliConfigPath) {
        var text := world.fs.ReadFile(cliConfigPath);
        if text.Err? {
          return Err(ConfigurationError("Failed to parse configuration file: " + text.error));
        }
        var parsed := world.parseCliConfig(text.value);
        if parsed.Err? {
          return Err(ConfigurationError("Failed to parse configuration file: " + parsed.error));
        }
        cliConfig := CliConfig(
          if parsed.value.rootDir != "" then parsed.value.rootDir else world.cwd,
          parsed.value.workersDirName,
          parsed.value.baseConfig,
          parsed.value.deploySecrets,
          parsed.value.variables,
          flags.env,
          flags.command,
          flags.all);
      }
      ghost var read := cliConfig;
      assert ReadCliConfig(world.fs, world.cwd, world.parseCliConfig, old(cliConfig), flags) == Ok(read);
      OverrideFlags(flags);
      ghost var overridden := cliConfig;
      if cliConfig.rootDir == "" { cliConfig := cliConfig.(rootDir := world.cwd); }
      if cliConfig.baseConfig == "" {
        var defaultPath := Join(cliConfig.rootDir, DEFAULT_BASE_CONFIG);
        if world.fs.Exists(defaultPath) {
          cliConfig := cliConfig.(baseConfig := DEFAULT_BASE_CONFIG);
        }
      }
      assert cliConfig == Defaults(world.fs, world.cwd, overridden);
      var valid := ValidateConfiguration(args.workerName);
      if valid.Err? {
        return Err(valid.error);
      }
      return Ok(cliConfig);
    }
  }

  /**
   * With a configuration file, each setting comes from the first source
   * that has it: a truthy flag, then the file, then the default; `all`,
   * `env` and `command` come from the flags only, and a false
   * `deploySecrets` flag cannot clear a true value from the file.
   */
  lemma LoadPrecedence(fs: FileSystem, cwd: string, parse: string -> Result<CliConfigFile, string>,
                       current: CliConfig, flags: WorkerFlags, args: WorkerArgs, parsed: CliConfigFile)
    requires CliConfigPath(cwd) in fs.files && parse(fs.files[CliConfigPath(cwd)]) == Ok(parsed)
    ensures var c := Load(fs, cwd, parse, current, flags, args).0;
      && c.rootDir == (if flags.rootDir != "" then flags.rootDir else if parsed.rootDir != "" then parsed.rootDir else cwd)
      && c.workersDirName == (if flags.workersDirName != "" then flags.workersDirName else parsed.workersDirName)
      && c.deploySecrets == (flags.deploySecrets || parsed.deploySecrets)
      && c.baseConfig == (if flags.baseConfig != "" then flags.baseConfig
                          else if parsed.baseConfig != "" then parsed.baseConfig
                          else if fs.Exists(Join(c.rootDir, DEFAULT_BASE_CONFIG)) then DEFAULT_BASE_CONFIG
                          else "")
      && c.variables == parsed.variables
      && (c.all, c.env, c.command) == (flags.all, flags.env, flags.command)
  {
  }

  /**
   * Without a configuration file the flags `all`, `env` and `command` are
   * ignored, so a fresh service always fails with "Command is required".
   */
  lemma NoConfigFileNoCommand(fs: FileSystem, cwd: string, parse: string -> Result<CliConfigFile, string>,
                              flags: WorkerFlags, args: WorkerArgs)
    requires !fs.Exists(CliConfigPath(cwd))
    ensures Load(fs, cwd, parse, InitialConfig, flags, args).1 == Err(ConfigurationError("Command is required"))
  {
  }

  /** A loaded configuration is the one the service now holds, and it names a command. */
  lemma LoadedIsStored(fs: FileSystem, cwd: string, parse: string -> Result<CliConfigFile, string>,
                       current: CliConfig, flags: WorkerFlags, args: WorkerArgs)
    requires Load(fs, cwd, parse, current, flags, args).1.Ok?
    ensures var (c, r) := Load(fs, cwd, parse, current, flags, args);
      r.value == c && c.command.Some? && (c.rootDir == "" ==> cwd == "")
  {
  }
}
