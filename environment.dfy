/** The environment session of one command (src/services/environment-service.ts). */
module Environment {
  import opened Wrappers
  import opened Errors
  import opened Host
  import opened EnvVars
  import Files

  /** A `backupList` entry: an environment file and its parsed contents before patching. */
  datatype Backup = Backup(envFile: string, env: Record)

  /** `parseEnvironmentVariables`: a missing file parses as the empty object. */
  function ParseEnvFile(fs: FileSystem, dotenvParse: string -> seq<(string, string)>, path: string)
    : (r: Result<Record, Failure>)
    ensures !fs.Exists(path) ==> r == Ok([])
    ensures path in fs.files ==> r == Ok(ParseEnv(dotenvParse, fs.files[path]))
    ensures r.Err? <==> path !in fs.files && path in fs.dirs
    ensures r.Err? ==> r.error.FileOperationError?
  {
    if !fs.Exists(path) then Ok([])
    else match fs.ReadFile(path)
      case Err(m) => Err(FileOperationError("Failed to read environment variables from " + path + ": " + m))
      case Ok(content) => Ok(ParseEnv(dotenvParse, content))
  }

  /** `writeEnvironmentVariables`: only a file that already exists is (over)written. */
  function WriteEnvFile(fs: FileSystem, path: string, vars: Record): (r: Result<FileSystem, Failure>)
    ensures r.Ok? <==> path == "" || path !in fs.dirs
    ensures r.Ok? ==> r.value.dirs == fs.dirs && r.value.files.Keys == fs.files.Keys
    ensures r.Ok? && path != "" && path in fs.files ==> r.value.files == fs.files[path := Serialize(vars)]
    ensures r.Ok? && (path == "" || path !in fs.files) ==> r.value == fs
  {
    if path == "" || !fs.Exists(path) then Ok(fs)
    else match fs.WriteFile(path, Serialize(vars))
      case Err(m) => Err(FileOperationError("Failed to write environment variables to " + path + ": " + m))
      case Ok(fs') => Ok(fs')
  }

  /** `patchEnvironmentFile`: new backup list, disk and outcome. */
  function Patch(fs: FileSystem, dotenvParse: string -> seq<(string, string)>, backups: seq<Backup>,
                 rootDir: string, workerPath: string, env: string)
    : (seq<Backup>, FileSystem, Result<Unit, Failure>)
  {
    var workerEnvPath := Files.GetEnvironmentFile(fs, workerPath, env);
    var rootEnvPath := Files.GetEnvironmentFile(fs, rootDir, env);
    match ParseEnvFile(fs, dotenvParse, workerEnvPath)
    case Err(f) => (backups, fs, Err(f))
    case Ok(workerEnvVars) =>
      match ParseEnvFile(fs, dotenvParse, rootEnvPath)
      case Err(f) => (backups, fs, Err(f))
      case Ok(rootEnvVars) => Store(fs, backups, workerEnvPath, rootEnvPath, workerEnvVars, rootEnvVars)
  }

  /** The second half of `patchEnvironmentFile`: back up the worker's variables, then write the merge. */
  function Store(fs: FileSystem, backups: seq<Backup>, workerEnvPath: string, rootEnvPath: string,
                 workerEnvVars: Record, rootEnvVars: Record)
    : (seq<Backup>, FileSystem, Result<Unit, Failure>)
  {
    if workerEnvPath == "" || rootEnvPath == "" then (backups, fs, Ok(Unit))
    else
      var backups' := backups + [Backup(workerEnvPath, workerEnvVars)];
      match WriteEnvFile(fs, workerEnvPath, Spread(rootEnvVars, workerEnvVars))
      case Err(f) => (backups', fs, Err(f))
      case Ok(fs') => (backups', fs', Ok(Unit))
  }

  /**
   * The replay loop of `rollbackEnvironmentVariables`: write back the last
   * backup and pop it, until none is left or a write throws.
   */
  function Replay(fs: FileSystem, backups: seq<Backup>): (seq<Backup>, FileSystem, Result<Unit, Failure>)
    decreases |backups|
  {
    if backups == [] then ([], fs, Ok(Unit))
    else
      var last := backups[|backups| - 1];
      match WriteEnvFile(fs, last.envFile, last.env)
      case Err(f) => (backups, fs, Err(f))
      case Ok(fs') => Replay(fs', backups[..|backups| - 1])
  }

  /** `rollbackEnvironmentVariables`: new backup list, temp env path, disk and outcome. */
  function Rollback(fs: FileSystem, backups: seq<Backup>, tempEnvPath: string)
    : (seq<Backup>, string, FileSystem, Result<Unit, Failure>)
  {
    var (backups', fs', r) := Replay(fs, backups);
    if r.Err? then (backups', tempEnvPath, fs', r)
    else if tempEnvPath == "" then (backups', tempEnvPath, fs', r)
    else if !fs'.Exists(tempEnvPath) then (backups', "", fs', r)
    else match fs'.Unlink(tempEnvPath)
      case Err(m) =>
        (backups', tempEnvPath, fs',
         Err(FileOperationError("Failed to delete temporary environment variables file: " + m)))
      case Ok(fs'') => (backups', "", fs'', Ok(Unit))
  }

  /** `createTempEnvFile`: new temp env path, disk, and the returned path. */
  function CreateTemp(fs: FileSystem, dotenvParse: string -> seq<(string, string)>, rootDir: string,
                      tempEnvFileName: string, workerPath: string, env: string, tempEnvPath: string)
    : (string, FileSystem, Result<string, Failure>)
  {
    match ParseEnvFile(fs, dotenvParse, Files.GetEnvironmentFile(fs, workerPath, env))
    case Err(f) => (tempEnvPath, fs, Err(f))
    case Ok(workerEnvVars) =>
      match ParseEnvFile(fs, dotenvParse, Files.GetEnvironmentFile(fs, rootDir, env))
      case Err(f) => (tempEnvPath, fs, Err(f))
      case Ok(rootEnvVars) =>
        var path := Join(workerPath, tempEnvFileName);
        var removed: Result<FileSystem, string> := if fs.Exists(path) then fs.Unlink(path) else Ok(fs);
        match removed
        case Err(m) =>
          (tempEnvPath, fs, Err(FileOperationError("Failed to delete temporary environment variables file: " + m)))
        case Ok(fs1) =>
          match WriteEnvFile(fs1, path, Spread(rootEnvVars, workerEnvVars))
          case Err(f) => (tempEnvPath, fs1, Err(f))
          case Ok(fs2) => (path, fs2, Ok(path))
  }

  class EnvironmentService {
    var backupList: seq<Backup>
    var rootDir: string
    var tempEnvPath: string
    /** `TEMP_ENV_FILE`, the temp env file's name inside a worker directory. */
    const tempEnvFileName: string

    constructor (tempEnvFileName: string)
      ensures backupList == [] && rootDir == "" && tempEnvPath == ""
      ensures this.tempEnvFileName == tempEnvFileName
    {
      backupList := [];
      rootDir := "";
      tempEnvPath := "";
      this.tempEnvFileName := tempEnvFileName;
    }

    /** `setRootDir`. */
    method SetRootDir(rootDir: string)
      modifies this
      ensures this.rootDir == rootDir
      ensures backupList == old(backupList) && tempEnvPath == old(tempEnvPath)
    {
      this.rootDir := rootDir;
    }

    /** `writeEnvironmentVariables`. */
    method WriteEnvironmentVariables(world: World, path: string, vars: Record) returns (r: Result<Unit, Failure>)
      modifies world
      ensures world.events == old(world.events)
      ensures var spec := WriteEnvFile(old(world.fs), path, vars);
        && (r.Ok? <==> spec.Ok?)
        && (r.Ok? ==> r == Ok(Unit) && world.fs == spec.value)
        && (r.Err? ==> world.fs == old(world.fs) && r.error == spec.error)
    {
      if path == "" || !world.fs.Exists(path) {
        return Ok(Unit);
      }
      var written := world.WriteFile(path, Serialize(vars));
      if written.Err? {
        return Err(FileOperationError("Failed to write environment variables to " + path + ": " + written.error));
      }
      return Ok(Unit);
    }

    /** `patchEnvironmentFile`. */
    method PatchEnvironmentFile(world: World, workerPath: string, env: string) returns (r: Result<Unit, Failure>)
      modifies this, world
      ensures world.events == old(world.events)
      ensures rootDir == old(rootDir) && tempEnvPath == old(tempEnvPath)
      ensures (backupList, world.fs, r) ==
              Patch(old(world.fs), world.dotenvParse, old(backupList), rootDir, workerPath, env)
    {
      var workerEnvPath := Files.GetEnvironmentFile(world.fs, workerPath, env);
      var rootEnvPath := Files.GetEnvironmentFile(world.fs, rootDir, env);
      var workerEnvVars := ParseEnvFile(world.fs, world.dotenvParse, workerEnvPath);
      if workerEnvVars.Err? {
        return Err(workerEnvVars.error);
      }
      var rootEnvVars := ParseEnvFile(world.fs, world.dotenvParse, rootEnvPath);
      if rootEnvVars.Err? {
        return Err(rootEnvVars.error);
      }
      // Both paths are non-empty (getEnvironmentFile never yields ""), so the early return cannot happen.
      ghost var stored := Store(world.fs, backupList, workerEnvPath, rootEnvPath, workerEnvVars.value, rootEnvVars.value);
      backupList := backupList + [Backup(workerEnvPath, workerEnvVars.value)];
      r := WriteEnvironmentVariables(world, workerEnvPath, Spread(rootEnvVars.value, workerEnvVars.value));
      assert (backupList, world.fs, r) == stored;
    }

    /** `createTempEnvFile`. */
    method CreateTempEnvFile(world: World, workerPath: string, env: string) returns (r: Result<string, Failure>)
      modifies this, world
      ensures world.events == old(world.events)
      ensures backupList == old(backupList) && rootDir == old(rootDir)
      ensures (tempEnvPath, world.fs, r) ==
              CreateTemp(old(world.fs), world.dotenvParse, rootDir, tempEnvFileName, workerPath, env, old(tempEnvPath))
    {
      var workerEnvVars :- ParseEnvFile(world.fs, world.dotenvParse, Files.GetEnvironmentFile(world.fs, workerPath, env));
      var rootEnvVars :- ParseEnvFile(world.fs, world.dotenvParse, Files.GetEnvironmentFile(world.fs, rootDir, env));
      var path := Join(workerPath, tempEnvFileName);
      if world.fs.Exists(path) {
        var removed := world.Unlink(path);
        if removed.Err? {
          return Err(FileOperationError("Failed to delete temporary environment variables file: " + removed.error));
        }
      }
      // Two parsed objects are always truthy, so the early return never happens.
      var written := WriteEnvironmentVariables(world, path, Spread(rootEnvVars, workerEnvVars));
      r := if written.Ok? then Ok(path) else Err(written.error);
      if r.Ok? {
        tempEnvPath := path;
      }
    }

    /** `rollbackEnvironmentVariables`. */
    method RollbackEnvironmentVariables(world: World) returns (r: Result<Unit, Failure>)
      modifies this, world
      ensures world.events == old(world.events)
      ensures rootDir == old(rootDir)
      ensures (backupList, tempEnvPath, world.fs, r) == Rollback(old(world.fs), old(backupList), old(tempEnvPath))
    {
      var i := |backupList| - 1;
      while i >= 0
        invariant i == |backupList| - 1
        invariant rootDir == old(rootDir) && tempEnvPath == old(tempEnvPath)
        invariant world.events == old(world.events)
        invariant Replay(world.fs, backupList) == Replay(old(world.fs), old(backupList))
        decreases i
      {
        var backup := backupList[i];
        var written := WriteEnvironmentVariables(world, backup.envFile, backup.env);
        if written.Err? {
          return written;
        }
        backupList := backupList[..i];
        i := i - 1;
      }
      if tempEnvPath != "" {
        if world.fs.Exists(tempEnvPath) {
          var removed := world.Unlink(tempEnvPath);
          if removed.Err? {
            return Err(FileOperationError("Failed to delete temporary environment variables file: " + removed.error));
          }
        }
        tempEnvPath := "";
      }
      return Ok(Unit);
    }
  }
}
