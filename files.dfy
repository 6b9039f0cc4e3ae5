/** Temp-config composition and temp-file tracking (src/services/file-service.ts). */
module Files {
  import opened Wrappers
  import opened Strings
  import opened Names
  import opened Errors
  import opened Host
  import opened CommandTypes
  import FsUtil

  const WRANGLER_FILE := "wrangler.jsonc"
  const TEMP_WRANGLER_FILE := ".temp.wrangler.jsonc"
  const TEMP_BASE_WRANGLER_FILE := ".temp.base.wrangler.jsonc"

  /** The text `{key}` that a variable named `key` replaces. */
  function Placeholder(key: string): (p: string)
    ensures |p| == |key| + 2 && p[0] == '{' && p[|p| - 1] == '}'
  {
    "{" + key + "}"
  }

  /** The `replaceValues` loop: each entry, in order, replaces all of its placeholders. */
  function Substitute(config: string, vars: Variables): string
    decreases |vars|
  {
    if vars == [] then config
    else Substitute(ReplaceAll(config, Placeholder(vars[0].0), vars[0].1), vars[1..])
  }

  /** Where the composed config of a worker goes. */
  function TempConfigPath(workerPath: string): string {
    Join(workerPath, TEMP_WRANGLER_FILE)
  }

  /** Where the snapshot of the base config goes. */
  function TempBasePath(workerPath: string): string {
    Join(workerPath, TEMP_BASE_WRANGLER_FILE)
  }

  /** `experimental_readRawConfig({config: p})`: read the file, then parse it. */
  function ReadRawConfigAt(fs: FileSystem, w: Wrangler, p: string): Result<RawConfig, string> {
    match fs.ReadFile(p)
    case Err(m) => Err(m)
    case Ok(text) => w.readRawConfig(text)
  }

  /**
   * `experimental_patchConfig(p, patch, flag)`: read, patch and write back;
   * returns the new text and disk. Nothing changes on failure.
   */
  function PatchConfigAt(fs: FileSystem, w: Wrangler, p: string, patch: ConfigPatch, flag: bool)
    : Result<(string, FileSystem), string>
  {
    match fs.ReadFile(p)
    case Err(m) => Err(m)
    case Ok(text) =>
      match w.patchConfig(text, patch, flag)
      case Err(m) => Err(m)
      case Ok(patched) =>
        match fs.WriteFile(p, patched)
        case Err(m) => Err(m)
        case Ok(fs') => Ok((patched, fs'))
  }

  /** The options of `createTempWranglerConfig`; "" and [] stand for absent. */
  datatype ComposeOptions = ComposeOptions(
    workerName: string,
    configPath: string,
    workerPath: string,
    baseConfigPath: string,
    replaceValues: Variables)

  /**
   * `mergeConfigFiles`: patch the temp config with the raw base snapshot,
   * replace `{workerName}` and write the text back. Returns the new disk
   * (changed up to the failing step) and the merged text.
   */
  function Merge(fs: FileSystem, w: Wrangler, workerName: string, workerPath: string)
    : (FileSystem, Result<string, Failure>)
  {
    var configPath := TempConfigPath(workerPath);
    var merged: Result<(string, FileSystem), string> :=
      match ReadRawConfigAt(fs, w, TempBasePath(workerPath))
      case Err(m) => Err(m)
      case Ok(baseRaw) => PatchConfigAt(fs, w, configPath, MergeConfig(baseRaw), true);
    match merged
    case Err(m) => (fs, Err(WorkerCommandError("Failed to merge config files: " + m)))
    case Ok((patched, fs1)) =>
      var config := ReplaceAll(patched, "{workerName}", workerName);
      match fs1.WriteFile(configPath, config)
      case Err(m) => (fs1, Err(WorkerCommandError("Failed to merge config files: " + m)))
      case Ok(fs2) => (fs2, Ok(config))
  }

  /** Delete `p` if it exists. */
  function RemoveIfExists(fs: FileSystem, p: string): Result<FileSystem, string> {
    if fs.Exists(p) then fs.Unlink(p) else Ok(fs)
  }

  /** Copy the file at `from` to `to`. */
  function Copy(fs: FileSystem, from: string, to: string): Result<FileSystem, string> {
    match fs.ReadFile(from)
    case Err(m) => Err(m)
    case Ok(text) => fs.WriteFile(to, text)
  }

  /** Steps 1-2: a fresh verbatim copy of the worker config, and of the base config if given. */
  function CopyInputs(fs: FileSystem, o: ComposeOptions): (FileSystem, Result<Unit, string>) {
    var temp := TempConfigPath(o.workerPath);
    match RemoveIfExists(fs, temp)
    case Err(m) => (fs, Err(m))
    case Ok(fs1) =>
      match Copy(fs1, o.configPath, temp)
      case Err(m) => (fs1, Err(m))
      case Ok(fs2) =>
        if o.baseConfigPath == "" then (fs2, Ok(Unit))
        else
          match RemoveIfExists(fs2, TempBasePath(o.workerPath))
          case Err(m) => (fs2, Err(m))
          case Ok(fs3) =>
            match Copy(fs3, o.baseConfigPath, TempBasePath(o.workerPath))
            case Err(m) => (fs3, Err(m))
            case Ok(fs4) => (fs4, Ok(Unit))
  }

  /** Steps 4-5: substitute the variables, then patch in the sanitised name. */
  function Finish(fs: FileSystem, w: Wrangler, o: ComposeOptions): (FileSystem, Result<Unit, string>) {
    var temp := TempConfigPath(o.workerPath);
    match fs.ReadFile(temp)
    case Err(m) => (fs, Err(m))
    case Ok(text) =>
      match fs.WriteFile(temp, Substitute(text, o.replaceValues))
      case Err(m) => (fs, Err(m))
      case Ok(fs1) =>
        match ReadRawConfigAt(fs1, w, temp)
        case Err(m) => (fs1, Err(m))
        case Ok(raw) =>
          match PatchConfigAt(fs1, w, temp, SetName(SanitizeOptionalName(raw.name)), true)
          case Err(m) => (fs1, Err(m))
          case Ok((_, fs2)) => (fs2, Ok(Unit))
  }

  /** The composition steps in order; a failure carries the message the catch sees. */
  function ComposeSteps(fs: FileSystem, w: Wrangler, o: ComposeOptions): (FileSystem, Result<Unit, string>) {
    var (fs1, copied) := CopyInputs(fs, o);
    if copied.Err? then (fs1, copied)
    else
      var (fs2, merged) :=
        if o.baseConfigPath == "" then (fs1, Ok(""))
        else Merge(fs1, w, o.workerName, o.workerPath);
      if merged.Err? then (fs2, Err(merged.error.message))
      else Finish(fs2, w, o)
  }

  /**
   * `createTempWranglerConfig`: the new disk, and the temp config path or
   * the `FileOperationError` every failure becomes.
   */
  function Compose(fs: FileSystem, w: Wrangler, o: ComposeOptions): (FileSystem, Result<string, Failure>) {
    var (fs', r) := ComposeSteps(fs, w, o);
    (fs', if r.Ok? then Ok(TempConfigPath(o.workerPath))
          else Err(FileOperationError("Failed to create temporary wrangler config for "
                                      + o.workerName + ": " + r.error)))
  }

  /** `cleanupTempFiles` on the disk: delete what exists, warn about what cannot be deleted. */
  function Cleanup(fs: FileSystem, paths: seq<string>): (FileSystem, seq<Event>)
    decreases |paths|
  {
    if paths == [] then (fs, [])
    else
      var p := paths[0];
      var (fs1, warned) :=
        if !fs.Exists(p) then (fs, [])
        else match fs.Unlink(p)
          case Ok(fs') => (fs', [])
          case Err(_) =>
            (fs, [Warned(HandleError(PlainError("Error", "Failed to delete temporary file: " + p), false).message)]);
      var (fs2, rest) := Cleanup(fs1, paths[1..]);
      (fs2, warned + rest)
  }

  /** `getEnvironmentFile`: `.dev.vars`, or `.dev.vars.<env>` when env is set, not `dev`, and that file exists. */
  function GetEnvironmentFile(fs: FileSystem, workerPath: string, env: string): (r: string)
    ensures r != ""
    ensures r == Join(workerPath, ".dev.vars." + env) <==>
            (env != "" && env != "dev" && fs.Exists(Join(workerPath, ".dev.vars." + env)))
    ensures r != Join(workerPath, ".dev.vars." + env) ==> r == Join(workerPath, ".dev.vars")
  {
    if env == "" || env == "dev" then Join(workerPath, ".dev.vars")
    else
      var envFile := Join(workerPath, ".dev.vars." + env);
      if fs.Exists(envFile) then envFile else Join(workerPath, ".dev.vars")
  }

  /** `validateWorker`: a worker name is given and its directory exists. */
  function ValidateWorker(fs: FileSystem, rootDir: string, workersDirName: string, workerName: string)
    : (r: Result<Unit, Failure>)
    ensures r.Ok? <==> workerName != "" && fs.Exists(Join(Join(rootDir, workersDirName), workerName))
    ensures workerName == "" ==> r == Err(ConfigurationError("Worker name is required"))
    ensures workerName != "" && r.Err? ==> r.error.FileOperationError?
  {
    if workerName == "" then Err(ConfigurationError("Worker name is required"))
    else
      var workerPath := Join(Join(rootDir, workersDirName), workerName);
      if !fs.Exists(workerPath) then
        Err(FileOperationError("Worker not found at " + workerPath + ". Please check the worker name."))
      else Ok(Unit)
  }

  /** `validateWorkersDirectory`. */
  function ValidateWorkersDirectory(fs: FileSystem, rootDir: string, workersDirName: string)
    : (r: Result<Unit, Failure>)
    ensures r.Ok? <==> fs.Exists(Join(rootDir, workersDirName))
    ensures r.Err? ==> r.error.FileOperationError?
  {
    var workersPath := Join(rootDir, workersDirName);
    if !fs.Exists(workersPath) then
      Err(FileOperationError("Workers directory not found at " + workersPath
                             + ". Please check the workers directory."))
    else Ok(Unit)
  }

  /** `getWorkers`: the listing of the workers directory. */
  function GetWorkers(fs: FileSystem, rootDir: string, workersDirName: string)
    : (r: Result<seq<string>, Failure>)
    ensures r.Ok? <==> Join(rootDir, workersDirName) in fs.dirs
    ensures r.Ok? ==> r.value == fs.dirs[Join(rootDir, workersDirName)]
    ensures r.Err? ==> r.error.FileOperationError?
  {
    match fs.ReadDir(Join(rootDir, workersDirName))
    case Ok(names) => Ok(names)
    case Err(m) => Err(FileOperationError("Failed to get workers: " + m))
  }

  /** The appends of `addGitignore`, in order, up to the first failure. */
  function AddLines(fs: FileSystem, path: string, lines: seq<string>): (FileSystem, Result<Unit, string>)
    decreases |lines|
  {
    if lines == [] then (fs, Ok(Unit))
    else match FsUtil.AppendLineTo(fs, path, lines[0], true)
      case Err(m) => (fs, Err(m))
      case Ok(fs') => AddLines(fs', path, lines[1..])
  }

  /** The file service of one command: it owns the list of temp files. */
  class FileService {
    var tempFiles: seq<string>

    constructor ()
      ensures tempFiles == []
    {
      tempFiles := [];
    }

    method RemoveIfExistsIn(world: World, p: string) returns (r: Result<Unit, string>)
      modifies world
      ensures world.events == old(world.events)
      ensures r.Ok? <==> RemoveIfExists(old(world.fs), p).Ok?
      ensures world.fs == (if r.Ok? then RemoveIfExists(old(world.fs), p).value else old(world.fs))
      ensures r.Err? ==> r.error == RemoveIfExists(old(world.fs), p).error
    {
      if world.fs.Exists(p) {
        r := world.Unlink(p);
      } else {
        r := Ok(Unit);
      }
    }

    method PatchConfig(world: World, p: string, patch: ConfigPatch, flag: bool)
      returns (r: Result<string, string>)
      modifies world
      ensures world.events == old(world.events)
      ensures var spec := PatchConfigAt(old(world.fs), world.wrangler, p, patch, flag);
        && (r.Ok? <==> spec.Ok?)
        && (r.Ok? ==> r.value == spec.value.0 && world.fs == spec.value.1)
        && (r.Err? ==> r.error == spec.error && world.fs == old(world.fs))
    {
      var text :- world.fs.ReadFile(p);
      var patched :- world.wrangler.patchConfig(text, patch, flag);
      var written := world.WriteFile(p, patched);
      if written.Err? {
        return Err(written.error);
      }
      return Ok(patched);
    }

    /** `mergeConfigFiles`. */
    method MergeConfigFiles(world: World, workerName: string, workerPath: string)
      returns (r: Result<string, Failure>)
      modifies world
      ensures world.events == old(world.events)
      ensures (world.fs, r) == Merge(old(world.fs), world.wrangler, workerName, workerPath)
    {
      var configPath := TempConfigPath(workerPath);
      var baseRaw := ReadRawConfigAt(world.fs, world.wrangler, TempBasePath(workerPath));
      if baseRaw.Err? {
        return Err(WorkerCommandError("Failed to merge config files: " + baseRaw.error));
      }
      var patched := PatchConfig(world, configPath, MergeConfig(baseRaw.value), true);
      if patched.Err? {
        return Err(WorkerCommandError("Failed to merge config files: " + patched.error));
      }
      var config := ReplaceAll(patched.value, "{workerName}", workerName);
      var written := world.WriteFile(configPath, config);
      if written.Err? {
        return Err(WorkerCommandError("Failed to merge config files: " + written.error));
      }
      return Ok(config);
    }

    method CopyFile(world: World, from: string, to: string) returns (r: Result<Unit, string>)
      modifies world
      ensures world.events == old(world.events)
      ensures r.Ok? <==> Copy(old(world.fs), from, to).Ok?
      ensures world.fs == (if r.Ok? then Copy(old(world.fs), from, to).value else old(world.fs))
      ensures r.Err? ==> r.error == Copy(old(world.fs), from, to).error
    {
      var text :- world.fs.ReadFile(from);
      r := world.WriteFile(to, text);
    }

    /** The inside of the `try` of `createTempWranglerConfig`. */
    method ComposeIn(world: World, o: ComposeOptions) returns (r: Result<Unit, string>)
      modifies world
      ensures world.events == old(world.events)
      ensures (world.fs, r) == ComposeSteps(old(world.fs), world.wrangler, o)
    {
      var temp := TempConfigPath(o.workerPath);
      var tempBase := TempBasePath(o.workerPath);
      r := RemoveIfExistsIn(world, temp);
      if r.Err? { return; }
      r := CopyFile(world, o.configPath, temp);
      if r.Err? { return; }
      if o.baseConfigPath != "" {
        r := RemoveIfExistsIn(world, tempBase);
        if r.Err? { return; }
        r := CopyFile(world, o.baseConfigPath, tempBase);
        if r.Err? { return; }
      }
      if o.baseConfigPath != "" {
        var merged := MergeConfigFiles(world, o.workerName, o.workerPath);
        if merged.Err? {
          return Err(merged.error.message);
        }
      }
      var config :- world.fs.ReadFile(temp);
      var i := 0;
      while i < |o.replaceValues|
        invariant 0 <= i <= |o.replaceValues|
        invariant Substitute(config, o.replaceValues[i..]) ==
                  Substitute(world.fs.files[temp], o.replaceValues)
      {
        assert o.replaceValues[i..][1..] == o.replaceValues[i + 1..];
        var (key, value) := o.replaceValues[i];
        config := ReplaceAll(config, Placeholder(key), value);
        i := i + 1;
      }
      r := world.WriteFile(temp, config);
      if r.Err? { return; }
      var raw :- ReadRawConfigAt(world.fs, world.wrangler, temp);
      var patched := PatchConfig(world, temp, SetName(SanitizeOptionalName(raw.name)), true);
      if patched.Err? {
        return Err(patched.error);
      }
      return Ok(Unit);
    }

    /** `createTempWranglerConfig`. */
    method CreateTempWranglerConfig(world: World, o: ComposeOptions) returns (r: Result<string, Failure>)
      modifies world, this
      ensures world.events == old(world.events)
      ensures (world.fs, r) == Compose(old(world.fs), world.wrangler, o)
      ensures tempFiles == old(tempFiles) +
        (if r.Ok? then [TempConfigPath(o.workerPath), TempBasePath(o.workerPath)] else [])
    {
      var steps := ComposeIn(world, o);
      if steps.Err? {
        return Err(FileOperationError("Failed to create temporary wrangler config for "
                                      + o.workerName + ": " + steps.error));
      }
      tempFiles := tempFiles + [TempConfigPath(o.workerPath), TempBasePath(o.workerPath)];
      return Ok(TempConfigPath(o.workerPath));
    }

    /** `addGitignore`: append each missing line; a failure becomes a warning. */
    method AddGitignore(world: World, gitignorePath: string, lines: seq<string>)
      modifies world
      ensures var (fs', r) := AddLines(old(world.fs), gitignorePath, lines);
        && world.fs == fs'
        && world.events == old(world.events) +
             (if r.Ok? then [] else [Warned(HandleError(PlainError("Error", "Failed to update gitignore: " + r.error), false).message)])
    {
      var i := 0;
      while i < |lines|
        invariant 0 <= i <= |lines|
        invariant world.events == old(world.events)
        invariant AddLines(world.fs, gitignorePath, lines[i..]) == AddLines(old(world.fs), gitignorePath, lines)
      {
        assert lines[i..][1..] == lines[i + 1..];
        var appended := FsUtil.AppendLine(world, gitignorePath, lines[i], true);
        if appended.Err? {
          var report := HandleError(PlainError("Error", "Failed to update gitignore: " + appended.error), false);
          world.Emit(Warned(report.message));
          return;
        }
        i := i + 1;
      }
      assert lines[i..] == [];
    }

    /** `cleanupTempFiles`. */
    method CleanupTempFiles(world: World)
      modifies world, this
      ensures (world.fs, world.events) ==
              (Cleanup(old(world.fs), old(tempFiles)).0, old(world.events) + Cleanup(old(world.fs), old(tempFiles)).1)
      ensures tempFiles == []
    {
      var i := 0;
      while i < |tempFiles|
        invariant 0 <= i <= |tempFiles|
        invariant tempFiles == old(tempFiles)
        invariant var (fs0, done) := Cleanup(old(world.fs), old(tempFiles));
          var (fsi, rest) := Cleanup(world.fs, tempFiles[i..]);
          fs0 == fsi && old(world.events) + done == world.events + rest
      {
        var file := tempFiles[i];
        assert tempFiles[i..][1..] == tempFiles[i + 1..];
        if world.fs.Exists(file) {
          var unlinked := world.Unlink(file);
          if unlinked.Err? {
            var report := HandleError(PlainError("Error", "Failed to delete temporary file: " + file), false);
            world.Emit(Warned(report.message));
          }
        }
        i := i + 1;
      }
      assert tempFiles[i..] == [];
      assert world.events + [] == world.events;
      tempFiles := [];
    }
  }
}
