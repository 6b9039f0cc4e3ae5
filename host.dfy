/**
 * What the core runs against: the file system, wrangler's config reader and
 * patcher, `dotenv.parse`, `JSON.parse` of the CLI config file, the
 * external `wrangler` process, and the CLI framework's output. Foreign code
 * is given as function-valued fields, so every property proved holds for
 * whatever they compute.
 */
module Host {
  import opened Wrappers
  import CommandTypes
  import Errors

  /**
   * `path.join(a, b)` for the paths the core builds: empty segments are
   * dropped and the others separated by `/`.
   */
  function Join(a: string, b: string): (r: string)
    ensures b != "" ==> r != ""
  {
    if b == "" then a else if a == "" then b else a + "/" + b
  }

  /**
   * A snapshot of the disk: file contents by path, and directories with the
   * entries `readdirSync` lists for them, in its order.
   */
  datatype FileSystem = FileSystem(files: map<string, string>, dirs: map<string, seq<string>>) {
    /** No path is both a file and a directory. */
    predicate Valid() {
      forall p | p in files :: p !in dirs
    }

    /** `existsSync(p)`. */
    predicate Exists(p: string) {
      p in files || p in dirs
    }

    /** `readFileSync(p, "utf8")`. */
    function ReadFile(p: string): Result<string, string> {
      if p in files then Ok(files[p])
      else if p in dirs then Err("EISDIR: illegal operation on a directory, read")
      else Err("ENOENT: no such file or directory, open '" + p + "'")
    }

    /** `writeFileSync(p, content)`: creates or overwrites a file. */
    function WriteFile(p: string, content: string): Result<FileSystem, string> {
      if p in dirs then Err("EISDIR: illegal operation on a directory, open '" + p + "'")
      else Ok(this.(files := files[p := content]))
    }

    /** `unlinkSync(p)`. */
    function Unlink(p: string): Result<FileSystem, string> {
      if p in files then Ok(this.(files := files - {p}))
      else if p in dirs then Err("EISDIR: illegal operation on a directory, unlink '" + p + "'")
      else Err("ENOENT: no such file or directory, unlink '" + p + "'")
    }

    /** `readdirSync(p)`. */
    function ReadDir(p: string): Result<seq<string>, string> {
      if p in dirs then Ok(dirs[p])
      else if p in files then Err("ENOTDIR: not a directory, scandir '" + p + "'")
      else Err("ENOENT: no such file or directory, scandir '" + p + "'")
    }
  }

  /** A `services` entry of a wrangler config. */
  datatype ServiceBinding = ServiceBinding(binding: string, service: string)

  /** The `env.<name>` block of a wrangler config, as far as the core reads it. */
  datatype EnvConfig = EnvConfig(services: Option<seq<ServiceBinding>>)

  /** The part of `experimental_readRawConfig(...).rawConfig` the core reads. */
  datatype RawConfig = RawConfig(
    name: Option<string>,
    services: Option<seq<ServiceBinding>>,
    env: map<string, EnvConfig>)

  /** The patches the core hands to `experimental_patchConfig`. */
  datatype ConfigPatch =
    | MergeConfig(base: RawConfig)
    | SetName(name: Option<string>)
    | BindService(env: string, binding: string, service: Option<string>)

  /**
   * Wrangler's config reader and patcher, on the text of a config file:
   * reading parses comment-tolerant JSON; patching returns the new text (it
   * is written back to the same file) or fails with a message.
   */
  datatype Wrangler = Wrangler(
    readRawConfig: string -> Result<RawConfig, string>,
    patchConfig: (string, ConfigPatch, bool) -> Result<string, string>)

  /** The contents of `worker.config.json` once parsed; missing fields are ""/false/[]. */
  datatype CliConfigFile = CliConfigFile(
    rootDir: string,
    workersDirName: string,
    baseConfig: string,
    deploySecrets: bool,
    variables: CommandTypes.Variables)

  /**
   * How a `wrangler` child process ended: with an exit code (`null` when a
   * signal ended it) or by failing to start.
   */
  datatype ProcessOutcome = Exited(code: Option<int>) | SpawnFailed(reason: string)

  /** The stages of one worker's dev or deploy run, recorded as each one starts. */
  datatype Stage = Validating | Composing | Binding | PatchingEnvironment

  /** What the outside world observes, in order. */
  datatype Event =
    | Warned(message: string)
    | Spawned(args: seq<string>, outcome: ProcessOutcome)
    | Reached(stage: Stage, worker: string)

  /**
   * The process's surroundings: the disk, the output so far, and the
   * foreign code: wrangler's config functions, `dotenv.parse`, `JSON.parse`
   * of `worker.config.json`, the `wrangler` executable, the `worker:create`
   * command (which downloads a template), and how many nested calls the
   * JavaScript stack allows.
   */
  class World {
    var fs: FileSystem
    var events: seq<Event>
    const cwd: string
    const wrangler: Wrangler
    const dotenvParse: string -> seq<(string, string)>
    const parseCliConfig: string -> Result<CliConfigFile, string>
    const tool: seq<string> -> ProcessOutcome
    const createWorker: (CommandTypes.WorkerArgs, CommandTypes.WorkerFlags) -> Result<Unit, Errors.Failure>
    const stackDepth: nat

    constructor (fs: FileSystem, cwd: string, wrangler: Wrangler,
                 dotenvParse: string -> seq<(string, string)>,
                 parseCliConfig: string -> Result<CliConfigFile, string>,
                 tool: seq<string> -> ProcessOutcome,
                 createWorker: (CommandTypes.WorkerArgs, CommandTypes.WorkerFlags) -> Result<Unit, Errors.Failure>,
                 stackDepth: nat)
      ensures this.fs == fs && events == [] && this.cwd == cwd && this.wrangler == wrangler
      ensures this.dotenvParse == dotenvParse && this.parseCliConfig == parseCliConfig
      ensures this.tool == tool && this.createWorker == createWorker && this.stackDepth == stackDepth
    {
      this.fs := fs;
      this.events := [];
      this.cwd := cwd;
      this.wrangler := wrangler;
      this.dotenvParse := dotenvParse;
      this.parseCliConfig := parseCliConfig;
      this.tool := tool;
      this.createWorker := createWorker;
      this.stackDepth := stackDepth;
    }

    method WriteFile(p: string, content: string) returns (r: Result<Unit, string>)
      modifies this
      ensures events == old(events)
      ensures r.Ok? <==> old(fs).WriteFile(p, content).Ok?
      ensures fs == (if r.Ok? then old(fs).WriteFile(p, content).value else old(fs))
      ensures r.Err? ==> r.error == old(fs).WriteFile(p, content).error
    {
      var w := fs.WriteFile(p, content);
      if w.Err? {
        return Err(w.error);
      }
      fs := w.value;
      return Ok(Unit);
    }

    method Unlink(p: string) returns (r: Result<Unit, string>)
      modifies this
      ensures events == old(events)
      ensures r.Ok? <==> old(fs).Unlink(p).Ok?
      ensures fs == (if r.Ok? then old(fs).Unlink(p).value else old(fs))
      ensures r.Err? ==> r.error == old(fs).Unlink(p).error
    {
      var u := fs.Unlink(p);
      if u.Err? {
        return Err(u.error);
      }
      fs := u.value;
      return Ok(Unit);
    }

    method Emit(e: Event)
      modifies this
      ensures fs == old(fs) && events == old(events) + [e]
    {
      events := events + [e];
    }
  }
}
