/**
 * How the core calls the `wrangler` CLI (src/services/wrangler-service.ts,
 * without `createWorker`): the argument lists it builds and how the promise
 * of a run settles on the way the process ended.
 */
module WranglerService {
  import opened Wrappers
  import opened Strings
  import opened Errors
  import opened Host
  import opened CommandTypes

  /** `configPaths.flatMap(c => ["-c", c])`. */
  function ConfigFlags(configPaths: seq<string>): (r: seq<string>)
    ensures |r| == 2 * |configPaths|
  {
    if configPaths == [] then [] else ["-c", configPaths[0]] + ConfigFlags(configPaths[1..])
  }

  /** The value words of a list of `<flag> <value>` pairs. */
  function FlagValues(flags: seq<string>): (r: seq<string>)
    ensures |r| == |flags| / 2
    decreases |flags|
  {
    if |flags| < 2 then [] else [flags[1]] + FlagValues(flags[2..])
  }

  /** Each configuration path follows its own `-c`, in the given order. */
  lemma {:induction false} ConfigFlagsAt(configPaths: seq<string>)
    ensures forall i | 0 <= i < |configPaths| ::
      ConfigFlags(configPaths)[2 * i] == "-c" && ConfigFlags(configPaths)[2 * i + 1] == configPaths[i]
  {
    if configPaths != [] {
      ConfigFlagsAt(configPaths[1..]);
      var rest := ConfigFlags(configPaths[1..]);
      assert ConfigFlags(configPaths) == ["-c", configPaths[0]] + rest;
      forall i | 1 <= i < |configPaths|
        ensures ConfigFlags(configPaths)[2 * i] == "-c" && ConfigFlags(configPaths)[2 * i + 1] == configPaths[i]
      {
        assert rest[2 * (i - 1)] == "-c" && rest[2 * (i - 1) + 1] == configPaths[1..][i - 1];
      }
    }
  }

  /** The configuration paths can be read back from the `-c` list. */
  lemma {:induction false} FlagValuesOfConfigFlags(configPaths: seq<string>)
    ensures FlagValues(ConfigFlags(configPaths)) == configPaths
  {
    if configPaths != [] {
      FlagValuesOfConfigFlags(configPaths[1..]);
      assert (["-c", configPaths[0]] + ConfigFlags(configPaths[1..]))[2..] == ConfigFlags(configPaths[1..]);
    }
  }

  /** `["--env", env]` when an environment is given. */
  function EnvFlag(env: string): seq<string> {
    if env != "" then ["--env", env] else []
  }

  /**
   * The arguments of `execWorkerCommand(command, configPaths, env)`: the
   * command, a `-c` pair per configuration path in order, then `--env`.
   */
  function WorkerCommandArgs(command: WorkerCommand, configPaths: seq<string>, env: string): (r: seq<string>)
    ensures |r| == 1 + 2 * |configPaths| + (if env != "" then 2 else 0)
    ensures r[0] == command.Word()
    ensures forall i | 0 <= i < |configPaths| :: r[1 + 2 * i] == "-c" && r[2 + 2 * i] == configPaths[i]
    ensures FlagValues(r[1..1 + 2 * |configPaths|]) == configPaths
    ensures env != "" ==> r[|r| - 2] == "--env" && r[|r| - 1] == env
  {
    ConfigFlagsAt(configPaths);
    FlagValuesOfConfigFlags(configPaths);
    var r := [command.Word()] + ConfigFlags(configPaths) + EnvFlag(env);
    assert r[1..1 + 2 * |configPaths|] == ConfigFlags(configPaths);
    r
  }

  /** The arguments of `execSecretBulkUpload(varsPath, configPath, env)`. */
  function SecretBulkUploadArgs(varsPath: string, configPath: string, env: string): (r: seq<string>)
    ensures |r| == 5 + (if env != "" then 2 else 0)
    ensures r[..5] == ["secret", "bulk", varsPath, "--config", configPath]
    ensures env != "" ==> r[5..] == ["--env", env]
  {
    ["secret", "bulk", varsPath, "--config", configPath] + EnvFlag(env)
  }

  /** The arguments of `execWhoami()`. */
  const WhoamiArgs: seq<string> := ["whoami"]

  /** The exit code the exit listener sees: `code || 0`, so a signal counts as 0. */
  function ReportedCode(code: Option<int>): (c: int)
    ensures c == 0 <==> code.None? || code.value == 0
    ensures c != 0 ==> code == Some(c)
  {
    match code
    case None => 0
    case Some(n) => n
  }

  /** The command a failure names: `args[0] || "unknown"`. */
  function CommandWord(args: seq<string>): (w: string)
    ensures w != ""
    ensures args != [] && args[0] != "" ==> w == args[0]
  {
    if args != [] && args[0] != "" then args[0] else "unknown"
  }

  /**
   * How the promise of `executeWranglerCommand(args)` settles: it resolves
   * on exit code 0 (or none), and otherwise rejects with a `WranglerError`
   * naming the command, the code and the arguments; a process that cannot
   * be started rejects with code -1.
   */
  function Settle(args: seq<string>, outcome: ProcessOutcome): (r: Result<Unit, Failure>)
    ensures r.Ok? <==> outcome.Exited? && ReportedCode(outcome.code) == 0
    ensures r.Err? ==> r.error.WranglerError? && !r.error.IsWorkerManagerError()
    ensures r.Err? ==> r.error.command == CommandWord(args) && r.error.args == args
    ensures outcome.SpawnFailed? ==>
      (r.Err? && r.error.code == -1 && r.error.message == "Failed to start wrangler command: " + outcome.reason)
    ensures outcome.Exited? && r.Err? ==>
      (r.error.code == ReportedCode(outcome.code) && r.error.code != 0 &&
       r.error.message == "Wrangler command '" + CommandWord(args) + "' failed with exit code "
                          + IntToString(r.error.code))
  {
    match outcome
    case SpawnFailed(reason) =>
      Err(WranglerError("Failed to start wrangler command: " + reason, -1, CommandWord(args), args))
    case Exited(code) =>
      var c := ReportedCode(code);
      if c == 0 then Ok(Unit)
      else Err(WranglerError("Wrangler command '" + CommandWord(args) + "' failed with exit code "
                             + IntToString(c), c, CommandWord(args), args))
  }

  /** `executeWranglerCommand(args)`: one run of wrangler, recorded, and how it settled. */
  method ExecuteWranglerCommand(world: World, args: seq<string>) returns (r: Result<Unit, Failure>)
    modifies world
    ensures world.fs == old(world.fs)
    ensures world.events == old(world.events) + [Spawned(args, world.tool(args))]
    ensures r == Settle(args, world.tool(args))
  {
    var outcome := world.tool(args);
    world.Emit(Spawned(args, outcome));
    r := Settle(args, outcome);
  }

  /** `execWorkerCommand(command, configPaths, env)`. */
  method ExecWorkerCommand(world: World, command: WorkerCommand, configPaths: seq<string>, env: string)
    returns (r: Result<Unit, Failure>)
    modifies world
    ensures var args := WorkerCommandArgs(command, configPaths, env);
      && world.fs == old(world.fs)
      && world.events == old(world.events) + [Spawned(args, world.tool(args))]
      && r == Settle(args, world.tool(args))
  {
    var args := [command.Word()] + ConfigFlags(configPaths);
    if env != "" {
      args := args + ["--env", env];
    }
    assert args == WorkerCommandArgs(command, configPaths, env);
    r := ExecuteWranglerCommand(world, args);
  }

  /** `execSecretBulkUpload(varsPath, configPath, env)`. */
  method ExecSecretBulkUpload(world: World, varsPath: string, configPath: string, env: string)
    returns (r: Result<Unit, Failure>)
    modifies world
    ensures var args := SecretBulkUploadArgs(varsPath, configPath, env);
      && world.fs == old(world.fs)
      && world.events == old(world.events) + [Spawned(args, world.tool(args))]
      && r == Settle(args, world.tool(args))
  {
    var args := ["secret", "bulk", varsPath, "--config", configPath];
    if env != "" {
      args := args + ["--env", env];
    }
    assert args == SecretBulkUploadArgs(varsPath, configPath, env);
    r := ExecuteWranglerCommand(world, args);
  }

  /** `execWhoami()`. */
  method ExecWhoami(world: World) returns (r: Result<Unit, Failure>)
    modifies world
    ensures world.fs == old(world.fs)
    ensures world.events == old(world.events) + [Spawned(WhoamiArgs, world.tool(WhoamiArgs))]
    ensures r == Settle(WhoamiArgs, world.tool(WhoamiArgs))
  {
    r := ExecuteWranglerCommand(world, WhoamiArgs);
  }
}
