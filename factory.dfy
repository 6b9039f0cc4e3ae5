/**
 * The command factory (src/core/commands/command-factory.ts): a table from
 * command names to command classes, filled by `registerCommand`, from which
 * `createCommand` builds a fresh command and `executeCommand` runs it.
 */
module Factory {
  import opened Wrappers
  import opened Errors
  import opened Host
  import opened CommandTypes
  import opened WorkerCommands
  import opened Configuration
  import opened Commands

  /** The error `createCommand` throws for a name nobody registered. */
  function NotRegistered(name: string): Failure {
    PlainError("Error", "Command '" + name + "' is not registered")
  }

  /**
   * `executeCommand(name, command, args, flags)` from session `s`: the error
   * `createCommand` throws when `name` is not in `table`, otherwise
   * `executeWithErrorHandling` of a fresh command of the registered class,
   * with `{}` for missing arguments and flags. The fresh command tracks no
   * temp files and no backups, and its environment service has no root.
   */
  function Dispatched(table: map<string, CommandClass>, name: string, world: World, s: Session,
                      args: Option<WorkerArgs>, flags: Option<WorkerFlags>): (r: (Session, Result<Unit, Failure>))
    reads world
    requires s.tempFiles == [] && s.backups == []
    ensures name !in table ==> r == (s, Err(NotRegistered(name)))
    ensures name in table ==> r.1.Ok? || (r.1.error.ExitError? && r.1.error.exitCode == 1)
    ensures name in table && !table[name].WhoamiCommand? ==> r.0.tempFiles == []
  {
    if name !in table then (s, Err(NotRegistered(name)))
    else
      var (_, s', r) := Handled(table[name], SurroundingsOf(world, ""), s, InitialConfig,
                                args.GetOr(NoArgs), flags.GetOr(NoFlags));
      (s', r)
  }

  /** The factory's static state. */
  class CommandFactory {
    /** `commandRegistry`: the class registered under each name. */
    var table: map<string, CommandClass>
    /** The name of the temp environment file every command's environment service uses. */
    const tempEnvFileName: string

    constructor (tempEnvFileName: string)
      ensures table == map[] && this.tempEnvFileName == tempEnvFileName
    {
      table := map[];
      this.tempEnvFileName := tempEnvFileName;
    }

    /** `registerCommand(name, commandClass)`: a later registration of a name replaces the earlier one. */
    method RegisterCommand(name: string, commandClass: CommandClass)
      modifies this
      ensures table == old(table)[name := commandClass]
    {
      table := table[name := commandClass];
    }

    /** `createCommand(name, command)`. */
    method CreateCommand(name: string) returns (r: Result<Command, Failure>)
      ensures r.Ok? <==> name in table
      ensures r.Err? ==> r.error == NotRegistered(name)
      ensures r.Ok? ==> && r.value.kind == table[name] && fresh(r.value)
                        && fresh(r.value.files) && fresh(r.value.config) && fresh(r.value.environment)
                        && r.value.Initial()
    {
      if name !in table {
        return Err(NotRegistered(name));
      }
      var command := new Command(table[name], tempEnvFileName);
      return Ok(command);
    }

    /** `executeCommand(name, command, args, flags)`. */
    method ExecuteCommand(world: World, name: string, args: Option<WorkerArgs>, flags: Option<WorkerFlags>)
      returns (r: Result<Unit, Failure>)
      modifies world
      ensures table == old(table)
      ensures var (s', r') := Dispatched(table, name, world, Session(old(world.fs), old(world.events), [], []),
                                         args, flags);
              world.fs == s'.fs && world.events == s'.events && r == r'
    {
      var created := CreateCommand(name);
      if created.Err? {
        return Err(created.error);
      }
      var command := created.value;
      r := command.ExecuteWithErrorHandling(world, args.GetOr(NoArgs), flags.GetOr(NoFlags));
    }
  }
}
