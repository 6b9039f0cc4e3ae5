/**
 * The command registry (src/core/commands/registry.ts): one registry per
 * process, holding the list of registrations it forwards to the command
 * factory the first time it is initialised.
 */
module Registry {
  import opened Wrappers
  import opened Errors
  import opened Host
  import opened CommandTypes
  import opened WorkerCommands
  import opened Commands
  import opened Factory

  /** `CommandRegistration`: a command name and the class it builds. */
  datatype Registration = Registration(name: string, commandClass: CommandClass)

  /** The registrations the registry's constructor makes, in order. */
  const BuiltIns: seq<Registration> := [
    Registration("whoami", WhoamiCommand),
    Registration("worker", WranglerCommand),
    Registration("worker:create", WorkerCreateCommand)
  ]

  /** The names `regs` registers. */
  function Names(regs: seq<Registration>): (r: set<string>)
    ensures forall i | 0 <= i < |regs| :: regs[i].name in r
    ensures forall n | n in r :: exists i | 0 <= i < |regs| :: regs[i].name == n
    decreases |regs|
  {
    if regs == [] then {} else Names(regs[..|regs| - 1]) + {regs[|regs| - 1].name}
  }

  /** The factory's table after `registerCommand` is called on each of `regs` in order. */
  function RegisterAll(table: map<string, CommandClass>, regs: seq<Registration>): (r: map<string, CommandClass>)
    ensures r.Keys == table.Keys + Names(regs)
    decreases |regs|
  {
    if regs == [] then table
    else
      var last := regs[|regs| - 1];
      RegisterAll(table, regs[..|regs| - 1])[last.name := last.commandClass]
  }

  /** Registering one more entry of a list updates the table built from the entries before it. */
  lemma RegisterNext(table: map<string, CommandClass>, regs: seq<Registration>, i: nat)
    requires i < |regs|
    ensures RegisterAll(table, regs[..i + 1]) == RegisterAll(table, regs[..i])[regs[i].name := regs[i].commandClass]
  {
    assert regs[..i + 1][..i] == regs[..i];
  }

  /** The last registration of a name decides the class it builds. */
  lemma {:induction false} LastRegistrationWins(table: map<string, CommandClass>, regs: seq<Registration>, i: nat)
    requires i < |regs|
    requires forall j | i < j < |regs| :: regs[j].name != regs[i].name
    ensures RegisterAll(table, regs)[regs[i].name] == regs[i].commandClass
    decreases |regs|
  {
    if i < |regs| - 1 {
      var init := regs[..|regs| - 1];
      assert init[i] == regs[i];
      LastRegistrationWins(table, init, i);
    }
  }

  /** A name nobody registers keeps the class it had. */
  lemma {:induction false} UnregisteredNameKept(table: map<string, CommandClass>, regs: seq<Registration>, name: string)
    requires name in table
    requires forall j | 0 <= j < |regs| :: regs[j].name != name
    ensures RegisterAll(table, regs)[name] == table[name]
    decreases |regs|
  {
    if regs != [] {
      UnregisteredNameKept(table, regs[..|regs| - 1], name);
    }
  }

  /**
   * Forwarding the same registrations a second time changes nothing, so an
   * `initialize` that did run twice would leave the factory as one run does.
   */
  lemma RegisterAllTwice(table: map<string, CommandClass>, regs: seq<Registration>)
    ensures RegisterAll(RegisterAll(table, regs), regs) == RegisterAll(table, regs)
  {
    var once := RegisterAll(table, regs);
    var twice := RegisterAll(once, regs);
    forall n | n in twice.Keys
      ensures twice[n] == once[n]
    {
      if n in Names(regs) {
        var i := LastIndex(regs, n);
        LastRegistrationWins(table, regs, i);
        LastRegistrationWins(once, regs, i);
      } else {
        UnregisteredNameKept(once, regs, n);
      }
    }
  }

  /** The position of the last registration of `n`. */
  lemma LastIndex(regs: seq<Registration>, n: string) returns (i: nat)
    requires n in Names(regs)
    ensures i < |regs| && regs[i].name == n
    ensures forall j | i < j < |regs| :: regs[j].name != n
  {
    var k :| 0 <= k < |regs| && regs[k].name == n;
    i := k;
    while i + 1 < |regs| && exists j | i < j < |regs| :: regs[j].name == n
      invariant k <= i < |regs| && regs[i].name == n
      decreases |regs| - i
    {
      var j :| i < j < |regs| && regs[j].name == n;
      i := j;
    }
  }

  /** An initialised registry of built-ins on an empty factory knows exactly the three built-in commands. */
  lemma BuiltInTable()
    ensures RegisterAll(map[], BuiltIns) ==
            map["whoami" := WhoamiCommand, "worker" := WranglerCommand, "worker:create" := WorkerCreateCommand]
  {
    assert BuiltIns[..2][..1] == [Registration("whoami", WhoamiCommand)];
    assert BuiltIns[..2] == [Registration("whoami", WhoamiCommand), Registration("worker", WranglerCommand)];
  }

  /** `CommandRegistry`. */
  class CommandRegistry {
    /** `_initialized`. */
    var initialized: bool
    /** `_commandRegistrations`, in registration order. */
    var registrations: seq<Registration>

    /** The constructor registers the built-in commands. */
    constructor ()
      ensures !initialized && registrations == BuiltIns
    {
      initialized := false;
      registrations := [];
      new;
      RegisterBuiltInCommands();
    }

    /** `registerCommand(name, commandClass)`: appends, even when the name is already listed. */
    method RegisterCommand(name: string, commandClass: CommandClass)
      modifies this
      ensures initialized == old(initialized)
      ensures registrations == old(registrations) + [Registration(name, commandClass)]
    {
      registrations := registrations + [Registration(name, commandClass)];
    }

    /** `registerBuiltInCommands()`. */
    method RegisterBuiltInCommands()
      modifies this
      ensures initialized == old(initialized)
      ensures registrations == old(registrations) + BuiltIns
    {
      RegisterCommand("whoami", WhoamiCommand);
      RegisterCommand("worker", WranglerCommand);
      RegisterCommand("worker:create", WorkerCreateCommand);
    }

    /**
     * `initialize()`: the first call forwards every registration to the
     * factory, in list order; later calls do nothing.
     */
    method Initialize(factory: CommandFactory)
      modifies this, factory
      ensures initialized && registrations == old(registrations)
      ensures factory.table == if old(initialized) then old(factory.table)
                               else RegisterAll(old(factory.table), registrations)
    {
      if initialized {
        return;
      }
      var i := 0;
      while i < |registrations|
        invariant 0 <= i <= |registrations|
        invariant registrations == old(registrations) && !initialized
        invariant factory.table == RegisterAll(old(factory.table), registrations[..i])
      {
        RegisterNext(old(factory.table), registrations, i);
        factory.RegisterCommand(registrations[i].name, registrations[i].commandClass);
        i := i + 1;
      }
      assert registrations[..i] == registrations;
      initialized := true;
    }

    /** `getCommands()`: a new array, so changing it leaves the registry as it was. */
    method GetCommands() returns (r: array<Registration>)
      ensures fresh(r) && r[..] == registrations
    {
      r := new Registration[|registrations|](i requires 0 <= i < |registrations| reads this => registrations[i]);
    }
  }

  /** The process's static state: `CommandRegistry._instance` and the factory's table. */
  class Statics {
    var instance: CommandRegistry?
    const factory: CommandFactory

    constructor (tempEnvFileName: string)
      ensures instance == null && fresh(factory)
      ensures factory.table == map[] && factory.tempEnvFileName == tempEnvFileName
    {
      instance := null;
      factory := new CommandFactory(tempEnvFileName);
    }

    /** `CommandRegistry.getInstance()`: the one registry, built on the first call. */
    method GetInstance() returns (r: CommandRegistry)
      modifies this
      ensures instance == r
      ensures old(instance) != null ==> r == old(instance)
      ensures old(instance) == null ==> fresh(r) && !r.initialized && r.registrations == BuiltIns
    {
      if instance == null {
        instance := new CommandRegistry();
      }
      r := instance;
    }

    /** `CommandRegistry.executeCommand(name, command, args, flags)`: initialise, then run through the factory. */
    method ExecuteCommand(world: World, name: string, args: Option<WorkerArgs>, flags: Option<WorkerFlags>)
      returns (r: Result<Unit, Failure>)
      modifies this, instance, factory, world
      ensures instance != null && instance.initialized
      ensures old(instance) != null ==> instance == old(instance) && instance.registrations == old(instance.registrations)
      ensures old(instance) == null ==> fresh(instance) && instance.registrations == BuiltIns
      ensures factory.table == if old(instance) != null && old(instance.initialized) then old(factory.table)
                               else RegisterAll(old(factory.table), instance.registrations)
      ensures var (s', r') := Dispatched(factory.table, name, world,
                                         Session(old(world.fs), old(world.events), [], []), args, flags);
              world.fs == s'.fs && world.events == s'.events && r == r'
    {
      var registry := GetInstance();
      registry.Initialize(factory);
      r := factory.ExecuteCommand(world, name, args, flags);
    }
  }

  /**
   * In a fresh process, a command name other than the three built-ins is
   * refused with the factory's error and nothing else happens.
   */
  lemma UnknownCommandRefused(world: World, name: string, s: Session, args: Option<WorkerArgs>,
                              flags: Option<WorkerFlags>)
    requires name != "whoami" && name != "worker" && name != "worker:create"
    requires s.tempFiles == [] && s.backups == []
    ensures Dispatched(RegisterAll(map[], BuiltIns), name, world, s, args, flags) == (s, Err(NotRegistered(name)))
  {
    BuiltInTable();
  }
}
