/** Service-binding resolution (src/services/service-binding-service.ts). */
module Bindings {
  import opened Wrappers
  import opened Names
  import opened Errors
  import opened Host
  import opened CommandTypes
  import opened Files
  import FilesFacts

  /** The options of `createServiceBindings`; "" and [] stand for absent. */
  datatype BindingOptions = BindingOptions(
    configPath: string,
    rootDir: string,
    workersDirName: string,
    baseConfigPath: string,
    variables: Variables,
    env: string)

  /** A resolved binding: the binding name, the dependency's composed name, its temp config. */
  datatype ResolvedBinding = ResolvedBinding(binding: string, service: Option<string>, path: string)

  /** A binding as `handleServiceBinding` returns it. */
  datatype NamedBinding = NamedBinding(binding: string, service: Option<string>)

  /** The bindings a raw config declares for `env`, or at top level when env is "". */
  function DeclaredBindings(raw: RawConfig, env: string): seq<ServiceBinding> {
    if env != "" then
      if env in raw.env && raw.env[env].services.Some? then raw.env[env].services.value else []
    else raw.services.GetOr([])
  }

  /** `getServiceBindings`. */
  function GetServiceBindings(fs: FileSystem, w: Wrangler, configPath: string, env: string)
    : (r: Result<seq<ServiceBinding>, Failure>)
    ensures r.Ok? <==> ReadRawConfigAt(fs, w, configPath).Ok?
    ensures r.Ok? ==> r.value == DeclaredBindings(ReadRawConfigAt(fs, w, configPath).value, env)
    ensures r.Err? ==> r.error.WorkerCommandError?
  {
    match ReadRawConfigAt(fs, w, configPath)
    case Err(m) => Err(WorkerCommandError("Failed to get service bindings: " + m))
    case Ok(raw) => Ok(DeclaredBindings(raw, env))
  }

  /** `validateService`: the dependency's directory and its `wrangler.jsonc` exist. */
  function ValidateService(fs: FileSystem, serviceName: string, servicePath: string): (r: Result<Unit, Failure>)
    ensures r.Ok? <==> fs.Exists(servicePath) && fs.Exists(Join(servicePath, WRANGLER_FILE))
    ensures r.Err? ==> r.error.ServiceBindingError?
  {
    if !fs.Exists(servicePath) then
      Err(ServiceBindingError("Service " + serviceName + " not found at " + servicePath))
    else if !fs.Exists(Join(servicePath, WRANGLER_FILE)) then
      Err(ServiceBindingError("Service " + serviceName + " config not found at " + Join(servicePath, WRANGLER_FILE)))
    else Ok(Unit)
  }

  /** Where a dependency named `service` lives. */
  function ServicePath(o: BindingOptions, service: string): string {
    Join(Join(o.rootDir, o.workersDirName), service)
  }

  /** The composition of a dependency: its own config, the caller's base and variables. */
  function DependencyOptions(o: BindingOptions, service: string): ComposeOptions {
    ComposeOptions(service, Join(ServicePath(o, service), WRANGLER_FILE), ServicePath(o, service),
                   o.baseConfigPath, o.variables)
  }

  /** The error wrangler's own code throws, as the catch sees it. */
  function Thrown(m: string): Failure {
    PlainError("Error", m)
  }

  /** `throwWorkerCommandError` in the catch of `createServiceBindings`. */
  function WrapCreate(f: Failure): Failure {
    WorkerCommandError("Failed to create service bindings: " + f.message)
  }

  /** The error a call raises when the JavaScript stack is exhausted. */
  const StackOverflow := PlainError("RangeError", "Maximum call stack size exceeded")

  /** The two temp files composing the dependency of `b` adds. */
  function TempPaths(o: BindingOptions, b: ServiceBinding): seq<string> {
    [TempConfigPath(ServicePath(o, b.service)), TempBasePath(ServicePath(o, b.service))]
  }

  /** The temp files composing the dependencies of `bs` add, in order. */
  function TempPathsOf(o: BindingOptions, bs: seq<ServiceBinding>): seq<string> {
    if bs == [] then [] else TempPaths(o, bs[0]) + TempPathsOf(o, bs[1..])
  }

  /** `e` is the entry of binding `b`: same binding name, the dependency's temp config as path. */
  predicate EntryFor(o: BindingOptions, b: ServiceBinding, e: ResolvedBinding) {
    e.binding == b.binding && e.path == TempConfigPath(ServicePath(o, b.service))
  }

  /** `r` is `acc` followed by the entries of the bindings of `bs` from `i` on, one each. */
  predicate OneEntryEach(o: BindingOptions, bs: seq<ServiceBinding>, i: nat, acc: seq<ResolvedBinding>,
                         r: seq<ResolvedBinding>)
    requires i <= |bs|
  {
    && |r| == |acc| + |bs| - i
    && r[..|acc|] == acc
    && forall j | i <= j < |bs| :: EntryFor(o, bs[j], r[|acc| + j - i])
  }

  /** Moving binding `i`'s entry from the collected prefix back to the bindings still to come. */
  lemma OneEntryEachExtend(o: BindingOptions, bs: seq<ServiceBinding>, i: nat, acc: seq<ResolvedBinding>,
                           e: ResolvedBinding, r: seq<ResolvedBinding>)
    requires i < |bs| && EntryFor(o, bs[i], e)
    requires OneEntryEach(o, bs, i + 1, acc + [e], r)
    ensures OneEntryEach(o, bs, i, acc, r)
  {
    assert r[..|acc|] == (r[..|acc| + 1])[..|acc|];
  }

  /** The temp paths of the bindings from `i` on are those of binding `i`, then the rest. */
  lemma TempPathsOfSuffix(o: BindingOptions, bs: seq<ServiceBinding>, i: nat)
    requires i < |bs|
    ensures TempPathsOf(o, bs[i..]) == TempPaths(o, bs[i]) + TempPathsOf(o, bs[i + 1..])
  {
    assert bs[i..][1..] == bs[i + 1..];
  }

  /** What a non-recursive turn for binding `i` and the rest of the loop after it make of the whole loop. */
  lemma NonRecursiveExtend(o: BindingOptions, bs: seq<ServiceBinding>, i: nat, acc: seq<ResolvedBinding>,
                           tempFiles: seq<string>, step: seq<ResolvedBinding>, tempFiles': seq<string>,
                           rest: seq<ResolvedBinding>, tempFiles'': seq<string>)
    requires i < |bs| && |step| == 1 && EntryFor(o, bs[i], step[0])
    requires tempFiles' == tempFiles + TempPaths(o, bs[i])
    requires OneEntryEach(o, bs, i + 1, acc + step, rest) && tempFiles'' == tempFiles' + TempPathsOf(o, bs[i + 1..])
    ensures OneEntryEach(o, bs, i, acc, rest) && tempFiles'' == tempFiles + TempPathsOf(o, bs[i..])
  {
    assert step == [step[0]];
    OneEntryEachExtend(o, bs, i, acc, step[0], rest);
    TempPathsOfSuffix(o, bs, i);
  }

  /** Composing the dependency of `b` on `fs` succeeds, and the composed config declares `name`. */
  predicate ComposedName(fs: FileSystem, w: Wrangler, o: BindingOptions, b: ServiceBinding, name: Option<string>) {
    var (fs1, composed) := Compose(fs, w, DependencyOptions(o, b.service));
    && composed == Ok(TempConfigPath(ServicePath(o, b.service)))
    && ReadRawConfigAt(fs1, w, composed.value).Ok?
    && ReadRawConfigAt(fs1, w, composed.value).value.name == name
  }

  /**
   * One turn of the loop before recursion: validate, compose, read the
   * composed name, patch the parent config. Returns the disk, the temp-file
   * list and the binding's own entry, whose service is the name the
   * composed dependency declares; a successful turn tracks the dependency's
   * two temp files.
   */
  function BindOne(fs: FileSystem, w: Wrangler, tempFiles: seq<string>, o: BindingOptions, b: ServiceBinding)
    : (r: (FileSystem, seq<string>, Result<ResolvedBinding, Failure>))
    ensures r.2.Ok? ==> EntryFor(o, b, r.2.value) && r.1 == tempFiles + TempPaths(o, b)
    ensures r.2.Ok? ==> ComposedName(fs, w, o, b, r.2.value.service)
  {
    var servicePath := ServicePath(o, b.service);
    match ValidateService(fs, b.service, servicePath)
    case Err(f) => (fs, tempFiles, Err(f))
    case Ok(_) =>
      var dep := DependencyOptions(o, b.service);
      FilesFacts.ComposeOutcome(fs, w, dep);
      var (fs1, composed) := Compose(fs, w, dep);
      var tempFiles1 := tempFiles + if composed.Ok? then [TempConfigPath(servicePath), TempBasePath(servicePath)] else [];
      match composed
      case Err(f) => (fs1, tempFiles1, Err(f))
      case Ok(tempPath) =>
        match ReadRawConfigAt(fs1, w, tempPath)
        case Err(m) => (fs1, tempFiles1, Err(Thrown(m)))
        case Ok(raw) =>
          match PatchConfigAt(fs1, w, o.configPath, BindService(o.env, b.binding, raw.name), false)
          case Err(m) => (fs1, tempFiles1, Err(Thrown(m)))
          case Ok((_, fs2)) => (fs2, tempFiles1, Ok(ResolvedBinding(b.binding, raw.name, tempPath)))
  }

  /**
   * `createServiceBindings(o, recursive)` with `fuel` frames of stack left:
   * the disk, the temp-file list and the resolved bindings. Without
   * recursion there is one entry per declared binding, in declaration order,
   * and the two temp files of each dependency are tracked in the same order.
   */
  function Resolve(fuel: nat, fs: FileSystem, w: Wrangler, tempFiles: seq<string>, o: BindingOptions, recursive: bool)
    : (r: (FileSystem, seq<string>, Result<seq<ResolvedBinding>, Failure>))
    ensures r.2.Ok? ==> fuel > 0 && GetServiceBindings(fs, w, o.configPath, o.env).Ok?
    ensures r.2.Ok? && !recursive ==>
      var bs := GetServiceBindings(fs, w, o.configPath, o.env).value;
      OneEntryEach(o, bs, 0, [], r.2.value) && r.1 == tempFiles + TempPathsOf(o, bs)
    decreases fuel, 2, 0
  {
    if fuel == 0 then (fs, tempFiles, Err(StackOverflow))
    else match GetServiceBindings(fs, w, o.configPath, o.env)
      case Err(f) => (fs, tempFiles, Err(WrapCreate(f)))
      case Ok(bs) =>
        if bs == [] then (fs, tempFiles, Ok([]))
        else
          var (fs', tempFiles', r) := ResolveEach(fuel, fs, w, tempFiles, o, recursive, bs, 0, []);
          assert bs[0..] == bs;
          (fs', tempFiles', if r.Ok? then r else Err(WrapCreate(r.error)))
  }

  /** The loop of `createServiceBindings` from binding `i` on, with `acc` collected so far. */
  function ResolveEach(fuel: nat, fs: FileSystem, w: Wrangler, tempFiles: seq<string>, o: BindingOptions,
                       recursive: bool, bs: seq<ServiceBinding>, i: nat, acc: seq<ResolvedBinding>)
    : (r: (FileSystem, seq<string>, Result<seq<ResolvedBinding>, Failure>))
    requires fuel > 0 && i <= |bs|
    ensures r.2.Ok? && !recursive ==>
      OneEntryEach(o, bs, i, acc, r.2.value) && r.1 == tempFiles + TempPathsOf(o, bs[i..])
    decreases fuel, 1, |bs| - i
  {
    if i == |bs| then
      assert bs[i..] == [];
      (fs, tempFiles, Ok(acc))
    else
      var (fs', tempFiles', r) := BindAndRecurse(fuel, fs, w, tempFiles, o, recursive, bs[i]);
      if r.Err? then (fs', tempFiles', r)
      else
        var rest := ResolveEach(fuel, fs', w, tempFiles', o, recursive, bs, i + 1, acc + r.value);
        if !recursive && rest.2.Ok? then
          NonRecursiveExtend(o, bs, i, acc, tempFiles, r.value, tempFiles', rest.2.value, rest.1);
          rest
        else rest
  }

  /**
   * `block` is what the turn for `b` yields on `fs`: `b`'s own entry, which
   * names what the composed dependency declares, preceded, with recursion,
   * by the entries of the dependency's own bindings, resolved with one
   * frame less on the disk and temp-file list the own step left.
   */
  predicate TurnYields(fuel: nat, fs: FileSystem, w: Wrangler, tempFiles: seq<string>, o: BindingOptions,
                       recursive: bool, b: ServiceBinding, block: seq<ResolvedBinding>)
    requires fuel > 0
    decreases fuel, 0, 0
  {
    && block != []
    && var own := BindOne(fs, w, tempFiles, o, b);
    && own.2 == Ok(block[|block| - 1])
    && EntryFor(o, b, block[|block| - 1])
    && ComposedName(fs, w, o, b, block[|block| - 1].service)
    && if recursive then
         Resolve(fuel - 1, own.0, w, own.1, o.(configPath := block[|block| - 1].path), true).2 == Ok(block[..|block| - 1])
       else |block| == 1
  }

  /**
   * One turn of the loop: the binding's own entry, preceded (when
   * recursive) by the entries of the dependency's own bindings. Without
   * recursion it is the binding's entry alone.
   */
  function BindAndRecurse(fuel: nat, fs: FileSystem, w: Wrangler, tempFiles: seq<string>, o: BindingOptions,
                          recursive: bool, b: ServiceBinding)
    : (r: (FileSystem, seq<string>, Result<seq<ResolvedBinding>, Failure>))
    requires fuel > 0
    ensures r.2.Ok? ==> TurnYields(fuel, fs, w, tempFiles, o, recursive, b, r.2.value)
    ensures r.2.Ok? && !recursive ==> r.1 == tempFiles + TempPaths(o, b)
    decreases fuel, 0, 1
  {
    var (fs1, tempFiles1, own) := BindOne(fs, w, tempFiles, o, b);
    if own.Err? then (fs1, tempFiles1, Err(own.error))
    else
      var (fs2, tempFiles2, nested) :=
        if recursive then Resolve(fuel - 1, fs1, w, tempFiles1, o.(configPath := own.value.path), true)
        else (fs1, tempFiles1, Ok([]));
      if nested.Err? then (fs2, tempFiles2, Err(nested.error))
      else
        var block := nested.value + [own.value];
        assert block[..|block| - 1] == nested.value;
        (fs2, tempFiles2, Ok(block))
  }

  /** Binding `i` runs one turn; unless it fails, the loop carries on with the next binding. */
  lemma ResolveEachUnroll(fuel: nat, fs: FileSystem, w: Wrangler, tempFiles: seq<string>, o: BindingOptions,
                          recursive: bool, bs: seq<ServiceBinding>, i: nat, acc: seq<ResolvedBinding>)
    requires fuel > 0 && i < |bs|
    ensures var s := BindAndRecurse(fuel, fs, w, tempFiles, o, recursive, bs[i]);
      ResolveEach(fuel, fs, w, tempFiles, o, recursive, bs, i, acc) ==
      if s.2.Err? then s else ResolveEach(fuel, s.0, w, s.1, o, recursive, bs, i + 1, acc + s.2.value)
  {
  }

  /** `String(x)` of a possibly missing name, as a template literal renders it. */
  function JsString(name: Option<string>): string {
    if name.Some? then name.value else "undefined"
  }

  /** The name `handleServiceBinding` gives a resolved dependency. */
  function EnvServiceName(service: Option<string>, env: string): Option<string> {
    SanitizeOptionalName(if env != "" then Some(JsString(service) + "-" + env) else service)
  }

  /** The bindings `handleServiceBinding` returns for `entries`, one each, in order. */
  function Named(entries: seq<ResolvedBinding>, env: string): (r: seq<NamedBinding>)
    ensures |r| == |entries|
    ensures forall i | 0 <= i < |r| ::
      r[i] == NamedBinding(entries[i].binding, EnvServiceName(entries[i].service, env))
  {
    if entries == [] then []
    else Named(entries[..|entries| - 1], env)
         + [NamedBinding(entries[|entries| - 1].binding, EnvServiceName(entries[|entries| - 1].service, env))]
  }

  /** `handleServiceBinding`: one non-recursive pass, then the per-environment names. */
  function Handle(fs: FileSystem, w: Wrangler, tempFiles: seq<string>, o: BindingOptions)
    : (FileSystem, seq<string>, Result<seq<NamedBinding>, Failure>)
  {
    match GetServiceBindings(fs, w, o.configPath, o.env)
    case Err(f) => (fs, tempFiles, Err(WorkerCommandError("Failed to handle service binding: " + f.message)))
    case Ok(bs) =>
      if bs == [] then (fs, tempFiles, Ok([]))
      else
        var (fs', tempFiles', r) := Resolve(1, fs, w, tempFiles, o, false);
        match r
        case Err(f) => (fs', tempFiles', Err(WorkerCommandError("Failed to handle service binding: " + f.message)))
        case Ok(entries) => (fs', tempFiles', Ok(Named(entries, o.env)))
  }

  /** One turn of the loop of `createServiceBindings`, up to the recursion. */
  method BindOneIn(world: World, files: FileService, o: BindingOptions, b: ServiceBinding)
    returns (r: Result<ResolvedBinding, Failure>)
    modifies world, files
    ensures world.events == old(world.events)
    ensures (world.fs, files.tempFiles, r) == BindOne(old(world.fs), world.wrangler, old(files.tempFiles), o, b)
  {
    var servicePath := ServicePath(o, b.service);
    var valid := ValidateService(world.fs, b.service, servicePath);
    if valid.Err? {
      return Err(valid.error);
    }
    var tempPath := files.CreateTempWranglerConfig(world, DependencyOptions(o, b.service));
    if tempPath.Err? {
      return Err(tempPath.error);
    }
    var raw := ReadRawConfigAt(world.fs, world.wrangler, tempPath.value);
    if raw.Err? {
      return Err(Thrown(raw.error));
    }
    var patched := files.PatchConfig(world, o.configPath, BindService(o.env, b.binding, raw.value.name), false);
    if patched.Err? {
      return Err(Thrown(patched.error));
    }
    return Ok(ResolvedBinding(b.binding, raw.value.name, tempPath.value));
  }

  /** `createServiceBindings`; `fuel` is the number of nested calls the stack allows. */
  method CreateServiceBindings(fuel: nat, world: World, files: FileService, o: BindingOptions, recursive: bool)
    returns (r: Result<seq<ResolvedBinding>, Failure>)
    modifies world, files
    ensures world.events == old(world.events)
    ensures (world.fs, files.tempFiles, r) == Resolve(fuel, old(world.fs), world.wrangler, old(files.tempFiles), o, recursive)
    decreases fuel, 2
  {
    if fuel == 0 {
      return Err(StackOverflow);
    }
    var serviceBindings := GetServiceBindings(world.fs, world.wrangler, o.configPath, o.env);
    if serviceBindings.Err? {
      return Err(WrapCreate(serviceBindings.error));
    }
    if serviceBindings.value == [] {
      return Ok([]);
    }
    r := ResolveAll(fuel, world, files, o, recursive, serviceBindings.value);
    if r.Err? {
      r := Err(WrapCreate(r.error));
    }
  }

  /** The loop of `createServiceBindings` over the declared bindings. */
  method ResolveAll(fuel: nat, world: World, files: FileService, o: BindingOptions, recursive: bool,
                    bs: seq<ServiceBinding>)
    returns (r: Result<seq<ResolvedBinding>, Failure>)
    requires fuel > 0
    modifies world, files
    ensures world.events == old(world.events)
    ensures (world.fs, files.tempFiles, r) ==
            ResolveEach(fuel, old(world.fs), world.wrangler, old(files.tempFiles), o, recursive, bs, 0, [])
    decreases fuel, 1
  {
    var serviceBindingPaths: seq<ResolvedBinding> := [];
    var i := 0;
    while i < |bs|
      invariant 0 <= i <= |bs|
      invariant world.events == old(world.events)
      invariant ResolveEach(fuel, world.fs, world.wrangler, files.tempFiles, o, recursive, bs, i, serviceBindingPaths)
             == ResolveEach(fuel, old(world.fs), world.wrangler, old(files.tempFiles), o, recursive, bs, 0, [])
    {
      ResolveEachUnroll(fuel, world.fs, world.wrangler, files.tempFiles, o, recursive, bs, i, serviceBindingPaths);
      var entries := BindAndRecurseIn(fuel, world, files, o, recursive, bs[i]);
      if entries.Err? {
        return entries;
      }
      serviceBindingPaths := serviceBindingPaths + entries.value;
      i := i + 1;
    }
    return Ok(serviceBindingPaths);
  }

  /** One turn of the loop of `createServiceBindings`. */
  method BindAndRecurseIn(fuel: nat, world: World, files: FileService, o: BindingOptions, recursive: bool,
                          b: ServiceBinding)
    returns (r: Result<seq<ResolvedBinding>, Failure>)
    requires fuel > 0
    modifies world, files
    ensures world.events == old(world.events)
    ensures (world.fs, files.tempFiles, r) ==
            BindAndRecurse(fuel, old(world.fs), world.wrangler, old(files.tempFiles), o, recursive, b)
    decreases fuel, 0
  {
    var own := BindOneIn(world, files, o, b);
    if own.Err? {
      return Err(own.error);
    }
    var nested: Result<seq<ResolvedBinding>, Failure> := Ok([]);
    if recursive {
      nested := CreateServiceBindings(fuel - 1, world, files, o.(configPath := own.value.path), true);
      if nested.Err? {
        return Err(nested.error);
      }
    }
    return Ok(nested.value + [own.value]);
  }

  /** `handleServiceBinding`. */
  method HandleServiceBinding(world: World, files: FileService, o: BindingOptions)
    returns (r: Result<seq<NamedBinding>, Failure>)
    modifies world, files
    ensures world.events == old(world.events)
    ensures (world.fs, files.tempFiles, r) == Handle(old(world.fs), world.wrangler, old(files.tempFiles), o)
  {
    var serviceBindings := GetServiceBindings(world.fs, world.wrangler, o.configPath, o.env);
    if serviceBindings.Err? {
      return Err(WorkerCommandError("Failed to handle service binding: " + serviceBindings.error.message));
    }
    if serviceBindings.value == [] {
      return Ok([]);
    }
    var withPaths := CreateServiceBindings(1, world, files, o, false);
    if withPaths.Err? {
      return Err(WorkerCommandError("Failed to handle service binding: " + withPaths.error.message));
    }
    var services := NameEntries(withPaths.value, o.env);
    return Ok(services);
  }

  /** The loop of `handleServiceBinding`: `-<env>` appended when env is given, then sanitised. */
  method NameEntries(entries: seq<ResolvedBinding>, env: string) returns (services: seq<NamedBinding>)
    ensures services == Named(entries, env)
  {
    services := [];
    var i := 0;
    while i < |entries|
      invariant 0 <= i <= |entries|
      invariant services == Named(entries[..i], env)
    {
      var serviceName := entries[i].service;
      var named := if env != "" then Some(JsString(serviceName) + "-" + env) else serviceName;
      services := services + [NamedBinding(entries[i].binding, SanitizeOptionalName(named))];
      assert entries[..i + 1][..i] == entries[..i];
      i := i + 1;
    }
    assert entries[..i] == entries;
  }
}
