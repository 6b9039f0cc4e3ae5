/** What service-binding resolution guarantees about its result. */
module BindingsFacts {
  import opened Wrappers
  import opened Strings
  import opened Names
  import opened Errors
  import opened Host
  import opened Bindings

  /** A configuration that declares no bindings is left alone and yields no entries. */
  lemma NoBindingsNoEffect(fuel: nat, fs: FileSystem, w: Wrangler, tempFiles: seq<string>, o: BindingOptions,
                           recursive: bool)
    requires fuel > 0
    requires GetServiceBindings(fs, w, o.configPath, o.env) == Ok([])
    ensures Resolve(fuel, fs, w, tempFiles, o, recursive) == (fs, tempFiles, Ok([]))
  {
  }

  /** Every failure of a call with stack to spare is re-raised as a `WorkerCommandError`. */
  lemma ResolveFailureWrapped(fuel: nat, fs: FileSystem, w: Wrangler, tempFiles: seq<string>, o: BindingOptions,
                              recursive: bool)
    requires fuel > 0
    requires Resolve(fuel, fs, w, tempFiles, o, recursive).2.Err?
    ensures var e := Resolve(fuel, fs, w, tempFiles, o, recursive).2.error;
      e.WorkerCommandError? && Contains(e.message, "Failed to create service bindings: ")
  {
    var e := Resolve(fuel, fs, w, tempFiles, o, recursive).2.error;
    assert OccursAt(e.message, "Failed to create service bindings: ", 0);
  }

  /** The loop stops once every binding is done. */
  lemma ResolveEachDone(fuel: nat, fs: FileSystem, w: Wrangler, tempFiles: seq<string>, o: BindingOptions,
                        recursive: bool, bs: seq<ServiceBinding>, i: nat, acc: seq<ResolvedBinding>)
    requires fuel > 0 && i == |bs|
    ensures ResolveEach(fuel, fs, w, tempFiles, o, recursive, bs, i, acc) == (fs, tempFiles, Ok(acc))
  {
  }

  /** The loop from binding `i` with `acc` collected succeeds with `r`. */
  predicate LoopYields(fuel: nat, fs: FileSystem, w: Wrangler, tempFiles: seq<string>, o: BindingOptions,
                       recursive: bool, bs: seq<ServiceBinding>, i: nat, acc: seq<ResolvedBinding>, r: seq<ResolvedBinding>)
    requires fuel > 0 && i <= |bs|
  {
    ResolveEach(fuel, fs, w, tempFiles, o, recursive, bs, i, acc).2 == Ok(r)
  }

  /** A successful call with declared bindings got its result from the loop over them. */
  lemma ResolveRunsLoop(fuel: nat, fs: FileSystem, w: Wrangler, tempFiles: seq<string>, o: BindingOptions,
                        recursive: bool, r: seq<ResolvedBinding>)
    requires Resolve(fuel, fs, w, tempFiles, o, recursive).2 == Ok(r)
    requires GetServiceBindings(fs, w, o.configPath, o.env).Ok?
    requires GetServiceBindings(fs, w, o.configPath, o.env).value != []
    ensures fuel > 0
    ensures LoopYields(fuel, fs, w, tempFiles, o, recursive, GetServiceBindings(fs, w, o.configPath, o.env).value, 0, [], r)
  {
  }

  /** The blocks one after another. */
  function Concat(blocks: seq<seq<ResolvedBinding>>): seq<ResolvedBinding> {
    if blocks == [] then [] else blocks[0] + Concat(blocks[1..])
  }

  lemma AppendAssoc(a: seq<ResolvedBinding>, b: seq<ResolvedBinding>, c: seq<ResolvedBinding>)
    ensures a + (b + c) == a + b + c
  {
  }

  /**
   * `blocks` are what the turns of the loop yield from binding `i` on, the
   * first running on `fs` and `tempFiles` and each later one on the disk
   * and temp-file list the turn before it left: one block per binding.
   */
  predicate TurnsYield(fuel: nat, fs: FileSystem, w: Wrangler, tempFiles: seq<string>, o: BindingOptions,
                       recursive: bool, bs: seq<ServiceBinding>, i: nat, blocks: seq<seq<ResolvedBinding>>)
    requires fuel > 0 && i <= |bs|
    decreases |bs| - i
  {
    if i == |bs| then blocks == []
    else
      var s := BindAndRecurse(fuel, fs, w, tempFiles, o, recursive, bs[i]);
      && blocks != []
      && s.2 == Ok(blocks[0])
      && TurnYields(fuel, fs, w, tempFiles, o, recursive, bs[i], blocks[0])
      && TurnsYield(fuel, s.0, w, s.1, o, recursive, bs, i + 1, blocks[1..])
  }

  /** The loop from binding `i` on yields `acc` followed by the blocks of its turns, in order. */
  lemma {:induction false} ResolveEachBlocks(fuel: nat, fs: FileSystem, w: Wrangler, tempFiles: seq<string>,
                                             o: BindingOptions, recursive: bool, bs: seq<ServiceBinding>, i: nat,
                                             acc: seq<ResolvedBinding>, r: seq<ResolvedBinding>)
    returns (blocks: seq<seq<ResolvedBinding>>)
    requires fuel > 0 && i <= |bs|
    requires LoopYields(fuel, fs, w, tempFiles, o, recursive, bs, i, acc, r)
    ensures r == acc + Concat(blocks)
    ensures TurnsYield(fuel, fs, w, tempFiles, o, recursive, bs, i, blocks)
    decreases |bs| - i
  {
    if i == |bs| {
      ResolveEachDone(fuel, fs, w, tempFiles, o, recursive, bs, i, acc);
      blocks := [];
    } else {
      var s := BindAndRecurse(fuel, fs, w, tempFiles, o, recursive, bs[i]);
      ResolveEachUnroll(fuel, fs, w, tempFiles, o, recursive, bs, i, acc);
      var rest := ResolveEachBlocks(fuel, s.0, w, s.1, o, recursive, bs, i + 1, acc + s.2.value, r);
      blocks := [s.2.value] + rest;
      assert blocks[0] == s.2.value && blocks[1..] == rest;
      AppendAssoc(acc, s.2.value, Concat(rest));
    }
  }

  /**
   * With recursion, the result is, declared binding after declared binding,
   * the block of that binding's turn: the entries the dependency's own
   * bindings resolve to, one frame less, then the binding's own entry,
   * whose service is the name the composed dependency declares.
   */
  lemma RecursiveBlocks(fuel: nat, fs: FileSystem, w: Wrangler, tempFiles: seq<string>, o: BindingOptions,
                        r: seq<ResolvedBinding>)
    returns (blocks: seq<seq<ResolvedBinding>>)
    requires Resolve(fuel, fs, w, tempFiles, o, true).2 == Ok(r)
    ensures fuel > 0 && GetServiceBindings(fs, w, o.configPath, o.env).Ok?
    ensures r == Concat(blocks)
    ensures TurnsYield(fuel, fs, w, tempFiles, o, true, GetServiceBindings(fs, w, o.configPath, o.env).value, 0, blocks)
  {
    var bs := GetServiceBindings(fs, w, o.configPath, o.env).value;
    if bs == [] {
      blocks := [];
    } else {
      ResolveRunsLoop(fuel, fs, w, tempFiles, o, true, r);
      blocks := ResolveEachBlocks(fuel, fs, w, tempFiles, o, true, bs, 0, [], r);
    }
  }

  /**
   * `handleServiceBinding` yields one binding per declared binding, in
   * order; with an environment each service name is `<name>-<env>`
   * sanitised, so it always matches `^[a-z0-9-]+$`.
   */
  lemma HandleNames(fs: FileSystem, w: Wrangler, tempFiles: seq<string>, o: BindingOptions)
    returns (blocks: seq<seq<ResolvedBinding>>)
    requires Handle(fs, w, tempFiles, o).2.Ok?
    ensures GetServiceBindings(fs, w, o.configPath, o.env).Ok?
    ensures var bs := GetServiceBindings(fs, w, o.configPath, o.env).value;
      var r := Handle(fs, w, tempFiles, o).2.value;
      && |r| == |bs|
      && (forall j | 0 <= j < |bs| :: r[j].binding == bs[j].binding)
      && (o.env != "" ==> forall j | 0 <= j < |r| :: r[j].service.Some? && MatchesNamePattern(r[j].service.value))
      && TurnsYield(1, fs, w, tempFiles, o, false, bs, 0, blocks)
      && |blocks| == |bs|
      && forall j | 0 <= j < |bs| :: |blocks[j]| == 1 && r[j].service == EnvServiceName(blocks[j][0].service, o.env)
  {
    var bs := GetServiceBindings(fs, w, o.configPath, o.env).value;
    if bs == [] {
      blocks := [];
    } else {
      var entries := Resolve(1, fs, w, tempFiles, o, false).2.value;
      NamedEntries(o, bs, entries);
      ResolveRunsLoop(1, fs, w, tempFiles, o, false, entries);
      blocks := ResolveEachBlocks(1, fs, w, tempFiles, o, false, bs, 0, [], entries);
      SingleBlocks(1, fs, w, tempFiles, o, bs, 0, blocks);
      ConcatSingles(blocks);
    }
  }

  /** Without recursion every turn yields exactly one entry. */
  lemma {:induction false} SingleBlocks(fuel: nat, fs: FileSystem, w: Wrangler, tempFiles: seq<string>,
                                        o: BindingOptions, bs: seq<ServiceBinding>, i: nat,
                                        blocks: seq<seq<ResolvedBinding>>)
    requires fuel > 0 && i <= |bs|
    requires TurnsYield(fuel, fs, w, tempFiles, o, false, bs, i, blocks)
    ensures |blocks| == |bs| - i
    ensures forall j | 0 <= j < |blocks| :: |blocks[j]| == 1
    decreases |bs| - i
  {
    if i < |bs| {
      var s := BindAndRecurse(fuel, fs, w, tempFiles, o, false, bs[i]);
      SingleBlocks(fuel, s.0, w, s.1, o, bs, i + 1, blocks[1..]);
      forall j | 0 <= j < |blocks| ensures |blocks[j]| == 1 {
        if j == 0 {
          TurnYieldsSingle(fuel, fs, w, tempFiles, o, bs[i], blocks[0]);
        } else {
          assert blocks[j] == blocks[1..][j - 1];
        }
      }
    }
  }

  lemma TurnYieldsSingle(fuel: nat, fs: FileSystem, w: Wrangler, tempFiles: seq<string>, o: BindingOptions,
                         b: ServiceBinding, block: seq<ResolvedBinding>)
    requires fuel > 0 && TurnYields(fuel, fs, w, tempFiles, o, false, b, block)
    ensures |block| == 1
  {
  }

  /** One-entry blocks put together are their entries in order. */
  lemma {:induction false} ConcatSingles(blocks: seq<seq<ResolvedBinding>>)
    requires forall j | 0 <= j < |blocks| :: |blocks[j]| == 1
    ensures |Concat(blocks)| == |blocks|
    ensures forall j | 0 <= j < |blocks| :: Concat(blocks)[j] == blocks[j][0]
  {
    if blocks != [] {
      ConcatSingles(blocks[1..]);
      forall j | 0 < j < |blocks| ensures Concat(blocks)[j] == blocks[j][0] {
        assert blocks[j] == blocks[1..][j - 1];
      }
    }
  }

  /** Naming resolved entries keeps one binding per declared binding and, with an environment, valid names. */
  lemma NamedEntries(o: BindingOptions, bs: seq<ServiceBinding>, entries: seq<ResolvedBinding>)
    requires OneEntryEach(o, bs, 0, [], entries)
    ensures var r := Named(entries, o.env);
      && |r| == |bs|
      && (forall j | 0 <= j < |bs| :: r[j].binding == bs[j].binding)
      && (o.env != "" ==> forall j | 0 <= j < |r| :: r[j].service.Some? && MatchesNamePattern(r[j].service.value))
  {
    var r := Named(entries, o.env);
    forall j | 0 <= j < |bs| ensures r[j].binding == bs[j].binding {
      assert EntryFor(o, bs[j], entries[0 + j - 0]);
    }
    if o.env != "" {
      forall j | 0 <= j < |r| ensures r[j].service.Some? && MatchesNamePattern(r[j].service.value) {
        SanitizedMatchesPattern(JsString(entries[j].service) + "-" + o.env);
      }
    }
  }

  /** `handleServiceBinding` tracks two temp files per declared binding, in declaration order. */
  lemma HandleTracksTempFiles(fs: FileSystem, w: Wrangler, tempFiles: seq<string>, o: BindingOptions)
    requires Handle(fs, w, tempFiles, o).2.Ok?
    ensures GetServiceBindings(fs, w, o.configPath, o.env).Ok?
    ensures Handle(fs, w, tempFiles, o).1 ==
      tempFiles + TempPathsOf(o, GetServiceBindings(fs, w, o.configPath, o.env).value)
  {
    var bs := GetServiceBindings(fs, w, o.configPath, o.env).value;
    if bs == [] {
      assert TempPathsOf(o, bs) == [];
    }
  }
}
