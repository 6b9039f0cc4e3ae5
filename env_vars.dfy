/**
 * Environment-variable records as the environment service handles them:
 * JavaScript objects whose keys keep insertion order, built by folding
 * `dotenv.parse`'s assignments, merged by object spread and serialised as
 * `key=value` lines.
 */
module EnvVars {
  import opened Wrappers
  import opened Strings

  /** An object of string values, as its entries in insertion order. */
  type Record = seq<(string, string)>

  function Keys(r: Record): seq<string> {
    if r == [] then [] else [r[0].0] + Keys(r[1..])
  }

  predicate DistinctKeys(r: Record) {
    forall i, j | 0 <= i < j < |r| :: r[i].0 != r[j].0
  }

  /** `obj[k]`, or None when `k` is not a key. */
  function Lookup(r: Record, k: string): Option<string> {
    if r == [] then None else if r[0].0 == k then Some(r[0].1) else Lookup(r[1..], k)
  }

  /** `obj[k] = v`: an existing key keeps its place, a new key goes last. */
  function Put(r: Record, k: string, v: string): (r': Record)
    ensures Lookup(r', k) == Some(v)
    ensures forall k' | k' != k :: Lookup(r', k') == Lookup(r, k')
    ensures Keys(r') == if k in Keys(r) then Keys(r) else Keys(r) + [k]
    ensures DistinctKeys(r) ==> DistinctKeys(r')
  {
    if r == [] then [(k, v)]
    else if r[0].0 == k then [(k, v)] + r[1..]
    else
      var rest := Put(r[1..], k, v);
      assert DistinctKeys(r) ==> DistinctKeys([r[0]] + rest) by {
        if DistinctKeys(r) {
          TailDistinct(r);
          KeysDistinct(r[1..], r[0].0);
          NotInKeys(rest, r[0].0);
        }
      }
      [r[0]] + rest
  }

  lemma TailDistinct(r: Record)
    requires r != [] && DistinctKeys(r)
    ensures DistinctKeys(r[1..])
  {
    forall i, j | 0 <= i < j < |r[1..]| ensures r[1..][i].0 != r[1..][j].0 {
      assert r[1..][i] == r[i + 1] && r[1..][j] == r[j + 1];
    }
  }

  lemma {:induction false} KeysDistinct(r: Record, k: string)
    requires forall i | 0 <= i < |r| :: r[i].0 != k
    ensures k !in Keys(r)
    decreases |r|
  {
    if r != [] {
      KeysDistinct(r[1..], k);
    }
  }

  lemma {:induction false} NotInKeys(r: Record, k: string)
    requires k !in Keys(r)
    ensures forall i | 0 <= i < |r| :: r[i].0 != k
    decreases |r|
  {
    if r != [] {
      NotInKeys(r[1..], k);
      forall i | 0 < i < |r| ensures r[i].0 != k {
        assert r[i] == r[1..][i - 1];
      }
    }
  }

  /** The value the last assignment to `k` gives, if any. */
  function LastValue(assignments: seq<(string, string)>, k: string): Option<string> {
    if assignments == [] then None
    else
      var later := LastValue(assignments[1..], k);
      if later.Some? then later
      else if assignments[0].0 == k then Some(assignments[0].1)
      else None
  }

  /** Assign each entry in turn, as `Object.assign` and a spread do. */
  function Assign(r: Record, assignments: seq<(string, string)>): (r': Record)
    ensures DistinctKeys(r) ==> DistinctKeys(r')
    decreases |assignments|
  {
    if assignments == [] then r
    else Assign(Put(r, assignments[0].0, assignments[0].1), assignments[1..])
  }

  /** `{...root, ...worker}`. */
  function Spread(root: Record, worker: Record): Record {
    Assign(root, worker)
  }

  /** `dotenv.parse(content)` as an object: its assignments folded in order. */
  function ParseEnv(dotenvParse: string -> seq<(string, string)>, content: string): Record {
    Assign([], dotenvParse(content))
  }

  function Line(entry: (string, string)): string {
    entry.0 + "=" + entry.1
  }

  function Lines(r: Record): (ls: seq<string>)
    ensures |ls| == |r|
    ensures forall i | 0 <= i < |r| :: ls[i] == Line(r[i])
  {
    if r == [] then [] else [Line(r[0])] + Lines(r[1..])
  }

  /** `Object.entries(vars).map(([k, v]) => `${k}=${v}`).join('\n')`. */
  function Serialize(r: Record): string {
    JoinWith(Lines(r), "\n")
  }

  /** After folding assignments, a key holds its last assigned value, or else its old one. */
  lemma {:induction false} AssignLookup(r: Record, assignments: seq<(string, string)>, k: string)
    ensures Lookup(Assign(r, assignments), k) ==
            if LastValue(assignments, k).Some? then LastValue(assignments, k) else Lookup(r, k)
    decreases |assignments|
  {
    if assignments != [] {
      AssignLookup(Put(r, assignments[0].0, assignments[0].1), assignments[1..], k);
    }
  }

  /** Folding assignments keeps the keys already there at their places, then adds new ones. */
  lemma {:induction false} AssignKeysPrefix(r: Record, assignments: seq<(string, string)>)
    ensures Keys(r) <= Keys(Assign(r, assignments))
    decreases |assignments|
  {
    if assignments != [] {
      var r1 := Put(r, assignments[0].0, assignments[0].1);
      AssignKeysPrefix(r1, assignments[1..]);
    }
  }

  /** A parsed file never repeats a key, and each key holds its last assignment. */
  lemma ParseEnvLookup(dotenvParse: string -> seq<(string, string)>, content: string, k: string)
    ensures DistinctKeys(ParseEnv(dotenvParse, content))
    ensures Lookup(ParseEnv(dotenvParse, content), k) == LastValue(dotenvParse(content), k)
  {
    AssignLookup([], dotenvParse(content), k);
  }

  /** In a record with distinct keys, the last assignment to `k` is its only one. */
  lemma {:induction false} LastValueOfDistinct(r: Record, k: string)
    requires DistinctKeys(r)
    ensures LastValue(r, k) == Lookup(r, k)
    decreases |r|
  {
    if r != [] {
      TailDistinct(r);
      LastValueOfDistinct(r[1..], k);
      if r[0].0 == k {
        forall i | 0 <= i < |r[1..]| ensures r[1..][i].0 != k {
          assert r[1..][i] == r[i + 1];
        }
        KeysDistinct(r[1..], k);
        LookupInKeys(r[1..], k);
      }
    }
  }

  lemma {:induction false} LookupInKeys(r: Record, k: string)
    ensures Lookup(r, k).Some? <==> k in Keys(r)
    decreases |r|
  {
    if r != [] {
      LookupInKeys(r[1..], k);
    }
  }

  /**
   * `{...root, ...worker}`: a worker key overrides the root key of the same
   * name, every other root key keeps its value, the root keys keep their
   * order and no key repeats.
   */
  lemma SpreadWorkerWins(root: Record, worker: Record, k: string)
    requires DistinctKeys(root) && DistinctKeys(worker)
    ensures DistinctKeys(Spread(root, worker))
    ensures Lookup(Spread(root, worker), k) ==
            if Lookup(worker, k).Some? then Lookup(worker, k) else Lookup(root, k)
    ensures Keys(root) <= Keys(Spread(root, worker))
  {
    AssignLookup(root, worker, k);
    LastValueOfDistinct(worker, k);
    AssignKeysPrefix(root, worker);
  }

  /** Serialising writes one `key=value` line per entry, with no trailing newline. */
  lemma SerializeShape(r: Record)
    ensures r == [] ==> Serialize(r) == ""
    ensures |r| == 1 ==> Serialize(r) == r[0].0 + "=" + r[0].1
    ensures |r| > 1 ==> Serialize(r) == r[0].0 + "=" + r[0].1 + "\n" + Serialize(r[1..])
  {
    if |r| > 1 {
      assert Lines(r)[1..] == Lines(r[1..]);
    }
  }
}
