/**
 * The JavaScript string operations the core relies on: `includes`,
 * `replaceAll` with a string pattern, `join`, and number-to-string
 * conversion in template literals.
 */
module Strings {
  /** `pat` occurs in `s` starting at index `i`. */
  predicate OccursAt(s: string, pat: string, i: int) {
    0 <= i && i + |pat| <= |s| && s[i..i + |pat|] == pat
  }

  /** JavaScript `s.includes(pat)`. */
  predicate Contains(s: string, pat: string) {
    exists i | 0 <= i <= |s| :: OccursAt(s, pat, i)
  }

  /**
   * `GetSubstitution` (ECMA-262, section 22.1.3.19.1) for a string search
   * value, which has no capture groups: the text that replaces the match
   * `s[start..end]`. `$$` gives `$`, `$&` the match, `` $` `` the text
   * before it and `$'` the text after it; any other `$` stays as written.
   */
  function Expand(rep: string, s: string, start: nat, end: nat): string
    requires start <= end <= |s|
    decreases |rep|
  {
    if rep == [] then []
    else if rep[0] == '$' && |rep| >= 2 && rep[1] == '$' then "$" + Expand(rep[2..], s, start, end)
    else if rep[0] == '$' && |rep| >= 2 && rep[1] == '&' then s[start..end] + Expand(rep[2..], s, start, end)
    else if rep[0] == '$' && |rep| >= 2 && rep[1] == '`' then s[..start] + Expand(rep[2..], s, start, end)
    else if rep[0] == '$' && |rep| >= 2 && rep[1] == '\'' then s[end..] + Expand(rep[2..], s, start, end)
    else [rep[0]] + Expand(rep[1..], s, start, end)
  }

  /** A replacement without `$` is inserted as written. */
  lemma {:induction false} ExpandLiteral(rep: string, s: string, start: nat, end: nat)
    requires start <= end <= |s| && '$' !in rep
    ensures Expand(rep, s, start, end) == rep
    decreases |rep|
  {
    if rep != [] {
      assert rep[0] != '$';
      assert '$' !in rep[1..] by {
        assert forall k | 0 <= k < |rep| - 1 :: rep[1..][k] == rep[k + 1];
      }
      ExpandLiteral(rep[1..], s, start, end);
    }
  }

  /** The text that replaces a match of `pat` at index `k` of `s`: the expansion of `rep` for it. */
  function Substitution(s: string, pat: string, rep: string): nat -> string {
    (k: nat) => if k + |pat| <= |s| then Expand(rep, s, k, k + |pat|) else ""
  }

  /**
   * The scan of `replaceAll` over `s` from index `i` on: left to right, the
   * match at each `k` becomes `sub(k)` and the search goes on after it;
   * everything else is copied.
   */
  function Scan(s: string, pat: string, sub: nat -> string, i: nat): string
    requires |pat| > 0 && i <= |s|
    decreases |s| - i
  {
    if |s| - i < |pat| then s[i..]
    else if s[i..i + |pat|] == pat then sub(i) + Scan(s, pat, sub, i + |pat|)
    else [s[i]] + Scan(s, pat, sub, i + 1)
  }

  /**
   * JavaScript `s.replaceAll(pat, rep)` for a non-empty string pattern:
   * every non-overlapping occurrence, found left to right, is replaced with
   * the expansion of `rep` for it.
   */
  function ReplaceAll(s: string, pat: string, rep: string): string
    requires |pat| > 0
  {
    Scan(s, pat, Substitution(s, pat, rep), 0)
  }

  /** `StringIndexOf(s, pat, from)`: the first index at or after `from` where `pat` occurs, or -1. */
  function IndexOf(s: string, pat: string, from: nat): (r: int)
    requires |pat| > 0
    ensures r == -1 || (from <= r && OccursAt(s, pat, r))
    ensures r == -1 ==> forall j | from <= j :: !OccursAt(s, pat, j)
    ensures r != -1 ==> forall j | from <= j < r :: !OccursAt(s, pat, j)
    decreases |s| - from
  {
    if from + |pat| > |s| then -1
    else if s[from..from + |pat|] == pat then from
    else IndexOf(s, pat, from + 1)
  }

  /** `ps` are occurrences of `pat` in increasing order, each at least `|pat|` after the one before, the first at or after `from`. */
  predicate Spaced(s: string, pat: string, ps: seq<nat>, from: nat)
    decreases |ps|
  {
    ps == [] || (from <= ps[0] && OccursAt(s, pat, ps[0]) && Spaced(s, pat, ps[1..], ps[0] + |pat|))
  }

  /**
   * The positions `replaceAll` (ECMA-262, section 22.1.3.20) collects: the
   * first occurrence, then each search resumes `|pat|` after the last match.
   */
  function MatchPositions(s: string, pat: string, from: nat): (r: seq<nat>)
    requires |pat| > 0
    ensures Spaced(s, pat, r, from)
    decreases |s| + 1 - from
  {
    var p := IndexOf(s, pat, from);
    if p == -1 then [] else [p as nat] + MatchPositions(s, pat, p + |pat|)
  }

  /** The result `replaceAll` builds from the positions: the text between matches, each match's substitution, then the tail. */
  function Assemble(s: string, pat: string, sub: nat -> string, ps: seq<nat>, from: nat): string
    requires from <= |s| && Spaced(s, pat, ps, from)
    decreases |ps|
  {
    if ps == [] then s[from..]
    else s[from..ps[0]] + (sub(ps[0]) + Assemble(s, pat, sub, ps[1..], ps[0] + |pat|))
  }

  /** `String.prototype.replaceAll` with a string pattern, as ECMA-262 section 22.1.3.20 writes it. */
  function StandardReplaceAll(s: string, pat: string, rep: string): string
    requires |pat| > 0
  {
    Assemble(s, pat, Substitution(s, pat, rep), MatchPositions(s, pat, 0), 0)
  }

  /** `x + (y + z)` is `x + y + z`; kept apart so that the scan lemmas never compare their results element by element. */
  lemma AppendAssoc(x: string, y: string, z: string)
    ensures x + (y + z) == x + y + z
  {
  }

  /** At a position `i` that is not a match, the scan copies one character and goes on at `n`, the next index. */
  lemma ScanCopy(s: string, pat: string, sub: nat -> string, i: nat, n: nat)
    requires |pat| > 0 && i + |pat| <= |s| && !OccursAt(s, pat, i) && n == i + 1
    ensures Scan(s, pat, sub, i) == [s[i]] + Scan(s, pat, sub, n)
  {
  }

  /** At a match at `i`, the scan puts the substitution and goes on at `n`, just after the match. */
  lemma ScanMatch(s: string, pat: string, sub: nat -> string, i: nat, n: nat)
    requires |pat| > 0 && OccursAt(s, pat, i) && n == i + |pat|
    ensures Scan(s, pat, sub, i) == sub(i) + Scan(s, pat, sub, n)
  {
  }

  /** With no match from `i` on, the scan copies the rest. */
  lemma {:induction false} ScanNone(s: string, pat: string, sub: nat -> string, i: nat)
    requires |pat| > 0 && i <= |s|
    requires forall j | i <= j :: !OccursAt(s, pat, j)
    ensures Scan(s, pat, sub, i) == s[i..]
    decreases |s| - i
  {
    if |s| - i >= |pat| {
      var n: nat := i + 1;
      ScanCopy(s, pat, sub, i, n);
      ScanNone(s, pat, sub, n);
      assert [s[i]] + s[n..] == s[i..];
    }
  }

  /** The scan copies the text before the next match. */
  lemma {:induction false} ScanSkip(s: string, pat: string, sub: nat -> string, i: nat, p: nat)
    requires |pat| > 0 && i <= p && p + |pat| <= |s|
    requires forall j | i <= j < p :: !OccursAt(s, pat, j)
    ensures Scan(s, pat, sub, i) == s[i..p] + Scan(s, pat, sub, p)
    decreases p - i
  {
    if i < p {
      var n: nat := i + 1;
      ScanCopy(s, pat, sub, i, n);
      ScanSkip(s, pat, sub, n, p);
      AppendAssoc([s[i]], s[n..p], Scan(s, pat, sub, p));
      assert [s[i]] + s[n..p] == s[i..p];
    } else {
      assert s[i..p] == [];
    }
  }

  /** With no match from `i` on, the assembly is the rest of the text, as the scan is. */
  lemma ScanAssemblesNone(s: string, pat: string, sub: nat -> string, i: nat)
    requires |pat| > 0 && i <= |s| && IndexOf(s, pat, i) == -1
    ensures Scan(s, pat, sub, i) == Assemble(s, pat, sub, MatchPositions(s, pat, i), i)
  {
    ScanNone(s, pat, sub, i);
    assert MatchPositions(s, pat, i) == [];
  }

  /** The positions from `i` are the first match `p` at or after `i`, then the positions from `q`, just after it. */
  lemma MatchPositionsFound(s: string, pat: string, i: nat, p: nat, q: nat)
    requires |pat| > 0 && IndexOf(s, pat, i) == p && q == p + |pat|
    ensures MatchPositions(s, pat, i) == [p] + MatchPositions(s, pat, q)
  {
  }

  /** A match at `p` with none before it from `i`, followed by spaced positions from `q`, gives spaced positions from `i`. */
  lemma SpacedStep(s: string, pat: string, i: nat, p: nat, q: nat, rest: seq<nat>)
    requires i <= p && OccursAt(s, pat, p) && q == p + |pat| && Spaced(s, pat, rest, q)
    ensures Spaced(s, pat, [p] + rest, i)
  {
    assert ([p] + rest)[1..] == rest;
  }

  /** The assembly of positions `ps` starting with `p`: the text up to `p`, its substitution, then the assembly of the rest from `q`. */
  lemma AssembleFirst(s: string, pat: string, sub: nat -> string, i: nat, p: nat, q: nat, ps: seq<nat>, rest: seq<nat>)
    requires i <= |s| && Spaced(s, pat, ps, i) && ps != [] && ps[0] == p && ps[1..] == rest && q == p + |pat|
    ensures Assemble(s, pat, sub, ps, i) == s[i..p] + (sub(p) + Assemble(s, pat, sub, rest, q))
  {
  }

  /** One step of the assembly: the text before the first position, its substitution, then the rest. */
  lemma ScanAssemblesStep(s: string, pat: string, sub: nat -> string, i: nat, p: nat, q: nat, rest: seq<nat>)
    requires |pat| > 0 && i <= p && OccursAt(s, pat, p) && q == p + |pat|
    requires forall j | i <= j < p :: !OccursAt(s, pat, j)
    requires Spaced(s, pat, rest, q) && Spaced(s, pat, [p] + rest, i)
    requires Scan(s, pat, sub, q) == Assemble(s, pat, sub, rest, q)
    ensures Scan(s, pat, sub, i) == Assemble(s, pat, sub, [p] + rest, i)
  {
    var ps := [p] + rest;
    assert ps[0] == p && ps[1..] == rest;
    AssembleFirst(s, pat, sub, i, p, q, ps, rest);
    ScanSkip(s, pat, sub, i, p);
    ScanMatch(s, pat, sub, p, q);
  }

  /** The scan from `i` is the standard's assembly of the positions found from `i`. */
  lemma {:induction false} ScanAssembles(s: string, pat: string, sub: nat -> string, i: nat)
    requires |pat| > 0 && i <= |s|
    ensures Scan(s, pat, sub, i) == Assemble(s, pat, sub, MatchPositions(s, pat, i), i)
    decreases |s| - i
  {
    var p := IndexOf(s, pat, i);
    if p == -1 {
      ScanAssemblesNone(s, pat, sub, i);
    } else {
      var q: nat := p + |pat|;
      MatchPositionsFound(s, pat, i, p, q);
      var rest := MatchPositions(s, pat, q);
      ScanAssembles(s, pat, sub, q);
      SpacedStep(s, pat, i, p, q, rest);
      ScanAssemblesStep(s, pat, sub, i, p, q, rest);
    }
  }

  /** The scanning `replaceAll` is the one the standard defines, `$` patterns included. */
  lemma ReplaceAllIsStandard(s: string, pat: string, rep: string)
    requires |pat| > 0
    ensures ReplaceAll(s, pat, rep) == StandardReplaceAll(s, pat, rep)
  {
    ScanAssembles(s, pat, Substitution(s, pat, rep), 0);
  }

  /** JavaScript `parts.join(sep)`. */
  function JoinWith(parts: seq<string>, sep: string): string {
    if |parts| == 0 then ""
    else if |parts| == 1 then parts[0]
    else parts[0] + sep + JoinWith(parts[1..], sep)
  }

  function DigitChar(d: nat): char
    requires d < 10
  {
    "0123456789"[d]
  }

  /** Decimal rendering of a natural number, as in a template literal. */
  function NatToString(n: nat): string
    decreases n
  {
    if n < 10 then [DigitChar(n)] else NatToString(n / 10) + [DigitChar(n % 10)]
  }

  /** Decimal rendering of an integer, with a leading `-` when negative. */
  function IntToString(i: int): string {
    if i < 0 then "-" + NatToString(-i) else NatToString(i)
  }

  /** An occurrence in a suffix of `s` is an occurrence in `s`. */
  lemma ContainsOfSuffix(s: string, pat: string, k: nat)
    requires k <= |s|
    ensures Contains(s[k..], pat) ==> Contains(s, pat)
  {
    if Contains(s[k..], pat) {
      var i :| 0 <= i <= |s[k..]| && OccursAt(s[k..], pat, i);
      assert s[k..][i..i + |pat|] == s[k + i..k + i + |pat|];
      assert OccursAt(s, pat, k + i);
    }
  }

  /** `replaceAll` leaves a string without the pattern unchanged. */
  lemma ReplaceAllAbsent(s: string, pat: string, rep: string)
    requires |pat| > 0
    requires !Contains(s, pat)
    ensures ReplaceAll(s, pat, rep) == s
  {
    ScanNone(s, pat, Substitution(s, pat, rep), 0);
  }

  /** A replacement without `$` is what every match inside `s` is replaced with. */
  lemma SubstitutionConstant(s: string, pat: string, rep: string)
    requires '$' !in rep
    ensures forall k: nat | k + |pat| <= |s| :: Substitution(s, pat, rep)(k) == rep
  {
    forall k: nat | k + |pat| <= |s| ensures Substitution(s, pat, rep)(k) == rep {
      ExpandLiteral(rep, s, k, k + |pat|);
    }
  }

  /** Replacing a pattern without `$` by itself changes nothing. */
  lemma ReplaceAllSelf(s: string, pat: string)
    requires |pat| > 0 && '$' !in pat
    ensures ReplaceAll(s, pat, pat) == s
  {
    SubstitutionConstant(s, pat, pat);
    ScanSelf(s, pat, Substitution(s, pat, pat), 0);
  }

  lemma {:induction false} ScanSelf(s: string, pat: string, sub: nat -> string, i: nat)
    requires |pat| > 0 && i <= |s|
    requires forall k: nat | k + |pat| <= |s| :: sub(k) == pat
    ensures Scan(s, pat, sub, i) == s[i..]
    decreases |s| - i
  {
    if |s| - i < |pat| {
    } else if s[i..i + |pat|] == pat {
      var n: nat := i + |pat|;
      ScanMatch(s, pat, sub, i, n);
      ScanSelf(s, pat, sub, n);
      assert s[i..n] + s[n..] == s[i..];
    } else {
      var n: nat := i + 1;
      ScanCopy(s, pat, sub, i, n);
      ScanSelf(s, pat, sub, n);
      assert [s[i]] + s[n..] == s[i..];
    }
  }

  /**
   * With substitutions that put `rep` at every match, scanning the suffix
   * from `k` is scanning `s` from `m`, which is `k + i`, on.
   */
  lemma {:induction false} ScanShift(s: string, pat: string, rep: string, sub: nat -> string, sub': nat -> string, k: nat, i: nat, m: nat)
    requires |pat| > 0 && m == k + i && m <= |s|
    requires forall j: nat | j + |pat| <= |s| :: sub(j) == rep
    requires forall j: nat | j + |pat| <= |s| - k :: sub'(j) == rep
    ensures Scan(s, pat, sub, m) == Scan(s[k..], pat, sub', i)
    decreases |s| - m
  {
    var t := s[k..];
    if |s| - m >= |pat| {
      assert s[m..m + |pat|] == t[i..i + |pat|];
      if s[m..m + |pat|] == pat {
        var n: nat := i + |pat|;
        var m': nat := m + |pat|;
        ScanMatch(s, pat, sub, m, m');
        ScanMatch(t, pat, sub', i, n);
        ScanShift(s, pat, rep, sub, sub', k, n, m');
      } else {
        var n: nat := i + 1;
        var m': nat := m + 1;
        ScanCopy(s, pat, sub, m, m');
        ScanCopy(t, pat, sub', i, n);
        ScanShift(s, pat, rep, sub, sub', k, n, m');
      }
    } else {
      assert s[m..] == t[i..];
    }
  }

  /** A pattern whose first character does not occur again in it, such as `{key}` for a key without `{`. */
  predicate OpensOnce(pat: string) {
    |pat| > 0 && forall k | 0 < k < |pat| :: pat[k] != pat[0]
  }

  /** Before the first occurrence of such a pattern after text that does not contain it, there is no match. */
  lemma NoMatchBefore(a: string, b: string, pat: string)
    requires OpensOnce(pat) && !Contains(a, pat)
    ensures forall j | 0 <= j < |a| :: !OccursAt(a + pat + b, pat, j)
    ensures OccursAt(a + pat + b, pat, |a|)
  {
    var s := a + pat + b;
    forall j | 0 <= j < |a| ensures !OccursAt(s, pat, j) {
      if j + |pat| <= |a| {
        assert s[j..j + |pat|] == a[j..j + |pat|];
        assert !OccursAt(a, pat, j);
      } else {
        assert s[|a|] == pat[0];
        assert s[j..j + |pat|][|a| - j] == s[|a|];
      }
    }
    assert s[|a|..|a| + |pat|] == pat;
  }

  /**
   * An occurrence of such a pattern after text that does not contain it is
   * the first match: with a replacement free of `$`, `replaceAll` keeps the
   * text, puts the replacement there and carries on after it.
   */
  lemma ReplaceAllSplit(a: string, b: string, pat: string, rep: string)
    requires OpensOnce(pat) && '$' !in rep && !Contains(a, pat)
    ensures ReplaceAll(a + pat + b, pat, rep) == a + rep + ReplaceAll(b, pat, rep)
  {
    var s := a + pat + b;
    var sub := Substitution(s, pat, rep);
    var sub' := Substitution(b, pat, rep);
    var m: nat := |a| + |pat|;
    NoMatchBefore(a, b, pat);
    SubstitutionConstant(s, pat, rep);
    SubstitutionConstant(b, pat, rep);
    ScanSkip(s, pat, sub, 0, |a|);
    ScanMatch(s, pat, sub, |a|, m);
    assert s[m..] == b;
    ScanShift(s, pat, rep, sub, sub', m, 0, m);
    assert s[0..|a|] == a;
    AppendAssoc(a, rep, ReplaceAll(b, pat, rep));
  }

  /**
   * A text made of pieces that do not contain such a pattern, joined by it,
   * becomes the same pieces joined by the replacement.
   */
  lemma {:induction false} ReplaceAllTemplate(pieces: seq<string>, pat: string, rep: string)
    requires OpensOnce(pat) && '$' !in rep
    requires forall k | 0 <= k < |pieces| :: !Contains(pieces[k], pat)
    ensures ReplaceAll(JoinWith(pieces, pat), pat, rep) == JoinWith(pieces, rep)
    decreases |pieces|
  {
    if |pieces| == 0 {
    } else if |pieces| == 1 {
      ReplaceAllAbsent(pieces[0], pat, rep);
    } else {
      ReplaceAllSplit(pieces[0], JoinWith(pieces[1..], pat), pat, rep);
      ReplaceAllTemplate(pieces[1..], pat, rep);
    }
  }

  /**
   * Replacing can form a new occurrence of the pattern out of the text
   * around a match, so a pattern may remain after `replaceAll`.
   */
  lemma ReplaceAllCanFormPattern()
    ensures ReplaceAll("{worker{workerName}}", "{workerName}", "Name") == "{workerName}"
  {
    var pat := "{workerName}";
    assert "{worker{workerName}}" == "{worker" + pat + "}";
    assert OpensOnce(pat);
    ReplaceAllSplit("{worker", "}", pat, "Name");
    ReplaceAllAbsent("}", pat, "Name");
    assert "{worker" + "Name" + "}" == pat;
  }

  /** A string always contains what is appended to it. */
  lemma ContainsSuffix(prefix: string, s: string)
    ensures Contains(prefix + s, s)
  {
    assert (prefix + s)[|prefix|..|prefix| + |s|] == s;
    assert OccursAt(prefix + s, s, |prefix|);
  }

  /** Containment is kept when text is appended. */
  lemma ContainsExtend(s: string, more: string, pat: string)
    requires Contains(s, pat)
    ensures Contains(s + more, pat)
  {
    var i :| 0 <= i <= |s| && OccursAt(s, pat, i);
    assert (s + more)[i..i + |pat|] == s[i..i + |pat|];
    assert OccursAt(s + more, pat, i);
  }
}
