/** Worker-name sanitising (src/utils/string.ts). */
module Names {
  import opened Wrappers

  /** Membership in the character class `[a-z0-9-]`. */
  predicate IsAllowed(c: char) {
    ('a' <= c <= 'z') || ('0' <= c <= '9') || c == '-'
  }

  /** Every character of `s` is in `[a-z0-9-]`. */
  predicate AllAllowed(s: string) {
    s == [] || (IsAllowed(s[0]) && AllAllowed(s[1..]))
  }

  /** The test `/^[a-z0-9-]+$/`: non-empty and made only of allowed characters. */
  predicate MatchesNamePattern(s: string) {
    |s| > 0 && AllAllowed(s)
  }

  /** `AllAllowed` is the character-by-character reading of the class. */
  lemma {:induction false} AllAllowedIff(s: string)
    ensures AllAllowed(s) <==> forall i | 0 <= i < |s| :: IsAllowed(s[i])
  {
    if s != [] {
      AllAllowedIff(s[1..]);
      assert forall i | 1 <= i < |s| :: s[1..][i - 1] == s[i];
    }
  }

  /**
   * The UTF-16 code units of one character, as a JavaScript string holds
   * it: one unit inside the Basic Multilingual Plane, a surrogate pair
   * outside it.
   */
  function CodeUnits(c: char): (r: seq<int>)
    ensures |r| == if c as int < 0x1_0000 then 1 else 2
  {
    if c as int < 0x1_0000 then [c as int]
    else [0xD800 + (c as int - 0x1_0000) / 0x400, 0xDC00 + (c as int - 0x1_0000) % 0x400]
  }

  /** The code units of `s`: what `.length` counts and what a regular expression without the `u` flag reads one by one. */
  function Utf16(s: string): seq<int> {
    if s == [] then [] else CodeUnits(s[0]) + Utf16(s[1..])
  }

  lemma {:induction false} Utf16Append(a: string, b: string)
    ensures Utf16(a + b) == Utf16(a) + Utf16(b)
  {
    if a != [] {
      assert (a + b)[1..] == a[1..] + b;
      Utf16Append(a[1..], b);
    } else {
      assert a + b == b;
    }
  }

  /** Membership of one code unit in `[a-z0-9-]`. */
  predicate IsAllowedUnit(u: int) {
    (97 <= u <= 122) || (48 <= u <= 57) || u == 45
  }

  /** `[^a-z0-9-]` replaced by `-` unit by unit, as the source's regular expression does. */
  function ReplaceUnits(us: seq<int>): seq<int> {
    seq(|us|, i requires 0 <= i < |us| => if IsAllowedUnit(us[i]) then us[i] else 45)
  }

  lemma ReplaceUnitsAppend(a: seq<int>, b: seq<int>)
    ensures ReplaceUnits(a + b) == ReplaceUnits(a) + ReplaceUnits(b)
  {
  }

  /**
   * `s.replaceAll(/[^a-z0-9-]/g, "-")`: an allowed character stays, any
   * other becomes one `-` per code unit, so a character outside the Basic
   * Multilingual Plane becomes `--`. The result has the source's length.
   */
  function ReplaceDisallowed(s: string): (r: string)
    ensures |r| == |Utf16(s)| && AllAllowed(r)
    ensures AllAllowed(s) ==> r == s
  {
    if s == [] then []
    else
      var c := s[0];
      (if IsAllowed(c) then [c] else if c as int < 0x1_0000 then "-" else "--") + ReplaceDisallowed(s[1..])
  }

  /** The code units of an allowed string are its characters. */
  lemma {:induction false} AllowedUnits(s: string)
    requires AllAllowed(s)
    ensures Utf16(s) == seq(|s|, i requires 0 <= i < |s| => s[i] as int)
  {
    if s != [] {
      AllowedUnits(s[1..]);
    }
  }

  /** Read on code units, the replacement is the source's: each unit outside `[a-z0-9-]` becomes `-`. */
  lemma {:induction false} ReplaceDisallowedUnits(s: string)
    ensures Utf16(ReplaceDisallowed(s)) == ReplaceUnits(Utf16(s))
  {
    if s != [] {
      var c := s[0];
      var head: string := if IsAllowed(c) then [c] else if c as int < 0x1_0000 then "-" else "--";
      assert ReplaceDisallowed(s) == head + ReplaceDisallowed(s[1..]);
      Utf16Append(head, ReplaceDisallowed(s[1..]));
      ReplaceDisallowedUnits(s[1..]);
      ReplaceUnitsAppend(CodeUnits(c), Utf16(s[1..]));
      assert Utf16(head) == ReplaceUnits(CodeUnits(c));
    }
  }

  /** The test `/^[a-z0-9-]+$/` read on code units. */
  lemma {:induction false} MatchesNamePatternUnits(s: string)
    ensures MatchesNamePattern(s) <==> |Utf16(s)| > 0 && forall i | 0 <= i < |Utf16(s)| :: IsAllowedUnit(Utf16(s)[i])
  {
    AllAllowedIff(s);
    if AllAllowed(s) {
      AllowedUnits(s);
    } else if s != [] {
      var k :| 0 <= k < |s| && !IsAllowed(s[k]);
      Utf16Append(s[..k], s[k..]);
      assert s[..k] + s[k..] == s;
      assert s[k..] == [s[k]] + s[k + 1..];
      Utf16Append([s[k]], s[k + 1..]);
      var u := Utf16(s[..k]);
      assert Utf16([s[k]]) == CodeUnits(s[k]);
      assert !IsAllowedUnit(Utf16(s)[|u|]);
    }
  }

  /**
   * `sanitizeWorkerName`: a name that already matches the pattern is
   * returned as is; otherwise every code unit outside `[a-z0-9-]`
   * (upper-case letters included) becomes `-`, keeping the length, so a
   * non-empty input always comes out matching the pattern.
   */
  function SanitizeWorkerName(s: string): (r: string)
    ensures |r| == |Utf16(s)| && AllAllowed(r)
    ensures s != [] ==> MatchesNamePattern(r)
    ensures MatchesNamePattern(s) ==> r == s
  {
    if !MatchesNamePattern(s) then ReplaceDisallowed(s)
    else
      assert ReplaceDisallowed(s) == s;
      s
  }

  /**
   * The same function applied to a possibly missing name: the pattern test
   * reads `undefined` as the text "undefined", which matches, so a missing
   * name stays missing.
   */
  function SanitizeOptionalName(name: Option<string>): (r: Option<string>)
    ensures r.None? <==> name.None?
    ensures name.Some? ==> r.value == SanitizeWorkerName(name.value)
  {
    match name
    case None => None
    case Some(n) => Some(SanitizeWorkerName(n))
  }

  /**
   * Code unit by code unit: an allowed unit stays, any other becomes `-`,
   * whether or not the name already matched.
   */
  lemma SanitizeUnits(s: string)
    ensures Utf16(SanitizeWorkerName(s)) == ReplaceUnits(Utf16(s))
  {
    ReplaceDisallowedUnits(s);
    if MatchesNamePattern(s) {
      assert ReplaceDisallowed(s) == s;
    }
  }

  /** Sanitising twice is sanitising once. */
  lemma SanitizeIdempotent(s: string)
    ensures SanitizeWorkerName(SanitizeWorkerName(s)) == SanitizeWorkerName(s)
  {
  }

  /** The output is accepted by the pattern test exactly when the input is non-empty. */
  lemma SanitizedMatchesPattern(s: string)
    ensures MatchesNamePattern(SanitizeWorkerName(s)) <==> s != []
  {
  }
}
