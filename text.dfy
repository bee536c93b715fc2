/** String helpers for the gate: ASCII case mapping and the prefix, suffix and
    substring tests that the server performs on header values and paths.

    Case mapping is ASCII only. Every comparison in the gate is against an
    ASCII literal, and a case-insensitive JavaScript regular expression without
    the `u` flag never canonicalizes a non-ASCII character to an ASCII one, so
    ASCII folding decides exactly the same matches. */
module Text {

  /** Lower-cases 'A'..'Z'; every other character is unchanged. */
  function LowerChar(c: char): char {
    if 'A' <= c <= 'Z' then (c as int + 32) as char else c
  }

  /** Upper-cases 'a'..'z'; every other character is unchanged. */
  function UpperChar(c: char): char {
    if 'a' <= c <= 'z' then (c as int - 32) as char else c
  }

  function ToLower(s: string): string {
    seq(|s|, i requires 0 <= i < |s| => LowerChar(s[i]))
  }

  function ToUpper(s: string): string {
    seq(|s|, i requires 0 <= i < |s| => UpperChar(s[i]))
  }

  /** JavaScript `s.startsWith(prefix)`. */
  predicate StartsWith(s: string, prefix: string) {
    |prefix| <= |s| && s[..|prefix|] == prefix
  }

  /** JavaScript `s.endsWith(suffix)`. */
  predicate EndsWith(s: string, suffix: string) {
    |suffix| <= |s| && s[|s| - |suffix|..] == suffix
  }

  /** `t` occurs in `s`, found by trying every start position in turn. */
  predicate Contains(s: string, t: string)
    ensures Contains(s, t) ==> |t| <= |s|
    decreases |s|
  {
    StartsWith(s, t) || (s != [] && Contains(s[1..], t))
  }

  /** `t` occurs in `s` at index `i`. */
  predicate OccursAt(s: string, t: string, i: int) {
    0 <= i && i + |t| <= |s| && s[i..i + |t|] == t
  }

  /** The character comparison of a case-insensitive regular expression:
      both sides canonicalized by upper-casing. */
  predicate SameIgnoringCase(a: string, b: string) {
    |a| == |b| && forall i :: 0 <= i < |a| ==> UpperChar(a[i]) == UpperChar(b[i])
  }

  /** A case-insensitive pattern `t` matches `s` at index `i`. */
  predicate MatchesIgnoringCaseAt(s: string, t: string, i: int) {
    0 <= i && i + |t| <= |s| && SameIgnoringCase(s[i..i + |t|], t)
  }

  /** A string with no character in 'A'..'Z', such as every pattern token here. */
  predicate HasNoUpper(t: string) {
    forall i :: 0 <= i < |t| ==> !('A' <= t[i] <= 'Z')
  }

  /** A string with no character in 'a'..'z', such as "UNKNOWN" and "JP". */
  predicate HasNoLower(t: string) {
    forall i :: 0 <= i < |t| ==> !('a' <= t[i] <= 'z')
  }

  lemma {:induction false} ContainsIff(s: string, t: string)
    ensures Contains(s, t) <==> exists i :: OccursAt(s, t, i)
    decreases |s|
  {
    if StartsWith(s, t) {
      assert OccursAt(s, t, 0);
    } else if s == [] {
    } else {
      ContainsIff(s[1..], t);
      if i :| OccursAt(s[1..], t, i) {
        assert s[1..][i..i + |t|] == s[i + 1..i + 1 + |t|];
        assert OccursAt(s, t, i + 1);
      }
      if j :| OccursAt(s, t, j) {
        assert s[1..][j - 1..j - 1 + |t|] == s[j..j + |t|];
        assert OccursAt(s[1..], t, j - 1);
      }
    }
  }

  /** For a pattern character that is not an upper-case letter, lower-casing
      the input character and comparing equals the canonicalizing comparison. */
  lemma LowerCharMatches(c: char, t: char)
    requires !('A' <= t <= 'Z')
    ensures LowerChar(c) == t <==> UpperChar(c) == UpperChar(t)
  {
  }

  /** For a target with no lower-case letter, upper-casing the input and
      comparing equals the canonicalizing comparison. */
  lemma UpperCharMatches(c: char, t: char)
    requires !('a' <= t <= 'z')
    ensures UpperChar(c) == t <==> UpperChar(c) == UpperChar(t)
  {
  }

  lemma ToLowerSlice(s: string, i: int, j: int)
    requires 0 <= i <= j <= |s|
    ensures ToLower(s)[i..j] == ToLower(s[i..j])
  {
  }

  /** Lower-casing and then comparing with a lower-case pattern is the
      case-insensitive comparison. */
  lemma LowerEqualsIffSame(s: string, t: string)
    requires HasNoUpper(t)
    ensures ToLower(s) == t <==> SameIgnoringCase(s, t)
  {
    if |s| == |t| {
      forall i | 0 <= i < |s| ensures LowerChar(s[i]) == t[i] <==> UpperChar(s[i]) == UpperChar(t[i]) {
        LowerCharMatches(s[i], t[i]);
      }
    }
  }

  /** Upper-casing and then comparing with an upper-case target is the
      case-insensitive comparison. */
  lemma UpperEqualsIffSame(s: string, t: string)
    requires HasNoLower(t)
    ensures ToUpper(s) == t <==> SameIgnoringCase(s, t)
  {
    if |s| == |t| {
      forall i | 0 <= i < |s| ensures UpperChar(s[i]) == t[i] <==> UpperChar(s[i]) == UpperChar(t[i]) {
        UpperCharMatches(s[i], t[i]);
      }
    }
  }

  /** Searching the lower-cased text for a lower-case token finds exactly the
      positions where a case-insensitive pattern for that token matches. */
  lemma ContainsLowerIffMatches(s: string, t: string)
    requires HasNoUpper(t)
    ensures Contains(ToLower(s), t) <==> exists i :: MatchesIgnoringCaseAt(s, t, i)
  {
    ContainsIff(ToLower(s), t);
    forall i | 0 <= i && i + |t| <= |s|
      ensures OccursAt(ToLower(s), t, i) <==> MatchesIgnoringCaseAt(s, t, i)
    {
      ToLowerSlice(s, i, i + |t|);
      LowerEqualsIffSame(s[i..i + |t|], t);
    }
    if i :| MatchesIgnoringCaseAt(s, t, i) {
      assert OccursAt(ToLower(s), t, i);
    }
    if i :| OccursAt(ToLower(s), t, i) {
      assert MatchesIgnoringCaseAt(s, t, i);
    }
  }

  /** A string lacking one of the characters of `t` does not contain `t`. */
  lemma MissingCharNotContained(s: string, t: string, j: int)
    requires 0 <= j < |t| && t[j] !in s
    ensures !Contains(s, t)
  {
  }

  /** Case-insensitive comparison does not see the case of either side. */
  lemma LowerOfUpper(s: string)
    ensures ToLower(ToUpper(s)) == ToLower(s)
    ensures ToLower(ToLower(s)) == ToLower(s)
    ensures ToUpper(ToLower(s)) == ToUpper(s)
    ensures ToUpper(ToUpper(s)) == ToUpper(s)
  {
  }
}
