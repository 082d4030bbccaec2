/**
 * The few Python `str` operations the reply handling relies on, over
 * strings of Unicode code points: `pat in s`, `s.replace(pat, "")` and
 * `s.strip()`.
 */
module Text {

  /** Python's `str.isspace()` on one character: the characters `strip()` removes. */
  predicate IsSpace(c: char) {
    || c == ' '
    || ('\t' <= c <= '\r')
    || ('\U{1C}' <= c <= '\U{1F}')
    || c == '\U{85}'
    || c == '\U{A0}'
    || c == '\U{1680}'
    || ('\U{2000}' <= c <= '\U{200A}')
    || c == '\U{2028}'
    || c == '\U{2029}'
    || c == '\U{202F}'
    || c == '\U{205F}'
    || c == '\U{3000}'
  }

  predicate AllSpace(s: string) {
    forall i :: 0 <= i < |s| ==> IsSpace(s[i])
  }

  /** `pat` occurs in `s` starting at index `i`. */
  predicate OccursAt(s: string, pat: string, i: nat) {
    i + |pat| <= |s| && s[i..i + |pat|] == pat
  }

  /** Python's `pat in s`. */
  predicate Contains(s: string, pat: string) {
    exists i :: 0 <= i <= |s| - |pat| && OccursAt(s, pat, i)
  }

  /**
   * Python's `s.replace(pat, "")`: scan from the left and drop every
   * non-overlapping occurrence of `pat`.
   */
  function RemoveAll(s: string, pat: string): (r: string)
    requires pat != []
    ensures |r| <= |s|
    decreases |s|
  {
    if |s| < |pat| then s
    else if s[..|pat|] == pat then RemoveAll(s[|pat|..], pat)
    else [s[0]] + RemoveAll(s[1..], pat)
  }

  /** Python's `s.lstrip()`. */
  function TrimStart(s: string): string {
    if s != [] && IsSpace(s[0]) then TrimStart(s[1..]) else s
  }

  /** Python's `s.rstrip()`. */
  function TrimEnd(s: string): string {
    if s != [] && IsSpace(s[|s| - 1]) then TrimEnd(s[..|s| - 1]) else s
  }

  /** `TrimStart` cuts off exactly the leading whitespace: a suffix remains that does not start with whitespace. */
  lemma {:induction false} TrimStartCutsLeadingSpace(s: string)
    ensures var r := TrimStart(s);
      && |r| <= |s| && r == s[|s| - |r|..]
      && AllSpace(s[..|s| - |r|])
      && (r == [] || !IsSpace(r[0]))
  {
    if s != [] && IsSpace(s[0]) {
      TrimStartCutsLeadingSpace(s[1..]);
      var r := TrimStart(s);
      assert s[..|s| - |r|] == [s[0]] + s[1..][..|s| - 1 - |r|];
    }
  }

  /** `TrimEnd` cuts off exactly the trailing whitespace: a prefix remains that does not end with whitespace. */
  lemma {:induction false} TrimEndCutsTrailingSpace(s: string)
    ensures var r := TrimEnd(s);
      && |r| <= |s| && r == s[..|r|]
      && AllSpace(s[|r|..])
      && (r == [] || !IsSpace(r[|r| - 1]))
  {
    if s != [] && IsSpace(s[|s| - 1]) {
      TrimEndCutsTrailingSpace(s[..|s| - 1]);
      var r := TrimEnd(s);
      assert s[|r|..] == s[..|s| - 1][|r|..] + [s[|s| - 1]];
    }
  }

  /** `r` is `s` with the whitespace run `s[..a]` and the whitespace run after `r` cut off. */
  predicate StrippedAt(s: string, r: string, a: nat) {
    && a + |r| <= |s|
    && r == s[a..a + |r|]
    && AllSpace(s[..a])
    && AllSpace(s[a + |r|..])
  }

  /** Python's `s.strip()`. */
  function Strip(s: string): string {
    TrimEnd(TrimStart(s))
  }

  /**
   * `Strip(s)` is the slice of `s` between a leading and a trailing
   * whitespace run, and neither starts nor ends with whitespace.
   */
  lemma StripIsTrimmedSlice(s: string)
    ensures exists a: nat :: StrippedAt(s, Strip(s), a)
    ensures Strip(s) == [] || (!IsSpace(Strip(s)[0]) && !IsSpace(Strip(s)[|Strip(s)| - 1]))
  {
    var t := TrimStart(s);
    var r := TrimEnd(t);
    TrimStartCutsLeadingSpace(s);
    TrimEndCutsTrailingSpace(t);
    assert StrippedAt(s, r, |s| - |t|) by {
      assert s[|s| - |t|..][..|r|] == s[|s| - |t|..|s| - |t| + |r|];
      assert s[|s| - |t| + |r|..] == t[|r|..];
    }
    assert Strip(s) == r;
  }

  /** Removing `pat` leaves a plain prefix (one without `pat`'s first character) untouched. */
  lemma {:induction false} RemoveAllSkipsPlainPrefix(u: string, t: string, pat: string)
    requires pat != []
    requires forall i :: 0 <= i < |u| ==> u[i] != pat[0]
    ensures RemoveAll(u + t, pat) == u + RemoveAll(t, pat)
    decreases |u|
  {
    if u != [] {
      var s := u + t;
      if |s| < |pat| {
        assert RemoveAll(t, pat) == t;
      } else {
        assert s[..|pat|][0] == u[0];
        assert s[1..] == u[1..] + t;
        RemoveAllSkipsPlainPrefix(u[1..], t, pat);
      }
    } else {
      assert u + t == t;
    }
  }

  /** A string without `pat`'s first character has nothing removed. */
  lemma RemoveAllOfPlainString(u: string, pat: string)
    requires pat != []
    requires forall i :: 0 <= i < |u| ==> u[i] != pat[0]
    ensures RemoveAll(u, pat) == u
  {
    RemoveAllSkipsPlainPrefix(u, [], pat);
    assert u + [] == u;
  }

  /** An occurrence inside a slice of `s` is an occurrence inside `s`. */
  lemma OccursInSlice(s: string, a: nat, b: nat, pat: string, i: nat)
    requires a <= b <= |s|
    requires OccursAt(s[a..b], pat, i)
    ensures OccursAt(s, pat, a + i)
  {
    var t := s[a..b];
    assert |t| == b - a && i + |pat| <= |t|;
    var u, v := s[a + i..a + i + |pat|], t[i..i + |pat|];
    assert forall k :: 0 <= k < |pat| ==> u[k] == v[k];
  }

  /** An occurrence past the head of `[c] + t` is an occurrence inside `t`. */
  lemma OccursAfterHead(c: char, t: string, pat: string, i: nat)
    requires i >= 1
    ensures OccursAt([c] + t, pat, i) ==> OccursAt(t, pat, i - 1)
  {
    var s := [c] + t;
    if OccursAt(s, pat, i) {
      var u, v := s[i..i + |pat|], t[i - 1..i - 1 + |pat|];
      assert forall k :: 0 <= k < |pat| ==> u[k] == v[k];
    }
  }

  /** An occurrence inside `Strip(s)` is an occurrence inside `s`. */
  lemma StripKeepsAbsence(s: string, pat: string)
    requires !Contains(s, pat)
    ensures !Contains(Strip(s), pat)
  {
    var r := Strip(s);
    StripIsTrimmedSlice(s);
    var a: nat :| StrippedAt(s, r, a);
    assert r == s[a..a + |r|];
    forall i | 0 <= i <= |r| - |pat|
      ensures !OccursAt(r, pat, i)
    {
      if OccursAt(r, pat, i) {
        OccursInSlice(s, a, a + |r|, pat, i);
      }
    }
  }
}
