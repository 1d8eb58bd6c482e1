/** String helpers standing for the Python `str` methods the program calls:
    `strip()`, the `in` substring test, `replace(',', '.')` and `str(int)`. */
module Text {

  /** The characters the model strips: the ASCII whitespace set. Python's
      `str.strip()` removes further Unicode whitespace, which the model
      leaves out. */
  predicate IsSpace(c: char) {
    c == ' ' || c == '\t' || c == '\n' || c == '\r' || c == '\U{B}' || c == '\U{C}'
  }

  /** `t` occurs in `s` starting at index `k`. */
  predicate OccursAt(s: string, t: string, k: nat) {
    k + |t| <= |s| && s[k..k + |t|] == t
  }

  /** Python's `t in s` on strings: `t` occurs contiguously in `s`. */
  predicate Contains(s: string, t: string) {
    exists k: nat | k <= |s| :: OccursAt(s, t, k)
  }

  /** `s[lo..hi]` with its leading and trailing whitespace dropped: the
      result neither starts nor ends with whitespace. */
  function StripRange(s: string, lo: nat, hi: nat): (r: string)
    requires lo <= hi <= |s|
    ensures |r| <= hi - lo
    ensures r == [] || (!IsSpace(r[0]) && !IsSpace(r[|r| - 1]))
    decreases hi - lo
  {
    if lo < hi && IsSpace(s[lo]) then StripRange(s, lo + 1, hi)
    else if lo < hi && IsSpace(s[hi - 1]) then StripRange(s, lo, hi - 1)
    else s[lo..hi]
  }

  /** `s.strip()`: `s` without its leading and trailing whitespace. It is
      no longer than `s` and neither starts nor ends with whitespace. */
  function Strip(s: string): (r: string)
    ensures |r| <= |s|
    ensures r == [] || (!IsSpace(r[0]) && !IsSpace(r[|r| - 1]))
  {
    StripRange(s, 0, |s|)
  }

  /** `r` sits at index `k` of `s[lo..hi]`, with only whitespace around it. */
  ghost predicate StrippedAt(s: string, lo: nat, hi: nat, r: string, k: nat) {
    && lo <= k && k + |r| <= hi <= |s|
    && OccursAt(s, r, k)
    && (forall i | lo <= i < k :: IsSpace(s[i]))
    && (forall i | k + |r| <= i < hi :: IsSpace(s[i]))
  }

  /** Whitespace at either end of the range may be cut off. */
  lemma StrippedAtWiden(s: string, lo: nat, hi: nat, r: string, k: nat)
    requires lo < hi <= |s|
    requires IsSpace(s[lo]) ==> StrippedAt(s, lo + 1, hi, r, k)
    requires !IsSpace(s[lo]) ==> IsSpace(s[hi - 1]) && StrippedAt(s, lo, hi - 1, r, k)
    ensures StrippedAt(s, lo, hi, r, k)
  {
  }

  /** What `StripRange` keeps is a contiguous part of `s[lo..hi]`, and only
      whitespace lies around it. */
  lemma {:induction false} StripRangeSpec(s: string, lo: nat, hi: nat) returns (k: nat)
    requires lo <= hi <= |s|
    ensures StrippedAt(s, lo, hi, StripRange(s, lo, hi), k)
    decreases hi - lo
  {
    var r := StripRange(s, lo, hi);
    if lo < hi && IsSpace(s[lo]) {
      k := StripRangeSpec(s, lo + 1, hi);
      StrippedAtWiden(s, lo, hi, r, k);
    } else if lo < hi && IsSpace(s[hi - 1]) {
      k := StripRangeSpec(s, lo, hi - 1);
      StrippedAtWiden(s, lo, hi, r, k);
    } else {
      k := lo;
      assert OccursAt(s, r, lo);
    }
  }

  /** `Strip(s)` occurs in `s`, and only whitespace was cut off on either
      side. */
  lemma StripSpec(s: string)
    ensures exists k: nat :: StrippedAt(s, 0, |s|, Strip(s), k)
  {
    var k := StripRangeSpec(s, 0, |s|);
    assert StrippedAt(s, 0, |s|, Strip(s), k);
  }

  /** The converse of `StripRangeSpec`: a part of `s[lo..hi]` with only
      whitespace around it, and no whitespace at its own ends, is what
      `StripRange` keeps. */
  lemma {:induction false} StripRangeOfPadded(s: string, lo: nat, hi: nat, t: string, k: nat)
    requires StrippedAt(s, lo, hi, t, k)
    requires t != [] && !IsSpace(t[0]) && !IsSpace(t[|t| - 1])
    ensures StripRange(s, lo, hi) == t
    decreases hi - lo
  {
    if lo < k {
      assert IsSpace(s[lo]);
      StripRangeOfPadded(s, lo + 1, hi, t, k);
    } else if k + |t| < hi {
      assert s[lo] == t[0] && IsSpace(s[hi - 1]);
      StripRangeOfPadded(s, lo, hi - 1, t, k);
    } else {
      assert s[lo] == t[0] && s[hi - 1] == t[|t| - 1];
    }
  }

  /** Whitespace around a string with no whitespace at its ends is exactly
      what `strip()` removes. */
  lemma StripPadded(a: string, t: string, b: string)
    requires forall i | 0 <= i < |a| :: IsSpace(a[i])
    requires forall i | 0 <= i < |b| :: IsSpace(b[i])
    requires t != [] && !IsSpace(t[0]) && !IsSpace(t[|t| - 1])
    ensures Strip(a + t + b) == t
  {
    var s := a + t + b;
    assert s[|a|..|a| + |t|] == t;
    assert StrippedAt(s, 0, |s|, t, |a|);
    StripRangeOfPadded(s, 0, |s|, t, |a|);
  }

  /** Stripping a string that is already stripped changes nothing. */
  lemma {:induction false} StripIdempotent(s: string)
    ensures Strip(Strip(s)) == Strip(s)
  {
    var r := Strip(s);
    assert r[0..|r|] == r;
  }

  lemma ContainsSelf(t: string)
    ensures Contains(t, t)
  {
    assert OccursAt(t, t, 0);
  }

  /** What `s` contains, `a + s` contains too. */
  lemma ContainsAppendLeft(a: string, s: string, t: string)
    requires Contains(s, t)
    ensures Contains(a + s, t)
  {
    var k: nat :| k <= |s| && OccursAt(s, t, k);
    assert (a + s)[|a| + k..|a| + k + |t|] == s[k..k + |t|];
    assert OccursAt(a + s, t, |a| + k);
  }

  /** What `s` contains, `s + b` contains too. */
  lemma ContainsAppendRight(s: string, b: string, t: string)
    requires Contains(s, t)
    ensures Contains(s + b, t)
  {
    var k: nat :| k <= |s| && OccursAt(s, t, k);
    assert (s + b)[k..k + |t|] == s[k..k + |t|];
    assert OccursAt(s + b, t, k);
  }

  /** What `s` contains, `a + s + b` contains too. */
  lemma ContainsWithin(a: string, s: string, b: string, t: string)
    requires Contains(s, t)
    ensures Contains(a + s + b, t)
  {
    ContainsAppendLeft(a, s, t);
    ContainsAppendRight(a + s, b, t);
  }

  /** A prefix of `s` is a prefix of `s + b`. */
  lemma PrefixAppend(p: string, s: string, b: string)
    requires p <= s
    ensures p <= s + b
  {
    assert (s + b)[..|p|] == s[..|p|];
  }

  /** A prefix followed by the rest is the whole string. */
  lemma PrefixSplit(p: string, s: string)
    requires p <= s
    ensures s == p + s[|p|..]
  {
  }

  lemma AppendAssoc(a: string, b: string, c: string)
    ensures (a + b) + c == a + (b + c)
  {
  }

  lemma AppendEmpty(a: string)
    ensures a + "" == a
  {
  }

  /** `s.replace(from, to)` for single characters. */
  function ReplaceChar(s: string, from: char, to: char): (r: string)
    ensures |r| == |s|
    ensures forall i | 0 <= i < |s| :: r[i] == (if s[i] == from then to else s[i])
  {
    if s == [] then [] else [if s[0] == from then to else s[0]] + ReplaceChar(s[1..], from, to)
  }

  function DigitChar(d: nat): (c: char)
    requires d < 10
    ensures '0' <= c <= '9' && c as int - '0' as int == d
  {
    ['0', '1', '2', '3', '4', '5', '6', '7', '8', '9'][d]
  }

  /** `str(n)` for a natural number: its decimal digits, no leading zero. */
  function NatToString(n: nat): (s: string)
    ensures |s| >= 1
    ensures forall i | 0 <= i < |s| :: '0' <= s[i] <= '9'
    ensures |s| > 1 ==> s[0] != '0'
  {
    if n < 10 then [DigitChar(n)] else NatToString(n / 10) + [DigitChar(n % 10)]
  }

  /** The value of a string of decimal digits (the inverse of `NatToString`). */
  function DigitsValue(s: string): nat
    requires forall i | 0 <= i < |s| :: '0' <= s[i] <= '9'
  {
    if s == [] then 0 else DigitsValue(s[..|s| - 1]) * 10 + (s[|s| - 1] as int - '0' as int)
  }

  lemma {:induction false} NatToStringRoundTrip(n: nat)
    ensures DigitsValue(NatToString(n)) == n
  {
    if n >= 10 {
      var s := NatToString(n);
      assert s[..|s| - 1] == NatToString(n / 10);
      NatToStringRoundTrip(n / 10);
    }
  }

  /** Different numbers are written differently. */
  lemma NatToStringInjective(m: nat, n: nat)
    requires m != n
    ensures NatToString(m) != NatToString(n)
  {
    NatToStringRoundTrip(m);
    NatToStringRoundTrip(n);
  }
}
