/**
 * The string operations the core relies on: the case folding and substring
 * test behind Django's `__icontains` lookups, `str.strip()`, and decimal
 * formatting of integers (`str(n)`, `f"{n:04d}"`) with its inverse.
 */
module Strings {

  /** ASCII upper-case letters fold to lower case; every other character is kept. */
  function LowerChar(c: char): char {
    if 'A' <= c <= 'Z' then (c as int + 32) as char else c
  }

  function Lower(s: string): (r: string)
    ensures |r| == |s|
    ensures forall i :: 0 <= i < |s| ==> r[i] == LowerChar(s[i])
  {
    seq(|s|, i requires 0 <= i < |s| => LowerChar(s[i]))
  }

  /** `t` occurs in `s` starting at position `i`. */
  ghost predicate OccursAt(t: string, s: string, i: nat) {
    i + |t| <= |s| && s[i..i + |t|] == t
  }

  /** `t` occurs in `s` at some position (the reference definition of substring). */
  ghost predicate Occurs(t: string, s: string) {
    exists i: nat :: OccursAt(t, s, i)
  }

  /** Python's `t in s`, computed by scanning `s` from the left. */
  function Contains(s: string, t: string): bool
    decreases |s|
  {
    if |t| > |s| then false
    else if s[..|t|] == t then true
    else Contains(s[1..], t)
  }

  /** The scan agrees with the reference definition, in both directions. */
  lemma {:induction false} ContainsOccurs(s: string, t: string)
    ensures Contains(s, t) <==> Occurs(t, s)
    decreases |s|
  {
    if |t| > |s| {
    } else if s[..|t|] == t {
      assert OccursAt(t, s, 0);
    } else {
      ContainsOccurs(s[1..], t);
      if Occurs(t, s) {
        var i: nat :| OccursAt(t, s, i);
        assert i != 0;
        assert s[1..][i - 1..i - 1 + |t|] == s[i..i + |t|];
        assert OccursAt(t, s[1..], i - 1);
      }
      if Occurs(t, s[1..]) {
        var j: nat :| OccursAt(t, s[1..], j);
        assert s[j + 1..j + 1 + |t|] == s[1..][j..j + |t|];
        assert OccursAt(t, s, j + 1);
      }
    }
  }

  /** A witness position is enough to establish containment. */
  lemma ContainsAt(s: string, t: string, i: nat)
    requires i + |t| <= |s| && s[i..i + |t|] == t
    ensures Contains(s, t)
  {
    assert OccursAt(t, s, i);
    ContainsOccurs(s, t);
  }

  /** Django's `field__icontains=value`: `value` occurs in `field`, ignoring ASCII case. */
  function IContains(field: string, value: string): bool {
    Contains(Lower(field), Lower(value))
  }

  // ---- str.strip(), which Django's CharField applies to every value ------

  /** Python's `str.isspace()` for one character: what `str.strip()` removes. */
  predicate IsSpace(c: char) {
    || c == ' ' || '\t' <= c <= '\r' || '\U{1c}' <= c <= '\U{1f}' || c == '\U{85}' || c == '\U{a0}'
    || c == '\U{1680}' || '\U{2000}' <= c <= '\U{200a}' || c == '\U{2028}' || c == '\U{2029}'
    || c == '\U{202f}' || c == '\U{205f}' || c == '\U{3000}'
  }

  predicate AllSpace(s: string) {
    forall i :: 0 <= i < |s| ==> IsSpace(s[i])
  }

  lemma AllSpaceConcat(a: string, b: string)
    ensures AllSpace(a + b) <==> AllSpace(a) && AllSpace(b)
  {
    assert forall i :: 0 <= i < |a| ==> (a + b)[i] == a[i];
    assert forall i :: 0 <= i < |b| ==> (a + b)[|a| + i] == b[i];
  }

  /** Neither end of `s` is whitespace. */
  predicate Unpadded(s: string) {
    s == "" || (!IsSpace(s[0]) && !IsSpace(s[|s| - 1]))
  }

  /** How many characters `str.lstrip()` removes. */
  function LeadingSpace(s: string): (n: nat)
    ensures n <= |s| && AllSpace(s[..n])
    ensures n < |s| ==> !IsSpace(s[n])
    decreases |s|
  {
    if s != "" && IsSpace(s[0]) then
      var m := LeadingSpace(s[1..]);
      assert s[..1 + m] == [s[0]] + s[1..][..m];
      AllSpaceConcat([s[0]], s[1..][..m]);
      assert 1 + m < |s| ==> s[1 + m] == s[1..][m];
      1 + m
    else 0
  }

  /** How many characters `str.rstrip()` removes. */
  function TrailingSpace(s: string): (n: nat)
    ensures n <= |s| && AllSpace(s[|s| - n..])
    ensures n < |s| ==> !IsSpace(s[|s| - n - 1])
    decreases |s|
  {
    if s != "" && IsSpace(s[|s| - 1]) then
      var t := s[..|s| - 1];
      var m := TrailingSpace(t);
      assert s[|s| - (1 + m)..] == t[|t| - m..] + [s[|s| - 1]];
      AllSpaceConcat(t[|t| - m..], [s[|s| - 1]]);
      assert 1 + m < |s| ==> s[|s| - (1 + m) - 1] == t[|t| - m - 1];
      1 + m
    else 0
  }

  /** `s.strip()`: the whitespace at both ends removed. */
  function Strip(s: string): string {
    var rest := s[LeadingSpace(s)..];
    rest[..|rest| - TrailingSpace(rest)]
  }

  /** What `Strip` leaves is unpadded, and `s` is that text with whitespace around it. */
  lemma StripShape(s: string)
    ensures Unpadded(Strip(s))
    ensures LeadingSpace(s) + |Strip(s)| <= |s|
    ensures var r := Strip(s); var lead := s[..LeadingSpace(s)]; var trail := s[LeadingSpace(s) + |r|..];
      s == lead + r + trail && AllSpace(lead) && AllSpace(trail)
  {
    var lead := LeadingSpace(s);
    var rest := s[lead..];
    var k := |rest| - TrailingSpace(rest);
    assert Strip(s) == s[lead..lead + k];
    assert s[lead + k..] == rest[k..];
    assert k > 0 ==> s[lead + k - 1] == rest[k - 1];
    ShapeAt(s, lead, k);
  }

  /** Whitespace, then a text that starts and ends with non-blanks, then whitespace. */
  lemma ShapeAt(s: string, i: nat, k: nat)
    requires i + k <= |s| && AllSpace(s[..i]) && AllSpace(s[i + k..])
    requires k > 0 ==> !IsSpace(s[i]) && !IsSpace(s[i + k - 1])
    ensures Unpadded(s[i..i + k]) && s == s[..i] + s[i..i + k] + s[i + k..]
  {
    assert k > 0 ==> s[i..i + k][0] == s[i] && s[i..i + k][k - 1] == s[i + k - 1];
    SplitThree(s, i, i + k);
  }

  lemma SplitThree(s: string, i: nat, j: nat)
    requires i <= j <= |s|
    ensures s == s[..i] + s[i..j] + s[j..]
  {
  }

  /** Whitespace followed by a non-blank start: `lstrip` removes exactly that whitespace. */
  lemma LeadingSpaceOf(s: string, a: string, t: string)
    requires s == a + t && AllSpace(a) && (t == "" || !IsSpace(t[0]))
    ensures LeadingSpace(s) == |a|
  {
    assert forall i :: 0 <= i < |a| ==> s[i] == a[i];
    assert t != "" ==> s[|a|] == t[0];
  }

  /** A non-blank end followed by whitespace: `rstrip` removes exactly that whitespace. */
  lemma TrailingSpaceOf(s: string, t: string, b: string)
    requires s == t + b && AllSpace(b) && (t == "" || !IsSpace(t[|t| - 1]))
    ensures TrailingSpace(s) == |b|
  {
    assert forall i :: |t| <= i < |s| ==> s[i] == b[i - |t|];
    assert t != "" ==> s[|t| - 1] == t[|t| - 1];
  }

  /**
   * There is only one way to write `s` as whitespace, an unpadded text and
   * whitespace, and `Strip` finds it.
   */
  lemma StripUnique(s: string, a: string, r: string, b: string)
    requires s == a + r + b && AllSpace(a) && AllSpace(b) && Unpadded(r)
    ensures Strip(s) == r
  {
    if r == "" {
      assert s == a + b;
      assert s == s + "";
      LeadingSpaceOf(s, s, "");
    } else {
      assert s == a + (r + b);
      LeadingSpaceOf(s, a, r + b);
      assert s[|a|..] == r + b;
      TrailingSpaceOf(r + b, r, b);
      assert (r + b)[..|r|] == r;
    }
  }

  /** Stripping twice is stripping once. */
  lemma StripIdempotent(s: string)
    ensures Strip(Strip(s)) == Strip(s)
  {
    var r := Strip(s);
    StripShape(s);
    assert r == "" + r + "";
    StripUnique(r, "", r, "");
  }

  /** Whitespace added around a value is stripped away with the rest. */
  lemma StripIgnoresPadding(s: string, before: string, after: string)
    requires AllSpace(before) && AllSpace(after)
    ensures Strip(before + s + after) == Strip(s)
  {
    StripShape(s);
    StripPadded(s, before, after, s[..LeadingSpace(s)], Strip(s), s[LeadingSpace(s) + |Strip(s)|..]);
  }

  lemma StripPadded(s: string, before: string, after: string, a: string, r: string, b: string)
    requires s == a + r + b && Unpadded(r)
    requires AllSpace(before) && AllSpace(a) && AllSpace(b) && AllSpace(after)
    ensures Strip(before + s + after) == r
  {
    AllSpaceConcat(before, a);
    AllSpaceConcat(b, after);
    assert before + s + after == (before + a) + r + (b + after);
    StripUnique(before + s + after, before + a, r, b + after);
  }

  /** Only a value of nothing but whitespace strips to the empty string. */
  lemma StripEmpty(s: string)
    ensures Strip(s) == "" <==> AllSpace(s)
  {
    var r := Strip(s);
    assert r == "" ==> AllSpace(s) by {
      StripShape(s);
      var a, b := s[..LeadingSpace(s)], s[LeadingSpace(s) + |r|..];
      if r == "" {
        assert s == a + b;
        AllSpaceConcat(a, b);
      }
    }
    assert AllSpace(s) ==> r == "" by {
      if AllSpace(s) {
        assert s == s + "" + "";
        StripUnique(s, s, "", "");
      }
    }
  }

  predicate IsDigit(c: char) {
    '0' <= c <= '9'
  }

  predicate AllDigits(s: string) {
    forall i :: 0 <= i < |s| ==> IsDigit(s[i])
  }

  function Digit(d: nat): (c: char)
    requires d < 10
    ensures IsDigit(c)
  {
    ('0' as int + d) as char
  }

  function DigitValue(c: char): nat
    requires IsDigit(c)
  {
    c as int - '0' as int
  }

  /** Python's `str(n)` for a non-negative integer. */
  function NatToString(n: nat): string
    decreases n
  {
    if n < 10 then [Digit(n)] else NatToString(n / 10) + [Digit(n % 10)]
  }

  /** Python's `str(i)` for any integer. */
  function IntToString(i: int): string {
    if i < 0 then "-" + NatToString(-i) else NatToString(i)
  }

  /** The value of a string of decimal digits (Python's `int(s)` on digits). */
  function DigitsValue(s: string): nat
    requires AllDigits(s)
    decreases |s|
  {
    if s == [] then 0 else 10 * DigitsValue(s[..|s| - 1]) + DigitValue(s[|s| - 1])
  }

  /** `DigitsValue` inverts `NatToString`. */
  lemma {:induction false} NatToStringRoundTrip(n: nat)
    ensures |NatToString(n)| >= 1 && AllDigits(NatToString(n))
    ensures DigitsValue(NatToString(n)) == n
    decreases n
  {
    if n >= 10 {
      NatToStringRoundTrip(n / 10);
      var s := NatToString(n);
      assert s[..|s| - 1] == NatToString(n / 10);
    }
  }

  function Zeros(k: nat): (r: string)
    ensures |r| == k && AllDigits(r)
  {
    seq(k, i => '0')
  }

  /** Leading zeros do not change the value of a digit string. */
  lemma {:induction false} LeadingZeros(k: nat, s: string)
    requires AllDigits(s)
    ensures AllDigits(Zeros(k) + s) && DigitsValue(Zeros(k) + s) == DigitsValue(s)
    decreases |s|
  {
    var z := Zeros(k) + s;
    if s == [] {
      assert z == Zeros(k);
      ZerosValue(k);
    } else {
      LeadingZeros(k, s[..|s| - 1]);
      assert z[..|z| - 1] == Zeros(k) + s[..|s| - 1];
    }
  }

  lemma {:induction false} ZerosValue(k: nat)
    ensures DigitsValue(Zeros(k)) == 0
  {
    if k > 0 {
      ZerosValue(k - 1);
      assert Zeros(k)[..k - 1] == Zeros(k - 1);
    }
  }

  /** Python's `f"{n:0{width}d}"`: zero-padded on the left, never truncated. */
  function PadInt(n: nat, width: nat): (r: string)
    ensures |r| == if |NatToString(n)| < width then width else |NatToString(n)|
  {
    var s := NatToString(n);
    if |s| < width then Zeros(width - |s|) + s else s
  }

  /** Padding keeps the value, however large it is. */
  lemma PadIntValue(n: nat, width: nat)
    ensures AllDigits(PadInt(n, width)) && DigitsValue(PadInt(n, width)) == n
  {
    var s := NatToString(n);
    NatToStringRoundTrip(n);
    if |s| < width {
      LeadingZeros(width - |s|, s);
    }
  }

  function Pow10(k: nat): nat {
    if k == 0 then 1 else 10 * Pow10(k - 1)
  }

  /** A number below `10^k` has at most `k` digits (and always at least one). */
  lemma {:induction false} FewDigits(n: nat, k: nat)
    requires 1 <= k && n < Pow10(k)
    ensures |NatToString(n)| <= k
    decreases k
  {
    if n >= 10 {
      assert k > 1;
      FewDigits(n / 10, k - 1);
    }
  }
}
