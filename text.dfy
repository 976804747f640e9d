/**
 * The few JavaScript string operations the dashboard formats with:
 * String.prototype.includes, Number.prototype.toString for integers,
 * padStart and toFixed(2) applied to an amount held in cents.
 */
module Text {

  predicate OccursAt(s: string, t: string, k: int) {
    0 <= k && k + |t| <= |s| && s[k..k + |t|] == t
  }

  /** String.prototype.includes: `t` occurs somewhere inside `s`. */
  predicate Contains(s: string, t: string) {
    exists k :: 0 <= k <= |s| - |t| && OccursAt(s, t, k)
  }

  lemma ContainsMiddle(a: string, t: string, b: string)
    ensures Contains(a + t + b, t)
  {
    var s := a + t + b;
    assert s[|a|..|a| + |t|] == t;
    assert OccursAt(s, t, |a|);
  }

  predicate IsDigit(c: char) {
    '0' <= c <= '9'
  }

  predicate AllDigits(s: string) {
    forall i :: 0 <= i < |s| ==> IsDigit(s[i])
  }

  function DigitChar(d: nat): (c: char)
    requires d < 10
    ensures IsDigit(c) && c as int - '0' as int == d
  {
    ('0' as int + d) as char
  }

  /** The number a string of decimal digits denotes. */
  function DigitsValue(s: string): nat
    requires AllDigits(s)
  {
    if s == [] then 0
    else DigitsValue(s[..|s| - 1]) * 10 + (s[|s| - 1] as int - '0' as int)
  }

  /** Number.prototype.toString() of a non-negative integer: no leading zeros. */
  function NatToString(n: nat): (r: string)
    ensures |r| >= 1 && AllDigits(r)
    ensures |r| > 1 ==> r[0] != '0'
  {
    if n < 10 then [DigitChar(n)] else NatToString(n / 10) + [DigitChar(n % 10)]
  }

  /** Number.prototype.toString() of any integer. */
  function IntToString(n: int): string {
    if n < 0 then "-" + NatToString(-n) else NatToString(n)
  }

  lemma {:induction false} NatToStringRoundTrip(n: nat)
    ensures DigitsValue(NatToString(n)) == n
  {
    if n >= 10 {
      var s := NatToString(n);
      assert s[..|s| - 1] == NatToString(n / 10);
      NatToStringRoundTrip(n / 10);
    }
  }

  function Repeat(c: char, n: nat): (r: string)
    ensures |r| == n && forall i :: 0 <= i < n ==> r[i] == c
  {
    seq(n, _ => c)
  }

  /**
   * String.prototype.padStart(width, c): `s` left-padded with `c` to at
   * least `width` characters; `s` itself ends the result unchanged.
   */
  function PadStart(s: string, width: nat, c: char): (r: string)
    ensures |r| == if |s| >= width then |s| else width
    ensures r[|r| - |s|..] == s
    ensures forall i :: 0 <= i < |r| - |s| ==> r[i] == c
  {
    if |s| >= width then s else Repeat(c, width - |s|) + s
  }

  lemma {:induction false} ZerosValue(z: string)
    requires forall i :: 0 <= i < |z| ==> z[i] == '0'
    ensures AllDigits(z) && DigitsValue(z) == 0
  {
    if z != [] {
      ZerosValue(z[..|z| - 1]);
    }
  }

  /** Leading zeros do not change the number a digit string denotes. */
  lemma {:induction false} LeadingZeros(z: string, s: string)
    requires forall i :: 0 <= i < |z| ==> z[i] == '0'
    requires AllDigits(s)
    ensures AllDigits(z + s) && DigitsValue(z + s) == DigitsValue(s)
  {
    if s == [] {
      assert z + s == z;
      ZerosValue(z);
    } else {
      var t := z + s;
      assert t[..|t| - 1] == z + s[..|s| - 1];
      assert t[|t| - 1] == s[|s| - 1];
      LeadingZeros(z, s[..|s| - 1]);
    }
  }

  /** A zero-padded number still denotes that number. */
  lemma PaddedNumberValue(n: nat, width: nat)
    ensures AllDigits(PadStart(NatToString(n), width, '0'))
    ensures DigitsValue(PadStart(NatToString(n), width, '0')) == n
  {
    var d := NatToString(n);
    var r := PadStart(d, width, '0');
    var z := r[..|r| - |d|];
    assert r == z + d;
    LeadingZeros(z, d);
    NatToStringRoundTrip(n);
  }

  lemma NatToStringBelow100(n: nat)
    requires n < 100
    ensures |NatToString(n)| <= 2
  {
    if n >= 10 {
      assert NatToString(n) == NatToString(n / 10) + [DigitChar(n % 10)];
    }
  }

  /** The unsigned part of toFixed(2): whole units, a point, two digits of cents. */
  function UnsignedFixed2(a: nat): string {
    NatToString(a / 100) + "." + PadStart(NatToString(a % 100), 2, '0')
  }

  /** The cents part: exactly two digits denoting the cents. */
  lemma TwoDigitCents(c: nat)
    requires c < 100
    ensures var f := PadStart(NatToString(c), 2, '0'); |f| == 2 && AllDigits(f) && DigitsValue(f) == c
  {
    NatToStringBelow100(c);
    PaddedNumberValue(c, 2);
  }

  /** `t` is whole units, a point and exactly two digits of cents, together denoting `a` cents. */
  predicate DenotesCents(t: string, a: nat) {
    && |t| >= 4 && t[|t| - 3] == '.'
    && AllDigits(t[..|t| - 3]) && AllDigits(t[|t| - 2..])
    && DigitsValue(t[..|t| - 3]) * 100 + DigitsValue(t[|t| - 2..]) == a
  }

  /** The text reads back as the amount: whole units times 100 plus exactly two digits of cents. */
  lemma UnsignedFixed2Denotes(a: nat)
    ensures DenotesCents(UnsignedFixed2(a), a)
  {
    var w := NatToString(a / 100);
    var f := PadStart(NatToString(a % 100), 2, '0');
    TwoDigitCents(a % 100);
    NatToStringRoundTrip(a / 100);
    var t := w + "." + f;
    assert t[..|t| - 3] == w;
    assert t[|t| - 2..] == f;
  }

  /** Number.prototype.toFixed(2) of an amount held as integer cents. */
  function ToFixed2(cents: int): string {
    if cents < 0 then "-" + UnsignedFixed2(-cents) else UnsignedFixed2(cents)
  }

  lemma ToFixed2NonNegative(cents: nat)
    ensures DenotesCents(ToFixed2(cents), cents)
  {
    var u := UnsignedFixed2(cents);
    UnsignedFixed2Denotes(cents);
    assert ToFixed2(cents) == u;
  }

  lemma ToFixed2Negative(cents: int)
    requires cents < 0
    ensures ToFixed2(cents)[0] == '-' && DenotesCents(ToFixed2(cents)[1..], -cents)
  {
    var u := UnsignedFixed2(-cents);
    UnsignedFixed2Denotes(-cents);
    assert ToFixed2(cents) == "-" + u;
    assert ToFixed2(cents)[1..] == u;
  }

  /** toFixed(2) of cents: a minus sign for a negative amount, then the magnitude as whole units and two digits of cents. */
  lemma ToFixed2Denotes(cents: int)
    ensures cents >= 0 ==> DenotesCents(ToFixed2(cents), cents)
    ensures cents < 0 ==> ToFixed2(cents)[0] == '-' && DenotesCents(ToFixed2(cents)[1..], -cents)
  {
    if cents < 0 {
      ToFixed2Negative(cents);
    } else {
      ToFixed2NonNegative(cents);
    }
  }
}
