/** String primitives the JavaScript sources rely on: the `\D` filter,
    decimal digits, `padStart`, `toLowerCase` and `trim`. */
module Text {

  predicate IsDigit(c: char) {
    '0' <= c <= '9'
  }

  predicate AllDigits(s: string) {
    forall i | 0 <= i < |s| :: IsDigit(s[i])
  }

  /** `s.replace(/\D/g, '')`: the decimal digits of `s`, in order. */
  function DigitsOnly(s: string): (r: string)
    ensures AllDigits(r)
    ensures |r| <= |s|
  {
    if s == [] then []
    else if IsDigit(s[0]) then [s[0]] + DigitsOnly(s[1..])
    else DigitsOnly(s[1..])
  }

  /** Filtering a string that is already all digits changes nothing. */
  lemma {:induction false} DigitsOnlyKeepsDigits(s: string)
    requires AllDigits(s)
    ensures DigitsOnly(s) == s
  {
    if s != [] {
      DigitsOnlyKeepsDigits(s[1..]);
    }
  }

  /** The `\D` filter distributes over concatenation. */
  lemma {:induction false} DigitsOnlyConcat(a: string, b: string)
    ensures DigitsOnly(a + b) == DigitsOnly(a) + DigitsOnly(b)
  {
    if a == [] {
      assert a + b == b;
    } else {
      assert (a + b)[1..] == a[1..] + b;
      DigitsOnlyConcat(a[1..], b);
    }
  }

  function DigitValue(c: char): (d: nat)
    requires IsDigit(c)
    ensures d < 10
  {
    (c as int) - ('0' as int)
  }

  function DigitChar(d: nat): (c: char)
    requires d < 10
    ensures IsDigit(c) && DigitValue(c) == d
  {
    ('0' as int + d) as char
  }

  function Pow10(k: nat): (p: nat)
    ensures p >= 1
  {
    if k == 0 then 1 else 10 * Pow10(k - 1)
  }

  /** `String(n)` for a natural number: decimal digits, no leading zero. */
  function NatToDigits(n: nat): (s: string)
    ensures AllDigits(s) && 1 <= |s|
    ensures |s| > 1 ==> s[0] != '0'
    decreases n
  {
    if n < 10 then [DigitChar(n)] else NatToDigits(n / 10) + [DigitChar(n % 10)]
  }

  /** The value of a string of decimal digits (the empty string reads as 0). */
  function DigitsToNat(s: string): nat
    requires AllDigits(s)
  {
    if s == [] then 0 else 10 * DigitsToNat(s[..|s| - 1]) + DigitValue(s[|s| - 1])
  }

  /** Reading back the decimal text of `n` gives `n`. */
  lemma {:induction false} NatToDigitsRoundTrip(n: nat)
    ensures DigitsToNat(NatToDigits(n)) == n
  {
    if n >= 10 {
      var s := NatToDigits(n);
      assert s[..|s| - 1] == NatToDigits(n / 10);
      NatToDigitsRoundTrip(n / 10);
    }
  }

  /** Positional value of a concatenation of digit strings. */
  lemma {:induction false} DigitsToNatConcat(a: string, b: string)
    requires AllDigits(a) && AllDigits(b)
    ensures AllDigits(a + b)
    ensures DigitsToNat(a + b) == DigitsToNat(a) * Pow10(|b|) + DigitsToNat(b)
  {
    if b == [] {
      assert a + b == a;
    } else {
      var ab := a + b;
      var b' := b[..|b| - 1];
      assert ab[..|ab| - 1] == a + b';
      assert ab[|ab| - 1] == b[|b| - 1];
      DigitsToNatConcat(a, b');
      var x, p, y, d := DigitsToNat(a), Pow10(|b'|), DigitsToNat(b'), DigitValue(b[|b| - 1]);
      assert DigitsToNat(ab) == 10 * (x * p + y) + d;
      assert Pow10(|b|) == 10 * p;
      assert DigitsToNat(b) == 10 * y + d;
      ShiftDigit(x, p, y, d);
    }
  }

  lemma ShiftDigit(x: int, p: int, y: int, d: int)
    ensures 10 * (x * p + y) + d == x * (10 * p) + (10 * y + d)
  {
  }

  /** A run of zeros reads as 0. */
  lemma {:induction false} ZerosValue(k: nat)
    ensures AllDigits(seq(k, _ => '0'))
    ensures DigitsToNat(seq(k, _ => '0')) == 0
  {
    if k > 0 {
      var z := seq(k, _ => '0');
      assert z[..k - 1] == seq(k - 1, _ => '0');
      ZerosValue(k - 1);
    }
  }

  /** `s.padStart(width, fill)`: `fill` characters in front of `s` up to `width`. */
  function PadStart(s: string, width: nat, fill: char): (r: string)
    ensures |r| == if |s| >= width then |s| else width
    ensures r[|r| - |s|..] == s
    ensures forall i | 0 <= i < |r| - |s| :: r[i] == fill
  {
    if |s| >= width then s else seq(width - |s|, _ => fill) + s
  }

  /** Zero-padding a digit string does not change its value. */
  lemma ZeroPadKeepsValue(s: string, width: nat)
    requires AllDigits(s)
    ensures AllDigits(PadStart(s, width, '0'))
    ensures DigitsToNat(PadStart(s, width, '0')) == DigitsToNat(s)
  {
    if |s| < width {
      ZerosValue(width - |s|);
      DigitsToNatConcat(seq(width - |s|, _ => '0'), s);
    }
  }

  /** The whitespace and line terminators that JavaScript's `\s` and `trim` recognise. */
  predicate IsSpace(c: char) {
    || ('\t' <= c <= '\r')
    || c == ' ' || c == '\U{A0}' || c == '\U{1680}'
    || ('\U{2000}' <= c <= '\U{200A}')
    || c == '\U{2028}' || c == '\U{2029}' || c == '\U{202F}' || c == '\U{205F}'
    || c == '\U{3000}' || c == '\U{FEFF}'
  }

  predicate NoSpace(s: string) {
    forall i | 0 <= i < |s| :: !IsSpace(s[i])
  }

  function TrimStart(s: string): (r: string)
    ensures |r| <= |s| && r == s[|s| - |r|..]
    ensures r == [] || !IsSpace(r[0])
  {
    if s != [] && IsSpace(s[0]) then TrimStart(s[1..]) else s
  }

  function TrimEnd(s: string): (r: string)
    ensures |r| <= |s| && r == s[..|r|]
    ensures r == [] || !IsSpace(r[|r| - 1])
  {
    if s != [] && IsSpace(s[|s| - 1]) then TrimEnd(s[..|s| - 1]) else s
  }

  /** `s.trim()`: the result neither starts nor ends with whitespace. */
  function Trim(s: string): (r: string)
    ensures r == [] || (!IsSpace(r[0]) && !IsSpace(r[|r| - 1]))
  {
    TrimEnd(TrimStart(s))
  }

  predicate IsUpper(c: char) {
    ('A' <= c <= 'Z') || ('\U{C0}' <= c <= '\U{DE}' && c != '\U{D7}')
  }

  /** `toLowerCase` on one character: ASCII and Latin-1 capitals move down by 32. */
  function LowerChar(c: char): (r: char)
    ensures !IsUpper(r)
    ensures IsDigit(r) <==> IsDigit(c)
    ensures IsSpace(r) <==> IsSpace(c)
  {
    if IsUpper(c) then ((c as int) + 32) as char else c
  }

  /** `s.toLowerCase()`: same length, character by character. */
  function Lower(s: string): (r: string)
    ensures |r| == |s|
    ensures forall i | 0 <= i < |s| :: r[i] == LowerChar(s[i])
  {
    seq(|s|, i requires 0 <= i < |s| => LowerChar(s[i]))
  }

  /** Lower-casing twice is lower-casing once. */
  lemma LowerIdempotent(s: string)
    ensures Lower(Lower(s)) == Lower(s)
  {
  }

  /** Text without capitals is its own lower-case form. */
  lemma LowerNoUpper(s: string)
    requires forall i | 0 <= i < |s| :: !IsUpper(s[i])
    ensures Lower(s) == s
  {
  }

  /** `${prefix}${year}${String(n).padStart(4, '0')}`: the document numbers of
      quotes (`ORC`) and service orders (`OS`). */
  function Numbered(prefix: string, year: nat, n: nat): (r: string)
    ensures |r| >= |prefix| + 5 && r[..|prefix|] == prefix
  {
    prefix + NatToDigits(year) + PadStart(NatToDigits(n), 4, '0')
  }

  /** The counter part of a number reads back as the counter. */
  lemma NumberedCounter(prefix: string, year: nat, n: nat)
    ensures var r := Numbered(prefix, year, n);
      var tail := r[|prefix| + |NatToDigits(year)|..];
      AllDigits(tail) && DigitsToNat(tail) == n
  {
    var pad := PadStart(NatToDigits(n), 4, '0');
    assert Numbered(prefix, year, n)[|prefix| + |NatToDigits(year)|..] == pad;
    ZeroPadKeepsValue(NatToDigits(n), 4);
    NatToDigitsRoundTrip(n);
  }

  /** Within one prefix and year, different counters give different numbers. */
  lemma NumberedInjective(prefix: string, year: nat, n: nat, m: nat)
    requires n != m
    ensures Numbered(prefix, year, n) != Numbered(prefix, year, m)
  {
    NumberedCounter(prefix, year, n);
    NumberedCounter(prefix, year, m);
  }
}
