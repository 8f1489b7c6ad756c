/** Decimal text of money amounts: `toFixed(2)`, `parseFloat`, `Number()` on
    the strings the application builds, and `String.prototype.replace` with a
    string pattern (which replaces the first occurrence only). */
module Numbers {
  import opened Wrappers
  import opened Text

  // ---------------------------------------------------------------- replace

  /** `s.replace(pat, rep)` for a non-empty string pattern: first occurrence only. */
  function ReplaceFirst(s: string, pat: string, rep: string): (r: string)
    requires pat != []
    decreases |s|
  {
    if |s| < |pat| then s
    else if s[..|pat|] == pat then rep + s[|pat|..]
    else [s[0]] + ReplaceFirst(s[1..], pat, rep)
  }

  /** With the pattern at the front, that occurrence is the one replaced. */
  lemma ReplaceFirstAtFront(pat: string, rest: string, rep: string)
    requires pat != []
    ensures ReplaceFirst(pat + rest, pat, rep) == rep + rest
  {
    assert (pat + rest)[..|pat|] == pat;
    assert (pat + rest)[|pat|..] == rest;
  }

  /** With a single-character pattern that does not occur, nothing is replaced. */
  lemma {:induction false} ReplaceFirstCharAbsent(s: string, c: char, rep: string)
    requires forall i | 0 <= i < |s| :: s[i] != c
    ensures ReplaceFirst(s, [c], rep) == s
  {
    if s != [] {
      assert s[..1] == [s[0]];
      ReplaceFirstCharAbsent(s[1..], c, rep);
      assert s == [s[0]] + s[1..];
    }
  }

  /** With a single-character pattern: the replacement happens at the first
      position holding it, and a character absent from `a` is found past `a`. */
  lemma {:induction false} ReplaceFirstCharAfter(a: string, c: char, b: string, rep: string)
    requires forall i | 0 <= i < |a| :: a[i] != c
    ensures ReplaceFirst(a + [c] + b, [c], rep) == a + rep + b
  {
    if a == [] {
      assert a + [c] + b == [c] + b;
      ReplaceFirstAtFront([c], b, rep);
    } else {
      var s := a + [c] + b;
      assert s[..1] == [a[0]];
      assert s[1..] == a[1..] + [c] + b;
      ReplaceFirstCharAfter(a[1..], c, b, rep);
      assert a == [a[0]] + a[1..];
    }
  }

  // ---------------------------------------------------------------- toFixed(2)

  /** The whole number of cents `x.toFixed(2)` prints: the nearest, ties away from zero. */
  function RoundCents(x: real): int {
    if x < 0.0 then -((-x * 100.0 + 0.5).Floor) else (x * 100.0 + 0.5).Floor
  }

  /** `parseFloat(x.toFixed(2))`: `x` rounded to two decimals. */
  function Round2(x: real): real {
    RoundCents(x) as real / 100.0
  }

  lemma {:induction false} SmallDigits(n: nat)
    requires n < 100
    ensures |NatToDigits(n)| <= 2
  {
  }

  /** `x.toFixed(2)`: sign when `x` is negative, integer part, `.`, two digits. */
  function ToFixed2(x: real): (r: string)
  {
    FixedText(x < 0.0, RoundCents(x))
  }

  /** An optional `-`, then the cents `c` (taken without sign) as units `.` two digits. */
  function FixedText(neg: bool, c: int): string {
    var m := Magnitude(c);
    (if neg then "-" else "") + (NatToDigits(m / 100) + ("." + PadStart(NatToDigits(m % 100), 2, '0')))
  }

  function Magnitude(c: int): nat {
    if c < 0 then -c else c
  }

  /** The amount the fixed-point text stands for: its sign and the cents `c`
      taken without sign, over 100. */
  function FixedValue(neg: bool, c: int): real {
    var v := Magnitude(c) as real / 100.0;
    if neg then -v else v
  }

  /** The text `calcularTotal` writes into the subtotal and total fields. */
  function MoneyText(x: real): string {
    "R$ " + ToFixed2(x)
  }

  // ---------------------------------------------------------------- parsing

  /** Length of the leading run of digits. */
  function DigitRun(s: string): (k: nat)
    ensures k <= |s| && AllDigits(s[..k])
    ensures k < |s| ==> !IsDigit(s[k])
  {
    if s != [] && IsDigit(s[0]) then
      var k := 1 + DigitRun(s[1..]);
      assert s[..k] == [s[0]] + s[1..][..k - 1];
      k
    else 0
  }

  lemma {:induction false} DigitRunOf(a: string, t: string)
    requires AllDigits(a) && (t == [] || !IsDigit(t[0]))
    ensures DigitRun(a + t) == |a|
  {
    if a == [] {
      assert a + t == t;
    } else {
      assert (a + t)[1..] == a[1..] + t;
      DigitRunOf(a[1..], t);
    }
  }

  /** The longest prefix of the form `-?D*(\.D*)?`, split into its parts. */
  datatype Lexed = Lexed(neg: bool, whole: string, frac: string, rest: string)

  function Lex(s: string): (l: Lexed)
    ensures AllDigits(l.whole) && AllDigits(l.frac)
  {
    if s != [] && s[0] == '-' then LexUnsigned(s[1..]).(neg := true) else LexUnsigned(s)
  }

  /** The digits, point and digits after the optional sign. */
  function LexUnsigned(t: string): (l: Lexed)
    ensures AllDigits(l.whole) && AllDigits(l.frac) && !l.neg
  {
    var k := DigitRun(t);
    var u := t[k..];
    if u != [] && u[0] == '.' then
      var f := DigitRun(u[1..]);
      Lexed(false, t[..k], u[1..][..f], u[1..][f..])
    else
      Lexed(false, t[..k], [], u)
  }

  /** The value of the digits `whole`, a decimal point and the digits `frac`. */
  function DecimalValue(whole: string, frac: string): real
    requires AllDigits(whole) && AllDigits(frac)
  {
    DigitsToNat(whole) as real + DigitsToNat(frac) as real / Pow10(|frac|) as real
  }

  function LexValue(l: Lexed): real
    requires AllDigits(l.whole) && AllDigits(l.frac)
  {
    var mag := DecimalValue(l.whole, l.frac);
    if l.neg then -mag else mag
  }

  /** `parseFloat(s)` on text without leading blanks, `+`, exponent or
      `Infinity`: the value of the longest decimal prefix, `None` for NaN. */
  function ParseFloat(s: string): (r: Option<real>)
    ensures r.None? <==> Lex(s).whole == [] && Lex(s).frac == []
  {
    var l := Lex(s);
    if l.whole == [] && l.frac == [] then None else Some(LexValue(l))
  }

  /** `Number(s)` on text over digits, `.`, `,` and `-`: the empty string is 0,
      anything but one whole decimal literal is NaN. */
  function NumberOf(s: string): (r: Option<real>)
    ensures s == [] ==> r == Some(0.0)
    ensures r.Some? && s != [] ==> Lex(s).rest == []
  {
    if s == [] then Some(0.0)
    else
      var l := Lex(s);
      if l.rest != [] || (l.whole == [] && l.frac == []) then None else Some(LexValue(l))
  }

  /** The sign is read first; the rest is lexed as unsigned. */
  lemma LexSigned(neg: bool, t: string)
    requires t == [] || t[0] != '-'
    ensures Lex((if neg then "-" else "") + t) == LexUnsigned(t).(neg := neg)
  {
    if neg {
      assert ("-" + t)[1..] == t;
    } else {
      assert "" + t == t;
    }
  }

  /** How `Lex` splits digits, a point and digits that end the string. */
  lemma LexUnsignedPoint(a: string, b: string)
    requires AllDigits(a) && AllDigits(b)
    ensures LexUnsigned(a + ("." + b)) == Lexed(false, a, b, [])
  {
    var t := a + ("." + b);
    DigitRunOf(a, "." + b);
    assert t[..|a|] == a;
    assert t[|a|..] == "." + b;
    assert ("." + b)[1..] == b;
    DigitRunOf(b, []);
    assert b + [] == b;
    assert b[..|b|] == b;
  }

  /** How `Lex` splits a sign, digits, a point and digits. */
  lemma LexPoint(neg: bool, a: string, b: string)
    requires AllDigits(a) && AllDigits(b)
    ensures Lex((if neg then "-" else "") + (a + ("." + b))) == Lexed(neg, a, b, [])
  {
    LexUnsignedPoint(a, b);
    var t := a + ("." + b);
    assert t[0] != '-' by {
      if a != [] {
        assert t[0] == a[0];
      }
    }
    LexSigned(neg, t);
  }

  /** How `Lex` reads a sign and a run of digits that ends the string. */
  lemma LexOfInteger(neg: bool, a: string)
    requires AllDigits(a)
    ensures Lex((if neg then "-" else "") + a) == Lexed(neg, a, [], [])
  {
    DigitRunOf(a, []);
    assert a + [] == a;
    assert a[..|a|] == a;
    assert LexUnsigned(a) == Lexed(false, a, [], []);
    LexSigned(neg, a);
  }

  lemma PadTwoDigits(r: nat)
    requires r < 100
    ensures var p := PadStart(NatToDigits(r), 2, '0');
      |p| == 2 && AllDigits(p) && DigitsToNat(p) == r
  {
    SmallDigits(r);
    ZeroPadKeepsValue(NatToDigits(r), 2);
    NatToDigitsRoundTrip(r);
  }

  lemma CentsSplit(m: nat)
    ensures (m / 100) as real + (m % 100) as real / 100.0 == m as real / 100.0
  {
  }

  /** The magnitude printed by `toFixed(2)`, and its sign. */
  lemma RoundCentsSign(x: real)
    ensures x < 0.0 ==> RoundCents(x) <= 0
    ensures x >= 0.0 ==> RoundCents(x) >= 0
  {
  }

  /** How `Lex` splits the fixed-point text. */
  lemma LexFixedText(neg: bool, c: int)
    ensures var m := Magnitude(c);
      Lex(FixedText(neg, c)) == Lexed(neg, NatToDigits(m / 100), PadStart(NatToDigits(m % 100), 2, '0'), [])
  {
    var m := Magnitude(c);
    var q, p := NatToDigits(m / 100), PadStart(NatToDigits(m % 100), 2, '0');
    PadTwoDigits(m % 100);
    LexPoint(neg, q, p);
  }

  /** The value of the literal in the fixed-point text is the signed number of cents over 100. */
  lemma FixedTextValue(neg: bool, c: int)
    ensures Lex(FixedText(neg, c)).frac != []
    ensures LexValue(Lex(FixedText(neg, c))) == FixedValue(neg, c)
  {
    var m := Magnitude(c);
    var q, p := NatToDigits(m / 100), PadStart(NatToDigits(m % 100), 2, '0');
    LexFixedText(neg, c);
    PadTwoDigits(m % 100);
    NatToDigitsRoundTrip(m / 100);
    var l := Lexed(neg, q, p, []);
    assert Lex(FixedText(neg, c)) == l;
    assert Pow10(|p|) == 100;
    CentsSplit(m);
    assert DecimalValue(q, p) == m as real / 100.0;
  }

  /** Reading the fixed-point text back gives the signed number of cents over 100. */
  lemma ParseFixedText(neg: bool, c: int)
    ensures ParseFloat(FixedText(neg, c)) == Some(FixedValue(neg, c))
  {
    FixedTextValue(neg, c);
  }

  lemma SignedCents(neg: bool, c: int)
    requires neg ==> c <= 0
    requires !neg ==> c >= 0
    ensures FixedValue(neg, c) == c as real / 100.0
  {
  }

  /** Fixed-point text whose sign agrees with its cents reads back as the cents over 100. */
  lemma ParseSignedCents(neg: bool, c: int)
    requires neg ==> c <= 0
    requires !neg ==> c >= 0
    ensures ParseFloat(FixedText(neg, c)) == Some(c as real / 100.0)
  {
    ParseFixedText(neg, c);
    SignedCents(neg, c);
  }

  /** `toFixed(2)` text read back with `parseFloat` is the rounded amount. */
  lemma ParseToFixed2(x: real)
    ensures ParseFloat(ToFixed2(x)) == Some(Round2(x))
  {
    var c := RoundCents(x);
    calc {
      ParseFloat(ToFixed2(x));
      ParseFloat(FixedText(x < 0.0, c));
      { RoundCentsSign(x); ParseSignedCents(x < 0.0, c); }
      Some(c as real / 100.0);
      Some(Round2(x));
    }
  }

  /** `toFixed(2)` moves a value by at most half a cent. */
  lemma Round2Close(x: real)
    ensures -0.005 <= Round2(x) - x <= 0.005
  {
    var c := RoundCents(x);
    if x < 0.0 {
      var f := (-x * 100.0 + 0.5).Floor;
      assert f as real <= -x * 100.0 + 0.5 < f as real + 1.0;
    } else {
      var f := (x * 100.0 + 0.5).Floor;
      assert f as real <= x * 100.0 + 0.5 < f as real + 1.0;
    }
  }

  /** A literal without a fractional part has the value of its digits. */
  lemma LexValueWhole(neg: bool, a: string, rest: string)
    requires AllDigits(a)
    ensures LexValue(Lexed(neg, a, [], rest)) == if neg then -(DigitsToNat(a) as real) else DigitsToNat(a) as real
  {
    assert DigitsToNat([]) == 0;
    assert Pow10(0) == 1;
    assert 0 as real / 1 as real == 0.0;
  }

  // ---------------------------------------------------------------- NaN-aware arithmetic

  /** `a + b` on numbers that may be NaN (`None`): NaN absorbs. */
  function AddNumbers(a: Option<real>, b: Option<real>): (r: Option<real>)
    ensures r.Some? <==> a.Some? && b.Some?
  {
    if a.Some? && b.Some? then Some(a.value + b.value) else None
  }

  /** `a - b` on numbers that may be NaN (`None`): NaN absorbs. */
  function SubNumbers(a: Option<real>, b: Option<real>): (r: Option<real>)
    ensures r.Some? <==> a.Some? && b.Some?
  {
    if a.Some? && b.Some? then Some(a.value - b.value) else None
  }
}
