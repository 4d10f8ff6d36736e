/**
 * Decimal literals as the scanner collects them: a maximal run of digits and
 * dots. Parsing such a run stands in for the numeric conversion of the
 * runtime library, with exact rational values instead of binary floating point.
 */
module Numbers {
  import opened Wrappers

  predicate IsDigit(c: char) {
    '0' <= c <= '9'
  }

  /** A character the scanner absorbs into a number once a number has started. */
  predicate IsNumberChar(c: char) {
    IsDigit(c) || c == '.'
  }

  predicate AllDigits(s: string) {
    forall k :: 0 <= k < |s| ==> IsDigit(s[k])
  }

  predicate AllNumberChars(s: string) {
    forall k :: 0 <= k < |s| ==> IsNumberChar(s[k])
  }

  function DigitValue(c: char): (d: nat)
    requires IsDigit(c)
    ensures d < 10
  {
    c as int - '0' as int
  }

  /** The natural number a string of decimal digits denotes (most significant first). */
  function DigitsValue(s: string): nat
    requires AllDigits(s)
  {
    if s == [] then 0 else DigitsValue(s[..|s| - 1]) * 10 + DigitValue(s[|s| - 1])
  }

  function Pow10(n: nat): (p: nat)
    ensures p >= 1
  {
    if n == 0 then 1 else 10 * Pow10(n - 1)
  }

  /** Number of '.' characters in s. */
  function DotCount(s: string): nat {
    if s == [] then 0 else (if s[0] == '.' then 1 else 0) + DotCount(s[1..])
  }

  /** Position of the first '.', or |s| when there is none. */
  function DotIndex(s: string): (k: nat)
    ensures k <= |s|
    ensures k < |s| ==> s[k] == '.'
    ensures forall j :: 0 <= j < k ==> s[j] != '.'
  {
    if s == [] then 0 else if s[0] == '.' then 0 else 1 + DotIndex(s[1..])
  }

  /**
   * The strings the numeric conversion accepts among runs of digits and dots:
   * at most one dot and at least one digit ("12", "1.5", "1." and ".5", but
   * not "1.2.3", "." or "").
   */
  predicate IsDecimalLiteral(s: string) {
    AllNumberChars(s) && DotCount(s) <= 1 && DotCount(s) < |s|
  }

  /**
   * Converts a decimal literal: the digits before the dot are the whole part,
   * the digits after it the fraction.
   */
  function ParseDecimal(s: string): (r: Option<real>)
    ensures r.Some? <==> IsDecimalLiteral(s)
    ensures r.Some? && AllDigits(s) ==> r.value == DigitsValue(s) as real
    ensures r.Some? ==> r.value >= 0.0
  {
    var k := DotIndex(s);
    var whole := s[..k];
    var fraction := if k < |s| then s[k + 1..] else [];
    DecimalShape(s);
    if AllDigits(whole) && AllDigits(fraction) && 0 < |whole| + |fraction| then
      assert AllDigits(s) ==> DotIndex(s) == |s| && whole == s && fraction == [] by {
        if AllDigits(s) { NoDotIndexInDigits(s); }
      }
      Some(Scaled(DigitsValue(whole), DigitsValue(fraction), |fraction|))
    else
      None
  }

  lemma {:induction false} DotCountAppend(a: string, b: string)
    ensures DotCount(a + b) == DotCount(a) + DotCount(b)
  {
    if a == [] {
      assert a + b == b;
    } else {
      assert (a + b)[1..] == a[1..] + b;
      DotCountAppend(a[1..], b);
    }
  }

  lemma {:induction false} DigitsHaveNoDots(s: string)
    ensures AllDigits(s) <==> AllNumberChars(s) && DotCount(s) == 0
  {
    if s != [] {
      DigitsHaveNoDots(s[1..]);
      assert AllDigits(s) <==> IsDigit(s[0]) && AllDigits(s[1..]);
      assert AllNumberChars(s) <==> IsNumberChar(s[0]) && AllNumberChars(s[1..]);
    }
  }

  lemma {:induction false} NoDotIndexInDigits(s: string)
    requires AllDigits(s)
    ensures DotIndex(s) == |s|
  {
    if s != [] {
      NoDotIndexInDigits(s[1..]);
    }
  }

  lemma {:induction false} NoDotMeansNoDotCount(s: string)
    requires forall j :: 0 <= j < |s| ==> s[j] != '.'
    ensures DotCount(s) == 0
  {
    if s != [] {
      NoDotMeansNoDotCount(s[1..]);
    }
  }

  lemma NumberCharsAppend(a: string, b: string)
    ensures AllNumberChars(a + b) <==> AllNumberChars(a) && AllNumberChars(b)
  {
    if AllNumberChars(a) && AllNumberChars(b) {
      forall j | 0 <= j < |a + b| ensures IsNumberChar((a + b)[j]) {
        if j >= |a| {
          assert (a + b)[j] == b[j - |a|];
        }
      }
    }
    if AllNumberChars(a + b) {
      assert forall j :: 0 <= j < |a| ==> a[j] == (a + b)[j];
      assert forall j :: 0 <= j < |b| ==> b[j] == (a + b)[|a| + j];
    }
  }

  /** Splitting at the first dot relates the pieces to IsDecimalLiteral. */
  lemma DecimalShape(s: string)
    ensures var k := DotIndex(s);
            var fraction := if k < |s| then s[k + 1..] else [];
            IsDecimalLiteral(s) <==> AllDigits(s[..k]) && AllDigits(fraction) && 0 < |s[..k]| + |fraction|
  {
    var k := DotIndex(s);
    var whole := s[..k];
    NoDotMeansNoDotCount(whole);
    DigitsHaveNoDots(whole);
    if k < |s| {
      DecimalShapeWithDot(s, whole, s[k + 1..]);
    } else {
      assert whole == s;
    }
  }

  lemma DecimalShapeWithDot(s: string, whole: string, fraction: string)
    requires s == whole + ['.'] + fraction && DotCount(whole) == 0
    ensures IsDecimalLiteral(s) <==> AllNumberChars(whole) && AllDigits(fraction) && 0 < |whole| + |fraction|
  {
    DotCountAppend(whole + ['.'], fraction);
    DotCountAppend(whole, ['.']);
    assert DotCount(['.']) == 1;
    DigitsHaveNoDots(fraction);
    NumberCharsAppend(whole + ['.'], fraction);
    NumberCharsAppend(whole, ['.']);
    assert AllNumberChars(['.']);
    assert DotCount(s) == 1 + DotCount(fraction);
    assert AllNumberChars(s) <==> AllNumberChars(whole) && AllNumberChars(fraction);
  }

  lemma AllDigitsAppend(a: string, b: string)
    requires AllDigits(a) && AllDigits(b)
    ensures AllDigits(a + b)
  {
    forall j | 0 <= j < |a + b| ensures IsDigit((a + b)[j]) {
      if j >= |a| {
        assert (a + b)[j] == b[j - |a|];
      }
    }
  }

  lemma {:induction false} DigitsValueAppend(a: string, b: string)
    requires AllDigits(a) && AllDigits(b)
    decreases |b|
    ensures AllDigits(a + b)
    ensures DigitsValue(a + b) == DigitsValue(a) * Pow10(|b|) + DigitsValue(b)
  {
    AllDigitsAppend(a, b);
    if b == [] {
      assert a + b == a;
    } else {
      var c := b[..|b| - 1];
      var d := DigitValue(b[|b| - 1]);
      assert (a + b)[..|a + b| - 1] == a + c;
      assert (a + b)[|a + b| - 1] == b[|b| - 1];
      assert AllDigits(c);
      DigitsValueAppend(a, c);
      assert DigitsValue(a + b) == DigitsValue(a + c) * 10 + d;
      assert DigitsValue(b) == DigitsValue(c) * 10 + d;
      ShiftDigit(DigitsValue(a), Pow10(|c|), DigitsValue(c), d);
    }
  }

  lemma ShiftDigit(x: nat, p: nat, y: nat, d: nat)
    ensures (x * p + y) * 10 + d == x * (10 * p) + (y * 10 + d)
  {
  }

  /**
   * A literal with a dot denotes the number its digits denote without the
   * dot, divided by one power of ten per digit after the dot.
   */
  lemma DecimalValueScaled(s: string)
    requires IsDecimalLiteral(s) && DotIndex(s) < |s|
    ensures AllDigits(Undotted(s))
    ensures ParseDecimal(s) == Some(DigitsValue(Undotted(s)) as real / Pow10(|s| - DotIndex(s) - 1) as real)
  {
    var k := DotIndex(s);
    var whole, fraction := s[..k], s[k + 1..];
    assert |fraction| == |s| - k - 1;
    assert Undotted(s) == whole + fraction;
    DecimalShape(s);
    ScaledDigits(whole, fraction);
  }

  /** The digits of a literal with a dot, with the dot taken out. */
  function Undotted(s: string): (u: string)
    requires DotIndex(s) < |s|
    ensures |u| + 1 == |s|
  {
    s[..DotIndex(s)] + s[DotIndex(s) + 1..]
  }

  /** The number `whole` followed by the `places` fraction digits that denote `fraction`. */
  function Scaled(whole: nat, fraction: nat, places: nat): real {
    whole as real + fraction as real / Pow10(places) as real
  }

  lemma ScaledDigits(whole: string, fraction: string)
    requires AllDigits(whole) && AllDigits(fraction)
    ensures AllDigits(whole + fraction)
    ensures Scaled(DigitsValue(whole), DigitsValue(fraction), |fraction|)
            == DigitsValue(whole + fraction) as real / Pow10(|fraction|) as real
  {
    DigitsValueAppend(whole, fraction);
    Unscale(DigitsValue(whole), DigitsValue(fraction), |fraction|, DigitsValue(whole + fraction));
  }

  lemma Unscale(w: nat, f: nat, k: nat, n: nat)
    requires n == w * Pow10(k) + f
    ensures Scaled(w, f, k) == n as real / Pow10(k) as real
  {
    var q := Pow10(k);
    CastSum(w, q, f);
    DivideSum(w as real, f as real, q as real);
  }

  lemma CastSum(w: nat, q: nat, f: nat)
    ensures (w * q + f) as real == w as real * q as real + f as real
  {
  }

  lemma DivideSum(x: real, y: real, q: real)
    requires q > 0.0
    ensures (x * q + y) / q == x + y / q
  {
  }

  /** Decimal digits of n, most significant first, without leading zeros. */
  function NatToDigits(n: nat): (s: string)
    ensures |s| > 0
  {
    if n < 10 then ['0' + n as char] else NatToDigits(n / 10) + ['0' + (n % 10) as char]
  }

  lemma {:induction false} DigitsOfNat(n: nat)
    ensures AllDigits(NatToDigits(n))
    ensures DigitsValue(NatToDigits(n)) == n
  {
    var s := NatToDigits(n);
    if n >= 10 {
      DigitsOfNat(n / 10);
      assert s[..|s| - 1] == NatToDigits(n / 10);
    }
  }

  /** Writing a natural number in decimal and converting it back gives the number. */
  lemma ParseNatRoundTrip(n: nat)
    ensures ParseDecimal(NatToDigits(n)) == Some(n as real)
  {
    DigitsOfNat(n);
    var s := NatToDigits(n);
    NoDotIndexInDigits(s);
    assert s[..|s|] == s;
  }
}
