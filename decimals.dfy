/** Decimal numbers as the ownership shares carry them, and the two ways
    Python prints a share in an audit description: `str()` of the request's
    `Decimal`, which keeps the digits it holds, and `repr()` of the
    `float` the share becomes before it is stored, which is the shortest
    decimal with that value. */
module Decimals {
  import opened Common
  import opened Text

  function Pow10(n: nat): (p: nat)
    ensures p >= 1
  {
    if n == 0 then 1 else 10 * Pow10(n - 1)
  }

  /** A decimal as Python's `Decimal` holds it: all its digits as one
      integer and how many of them follow the point, so 12.50 is
      `Decimal(1250, 2)` and 50 is `Decimal(50, 0)`. */
  datatype Decimal = Decimal(units: int, scale: nat)

  function Value(d: Decimal): real {
    d.units as real / Pow10(d.scale) as real
  }

  /** The last `width` digits of `n`, with leading zeros. */
  function Digits(n: nat, width: nat): (r: string)
    ensures |r| == width && AllDigits(r)
  {
    if width == 0 then [] else Digits(n / 10, width - 1) + [DigitChar(n % 10)]
  }

  function Abs(i: int): nat {
    if i < 0 then -i else i
  }

  function Quotient(m: nat, p: nat): (q: nat)
    requires p >= 1
    ensures q * p + m % p == m
  {
    m / p
  }

  /** Python's `str()` of a plain `Decimal`: the digits as parsed, with the
      point before the last `scale` of them ("50", "50.00", "0.001"). */
  function DecimalText(d: Decimal): string {
    var m := Abs(d.units);
    var sign := if d.units < 0 then "-" else "";
    var p := Pow10(d.scale);
    if d.scale == 0 then sign + NatToString(m)
    else sign + NatToString(Quotient(m, p)) + "." + Digits(m % p, d.scale)
  }

  /** No zero ends the digits after the point. */
  predicate Canonical(d: Decimal) {
    d.scale == 0 || d.units % 10 != 0
  }

  /** The same number without trailing zeros after the point. */
  function Normalised(d: Decimal): (r: Decimal)
    ensures Canonical(r) && Value(r) == Value(d)
    ensures d.units >= 0 ==> r.units >= 0
    decreases d.scale
  {
    if d.scale > 0 && d.units % 10 == 0 then
      var shorter := Decimal(d.units / 10, d.scale - 1);
      DropZero(d.units / 10, d.scale - 1);
      Normalised(shorter)
    else d
  }

  /** One trailing zero more, one place more: the same value. */
  lemma DropZero(q: int, s: nat)
    ensures Value(Decimal(q * 10, s + 1)) == Value(Decimal(q, s))
  {
    var p := Pow10(s) as real;
    assert Pow10(s + 1) as real == 10.0 * p;
    assert (q * 10) as real == 10.0 * q as real;
  }

  /** Python's `repr()` of `float(d)`: the shortest decimal with the value
      of `d` and at least one digit after the point, so 50 and 50.00 both
      print "50.0" and 33.333 prints "33.333". */
  function FloatText(d: Decimal): string {
    var n := Normalised(d);
    if n.scale == 0 then DecimalText(n) + ".0" else DecimalText(n)
  }

  // ----- reading a printed decimal back

  /** The first position of `c` in `s`. */
  function IndexOf(s: string, c: char): (k: nat)
    requires c in s
    ensures k < |s| && s[k] == c && c !in s[..k]
  {
    if s[0] == c then 0
    else
      var k := IndexOf(s[1..], c);
      assert s[..k + 1] == [s[0]] + s[1..][..k];
      k + 1
  }

  /** Reads a non-negative plain decimal: digits, or digits, a point and digits. */
  function ParseDecimal(s: string): Option<Decimal> {
    if '.' in s then
      var k := IndexOf(s, '.');
      ParsePointed(s[..k], s[k + 1..])
    else if s != [] && AllDigits(s) then Some(Decimal(ParseNat(s), 0))
    else None
  }

  /** The digits before and after the point, both non-empty. */
  function ParsePointed(whole: string, frac: string): Option<Decimal> {
    if whole != [] && frac != [] && AllDigits(whole) && AllDigits(frac)
    then Some(Decimal(ParseNat(whole) * Pow10(|frac|) + ParseNat(frac), |frac|))
    else None
  }

  /** Zero-padded digits read back as the number they print. */
  lemma {:induction false} ParseDigits(n: nat, width: nat)
    requires n < Pow10(width)
    ensures ParseNat(Digits(n, width)) == n
  {
    if width > 0 {
      var s := Digits(n, width);
      assert s[..|s| - 1] == Digits(n / 10, width - 1);
      ParseDigits(n / 10, width - 1);
    }
  }

  lemma DigitsHaveNoPoint(s: string)
    requires AllDigits(s)
    ensures '.' !in s
  {
    assert !IsDigit('.');
  }

  /** The point after a run of digits is the first point. */
  lemma {:induction false} IndexOfJoined(whole: string, frac: string)
    requires AllDigits(whole)
    ensures '.' in whole + "." + frac
    ensures IndexOf(whole + "." + frac, '.') == |whole|
  {
    var s := whole + "." + frac;
    DigitsHaveNoPoint(whole);
    assert s[|whole|] == '.';
    assert s[..|whole|] == whole;
  }

  /** The whole part and the fraction, joined by a point, are read back as
      the number they spell with the fraction's length as scale. */
  lemma {:induction false} ParseJoined(whole: string, frac: string)
    requires whole != [] && frac != [] && AllDigits(whole) && AllDigits(frac)
    ensures ParseDecimal(whole + "." + frac)
            == Some(Decimal(ParseNat(whole) * Pow10(|frac|) + ParseNat(frac), |frac|))
  {
    var s := whole + "." + frac;
    IndexOfJoined(whole, frac);
    assert s[..|whole|] == whole;
    assert s[|whole| + 1..] == frac;
    assert ParseDecimal(s) == ParsePointed(whole, frac);
  }

  /** `str()` of a non-negative decimal reads back as exactly that decimal,
      digits and scale alike. */
  lemma {:induction false} DecimalTextRoundTrip(d: Decimal)
    requires d.units >= 0
    ensures ParseDecimal(DecimalText(d)) == Some(d)
  {
    if d.scale == 0 {
      WholeRoundTrip(d.units);
    } else {
      PointedRoundTrip(d.units, d.scale);
    }
  }

  lemma {:induction false} WholeRoundTrip(m: nat)
    ensures ParseDecimal(DecimalText(Decimal(m, 0))) == Some(Decimal(m, 0))
  {
    var s := NatToString(m);
    assert DecimalText(Decimal(m, 0)) == s by {
      assert "" + s == s;
    }
    DigitsHaveNoPoint(s);
    ParseNatToString(m);
  }

  lemma {:induction false} PointedRoundTrip(m: nat, scale: nat)
    requires scale > 0
    ensures ParseDecimal(DecimalText(Decimal(m, scale))) == Some(Decimal(m, scale))
  {
    var p := Pow10(scale);
    var q := Quotient(m, p);
    var whole, frac := NatToString(q), Digits(m % p, scale);
    PointedText(m, scale);
    ParseJoined(whole, frac);
    ParseNatToString(q);
    ParseDigits(m % p, scale);
    assert ParseNat(whole) * Pow10(|frac|) + ParseNat(frac) == m;
  }

  lemma PointedText(m: nat, scale: nat)
    requires scale > 0
    ensures DecimalText(Decimal(m, scale))
            == NatToString(Quotient(m, Pow10(scale))) + "." + Digits(m % Pow10(scale), scale)
  {
    var whole := NatToString(Quotient(m, Pow10(scale)));
    assert "" + whole == whole;
  }

  /** `repr()` of a non-negative share reads back as a decimal with the
      share's value: the text loses no digit that matters. */
  lemma {:induction false} FloatTextRoundTrip(d: Decimal)
    requires d.units >= 0
    ensures ParseDecimal(FloatText(d)).Some?
    ensures Value(ParseDecimal(FloatText(d)).value) == Value(d)
  {
    var n := Normalised(d);
    if n.scale == 0 {
      var whole := NatToString(n.units);
      assert "" + whole == whole;
      assert FloatText(d) == whole + "." + "0";
      ParseJoined(whole, "0");
      ParseNatToString(n.units);
      assert ParseNat("0") == 0 by {
        assert "0"[..0] == [];
      }
      DropZero(n.units, 0);
    } else {
      DecimalTextRoundTrip(n);
    }
  }

  lemma {:induction false} Pow10Add(a: nat, b: nat)
    ensures Pow10(a + b) == Pow10(a) * Pow10(b)
  {
    if a > 0 {
      Pow10Add(a - 1, b);
    }
  }

  /** Two canonical decimals with the same value are the same decimal. */
  lemma CanonicalUnique(a: Decimal, b: Decimal)
    requires Canonical(a) && Canonical(b) && Value(a) == Value(b)
    requires a.scale <= b.scale
    ensures a == b
  {
    var pa, pb := Pow10(a.scale), Pow10(b.scale);
    var t := Pow10(b.scale - a.scale);
    Pow10Add(a.scale, b.scale - a.scale);
    CrossMultiply(a.units, pa, b.units, pb);
    ScaledUnits(a.units, pa, t, b.units);
    if b.scale > a.scale {
      TimesTenEndsInZero(a.units * Pow10(b.scale - a.scale - 1), b.units);
    }
  }

  lemma CrossMultiply(x: int, p: nat, y: int, q: nat)
    requires p >= 1 && q >= 1
    requires x as real / p as real == y as real / q as real
    ensures x * q == y * p
  {
    var v := x as real / p as real;
    assert x as real == v * p as real;
    assert y as real == v * q as real;
    assert (x * q) as real == x as real * q as real == v * p as real * q as real;
    assert (y * p) as real == y as real * p as real == v * q as real * p as real;
  }

  lemma ScaledUnits(x: int, p: nat, t: nat, y: int)
    requires p >= 1 && x * (p * t) == y * p
    ensures y == x * t
  {
    assert (x * t - y) * p == 0;
  }

  lemma TimesTenEndsInZero(x: int, y: int)
    requires y == x * 10
    ensures y % 10 == 0
  {
  }

  /** `repr()` depends on the value only: shares equal as numbers print
      alike, whatever digits the request's `Decimal` holds. */
  lemma FloatTextCanonical(a: Decimal, b: Decimal)
    requires Value(a) == Value(b)
    ensures FloatText(a) == FloatText(b)
  {
    var na, nb := Normalised(a), Normalised(b);
    if na.scale <= nb.scale {
      CanonicalUnique(na, nb);
    } else {
      CanonicalUnique(nb, na);
    }
  }

  /** A whole number prints with ".0" however many zeros follow its point
      in the request's `Decimal`: 50.00 prints "50.0". */
  lemma FloatTextWhole(n: nat, zeros: nat)
    ensures FloatText(Decimal(n * Pow10(zeros), zeros)) == NatToString(n) + ".0"
  {
    WholeNormalised(n, zeros);
    assert "" + NatToString(n) == NatToString(n);
  }

  lemma {:induction false} WholeNormalised(n: nat, zeros: nat)
    ensures Normalised(Decimal(n * Pow10(zeros), zeros)) == Decimal(n, 0)
  {
    if zeros > 0 {
      var q := n * Pow10(zeros - 1);
      ShiftTen(n, Pow10(zeros - 1));
      assert Normalised(Decimal(q * 10, zeros)) == Normalised(Decimal(q, zeros - 1));
      WholeNormalised(n, zeros - 1);
    }
  }

  lemma ShiftTen(n: nat, p: nat)
    ensures n * (10 * p) == (n * p) * 10
    ensures ((n * p) * 10) % 10 == 0 && ((n * p) * 10) / 10 == n * p
  {
  }
}
