/** The numbers the consumption table carries, and Python's `float(text)` restricted to the
    plain decimal spellings the table uses. */
module Numbers {
  import opened Base
  import opened Text

  /** A decimal number written with `scale` digits after the point: its value is
      (if negative then -1 else 1) * mantissa / 10^scale. Keeping the spelling's scale
      ("1.00" is Decimal(false, 100, 2)) makes parsing exactly invertible. */
  datatype Decimal = Decimal(negative: bool, mantissa: nat, scale: nat)

  /** Python's `0.0`. */
  const Zero := Decimal(false, 0, 1)

  /** Digits with at most one point, at least one digit on each side of it. */
  function ParseUnsigned(s: string): Option<(nat, nat)>
  {
    match IndexOf(s, '.')
    case None =>
      if 1 <= |s| && AllDigits(s) then Some((DigitsValue(s), 0)) else None
    case Some(p) =>
      var whole, frac := s[..p], s[p + 1..];
      if 1 <= |whole| && 1 <= |frac| && AllDigits(whole) && AllDigits(frac)
      then Some((DigitsValue(whole + frac), |frac|))
      else None
  }

  /** `float(s)`: `None` where Python raises ValueError. An optional sign, then digits with an
      optional fractional part. */
  function ParseFloat(s: string): (r: Option<Decimal>)
    ensures r.Some? ==> 1 <= |s|
    ensures r.Some? ==> (r.value.negative <==> s[0] == '-')
  {
    if 1 <= |s| && (s[0] == '-' || s[0] == '+') then
      match ParseUnsigned(s[1..])
      case None => None
      case Some(v) => Some(Decimal(s[0] == '-', v.0, v.1))
    else
      match ParseUnsigned(s)
      case None => None
      case Some(v) => Some(Decimal(false, v.0, v.1))
  }

  /** The digits of the mantissa, with enough leading zeros to leave one before the point. */
  function PaddedDigits(d: Decimal): (r: string)
    ensures AllDigits(r) && d.scale + 1 <= |r| && DigitsValue(r) == d.mantissa
  {
    PadLeft(NatToDigits(d.mantissa), d.scale + 1)
  }

  /** The canonical spelling of a decimal without its sign: no redundant leading zeros,
      exactly `scale` digits after the point. */
  function UnsignedSpelling(d: Decimal): string
  {
    var digits := PaddedDigits(d);
    var cut := |digits| - d.scale;
    digits[..cut] + (if d.scale == 0 then "" else "." + digits[cut..])
  }

  function FormatDecimal(d: Decimal): string
  {
    (if d.negative then "-" else "") + UnsignedSpelling(d)
  }

  lemma NoPoint(s: string)
    requires AllDigits(s)
    ensures '.' !in s
  {
    forall i | 0 <= i < |s| ensures s[i] != '.' { assert IsDigit(s[i]); }
  }

  lemma UnsignedWhole(s: string)
    requires 1 <= |s| && AllDigits(s)
    ensures ParseUnsigned(s) == Some((DigitsValue(s), 0))
  {
    NoPoint(s);
  }

  lemma UnsignedFraction(whole: string, frac: string)
    requires 1 <= |whole| && AllDigits(whole) && 1 <= |frac| && AllDigits(frac)
    ensures AllDigits(whole + frac)
    ensures ParseUnsigned(whole + "." + frac) == Some((DigitsValue(whole + frac), |frac|))
  {
    var s := whole + "." + frac;
    NoPoint(whole);
    assert s[|whole|] == '.';
    var q := IndexOf(s, '.').value;
    assert forall i | 0 <= i < |whole| :: s[i] == whole[i];
    assert q == |whole|;
    assert s[..|whole|] == whole;
    assert s[|whole| + 1..] == frac;
  }

  lemma DigitSlices(digits: string, cut: nat)
    requires AllDigits(digits) && cut <= |digits|
    ensures AllDigits(digits[..cut]) && AllDigits(digits[cut..])
    ensures digits[..cut] + digits[cut..] == digits
  {
    assert forall i | 0 <= i < cut :: digits[..cut][i] == digits[i];
    assert forall i | 0 <= i < |digits| - cut :: digits[cut..][i] == digits[cut + i];
  }

  /** The unsigned part of a canonical spelling reads back as the mantissa and scale. */
  lemma UnsignedRoundTrip(d: Decimal)
    ensures ParseUnsigned(UnsignedSpelling(d)) == Some((d.mantissa, d.scale))
  {
    var digits := PaddedDigits(d);
    if d.scale == 0 {
      assert UnsignedSpelling(d) == digits by {
        assert digits[..|digits|] == digits;
      }
      UnsignedWhole(digits);
    } else {
      FractionRoundTrip(d, digits);
    }
  }

  lemma FractionRoundTrip(d: Decimal, digits: string)
    requires d.scale > 0 && digits == PaddedDigits(d)
    ensures ParseUnsigned(UnsignedSpelling(d)) == Some((d.mantissa, d.scale))
  {
    var cut := |digits| - d.scale;
    DigitSlices(digits, cut);
    var whole, frac := digits[..cut], digits[cut..];
    assert UnsignedSpelling(d) == whole + "." + frac;
    UnsignedFraction(whole, frac);
  }

  /** Reading back the canonical spelling of a decimal gives the same decimal. */
  lemma {:induction false} ParseFormatRoundTrip(d: Decimal)
    ensures ParseFloat(FormatDecimal(d)) == Some(d)
  {
    var body := UnsignedSpelling(d);
    UnsignedRoundTrip(d);
    var digits := PaddedDigits(d);
    assert IsDigit(digits[0]);
    assert body[0] == digits[0];
    var s := FormatDecimal(d);
    if d.negative {
      assert s == "-" + body;
      assert s[1..] == body;
      assert s[0] == '-';
    } else {
      assert s == body;
      assert s[0] != '-' && s[0] != '+';
    }
  }
}
