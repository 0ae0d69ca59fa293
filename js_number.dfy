// JavaScript numbers where the pages care about more than their value:
// NaN and the infinities, and `toFixed(2)`.
module JsNumbers {
  import opened Common

  /** An IEEE double as the pages see it; finite values are kept exact. */
  datatype JsNumber = Finite(value: real) | NaN | PosInfinity | NegInfinity

  /** `Number.isFinite`. */
  predicate IsFinite(n: JsNumber)
  {
    n.Finite?
  }

  /** Hundredths of a non-negative number, rounded to nearest with ties going up, as `toFixed(2)` rounds. */
  function Cents(x: real): (c: nat)
    requires x >= 0.0
    ensures c as real <= x * 100.0 + 0.5 < c as real + 1.0
  {
    (x * 100.0 + 0.5).Floor
  }

  function TwoDigits(c: nat): (r: string)
    requires c < 100
    ensures |r| == 2 && AllDigits(r) && DigitsValue(r) == c
  {
    var r := [DigitChar(c / 10), DigitChar(c % 10)];
    assert r[..1] == [DigitChar(c / 10)] && r[..1][..0] == [];
    assert DigitValue(r[0]) == c / 10 && DigitValue(r[1]) == c % 10;
    assert DigitsValue(r[..1]) == c / 10;
    assert DigitsValue(r) == DigitsValue(r[..1]) * 10 + DigitValue(r[1]);
    r
  }

  function FixedNonNegative(x: real): string
    requires x >= 0.0
  {
    var c := Cents(x);
    NatToString(c / 100) + "." + TwoDigits(c % 100)
  }

  /** `x.toFixed(2)` for a finite `x` below 10^21. */
  function ToFixed2(x: real): (r: string)
    ensures x >= 0.0 ==> r == FixedNonNegative(x)
    ensures x < 0.0 ==> r == "-" + FixedNonNegative(-x)
  {
    if x < 0.0 then "-" + FixedNonNegative(-x) else FixedNonNegative(x)
  }

  /** `toFixed(2)` text is read back by `parseFloat` as the number rounded to the nearest hundredth. */
  lemma ToFixed2ReadsBack(x: real)
    requires x >= 0.0
    ensures ParseFloat(ToFixed2(x)).Some? && ParseFloat(ToFixed2(x)).value == Cents(x) as real / 100.0
    ensures -0.005 < Cents(x) as real / 100.0 - x <= 0.005
  {
    var c := Cents(x);
    NatToStringValue(c / 100);
    ParseDecimal(NatToString(c / 100), TwoDigits(c % 100));
    assert (c / 100) as real + (c % 100) as real / 100.0 == c as real / 100.0 by {
      assert (c / 100) * 100 + c % 100 == c;
    }
  }

  /** Rounding an already rounded value again gives the same text. */
  lemma ToFixed2Stable(x: real)
    requires x >= 0.0
    ensures Cents(Cents(x) as real / 100.0) == Cents(x)
    ensures ToFixed2(Cents(x) as real / 100.0) == ToFixed2(x)
  {
    var c := Cents(x);
    var y := c as real / 100.0;
    assert y * 100.0 + 0.5 == c as real + 0.5;
  }

  /** `toFixed(2)` of what `parseFloat` reads from `toFixed(2)` text is that text again. */
  lemma ToFixed2RoundTrip(x: real)
    requires x >= 0.0
    ensures ParseFloat(ToFixed2(x)).Some?
    ensures ToFixed2(ParseFloat(ToFixed2(x)).value) == ToFixed2(x)
  {
    var y := Cents(x) as real / 100.0;
    assert ParseFloat(ToFixed2(x)).Some? && ParseFloat(ToFixed2(x)).value == y by {
      ToFixed2ReadsBack(x);
    }
    assert ToFixed2(y) == ToFixed2(x) by {
      ToFixed2Stable(x);
    }
  }

  /** `parseFloat` of `whole.frac` written in plain digits. */
  lemma ParseDecimal(whole: string, frac: string)
    requires |whole| >= 1 && AllDigits(whole) && |frac| == 2 && AllDigits(frac)
    ensures ParseFloat(whole + "." + frac).Some?
    ensures ParseFloat(whole + "." + frac).value == DigitsValue(whole) as real + DigitsValue(frac) as real / 100.0
  {
    var r := whole + "." + frac;
    DecimalShape(whole, frac);
    DigitPrefixAll(frac);
    ParseFloatUnsigned(r, whole, frac);
    TwoDigitFraction(frac);
  }

  /** Two digits after the point are that many hundredths. */
  lemma TwoDigitFraction(frac: string)
    requires |frac| == 2 && AllDigits(frac)
    ensures FractionValue(frac) == DigitsValue(frac) as real / 100.0
  {
    var d0, d1 := DigitValue(frac[0]), DigitValue(frac[1]);
    assert frac[1..][1..] == [];
    assert FractionValue(frac[1..]) == d1 as real / 10.0;
    assert FractionValue(frac) == (d0 as real + d1 as real / 10.0) / 10.0;
    assert frac[..1][..0] == [];
    assert DigitsValue(frac[..1]) == d0;
    assert DigitsValue(frac) == d0 * 10 + d1;
  }

  lemma DecimalShape(whole: string, frac: string)
    requires |whole| >= 1 && AllDigits(whole) && AllDigits(frac)
    ensures var r := whole + "." + frac;
      TrimStart(r) == r && SignOf(r) == (1, r) && DigitPrefix(r) == whole && r[|whole|..] == "." + frac
      && r[|whole|..][1..] == frac
  {
    var r := whole + "." + frac;
    assert r[0] == whole[0];
    StartsWithDigit(r);
    assert r == whole + ("." + frac);
    DigitPrefixSplit(whole, "." + frac);
  }

  /** Text that starts with a digit has no leading space and no sign to skip. */
  lemma StartsWithDigit(r: string)
    requires r != [] && IsDigit(r[0])
    ensures TrimStart(r) == r && SignOf(r) == (1, r)
  {
  }

  lemma ParseFloatUnsigned(s: string, whole: string, frac: string)
    requires TrimStart(s) == s && SignOf(s) == (1, s) && DigitPrefix(s) == whole && whole != []
    requires |whole| < |s| && s[|whole|..] == "." + frac && AllDigits(frac) && DigitPrefix(frac) == frac
    ensures ParseFloat(s).Some? && ParseFloat(s).value == DigitsValue(whole) as real + FractionValue(frac)
  {
    var after := s[|whole|..];
    assert after[1..] == frac;
  }

  lemma {:induction false} DigitPrefixSplit(digits: string, rest: string)
    requires AllDigits(digits) && (rest == [] || !IsDigit(rest[0]))
    ensures DigitPrefix(digits + rest) == digits
    decreases |digits|
  {
    var s := digits + rest;
    if digits == [] {
      assert s == rest;
    } else {
      assert s[0] == digits[0] && IsDigit(s[0]);
      assert s[1..] == digits[1..] + rest;
      assert AllDigits(digits[1..]);
      DigitPrefixSplit(digits[1..], rest);
      assert DigitPrefix(s) == [s[0]] + DigitPrefix(s[1..]);
      assert digits == [digits[0]] + digits[1..];
    }
  }

  /** `String(n)` for the non-finite values, and `toFixed(2)` for the finite ones. */
  function ToFixed2Js(n: JsNumber): (r: string)
    ensures n.Finite? ==> r == ToFixed2(n.value)
  {
    match n
    case Finite(x) => ToFixed2(x)
    case NaN => "NaN"
    case PosInfinity => "Infinity"
    case NegInfinity => "-Infinity"
  }

  /**
   * `Number(v)` of a JSON value, `None` standing for NaN: a missing
   * value is NaN, null and false are 0, true is 1, a number is itself, a
   * text is converted by `numberOfText` (the text conversion of `Number`),
   * an array is converted through its text (see `NumberOfArray`), and an
   * object is NaN.
   */
  function NumberOf(v: Option<Json>, numberOfText: string -> Option<real>): (r: Option<real>)
    ensures v.None? ==> r.None?
    ensures v.Some? && v.value.JNum? ==> r == Some(v.value.n)
    ensures v == Some(JNull) ==> r == Some(0.0)
    ensures v.Some? && v.value.JObj? ==> r.None?
  {
    match v
    case None => None
    case Some(JNull) => Some(0.0)
    case Some(JBool(b)) => Some(if b then 1.0 else 0.0)
    case Some(JNum(n)) => Some(n)
    case Some(JStr(s)) => numberOfText(s)
    case Some(JArr(xs)) => NumberOfArray(xs, numberOfText)
    case Some(JObj(_)) => None
  }

  /**
   * `Number(xs)` of an array, which converts its text `xs.join(',')`: the
   * empty array gives the empty text, so 0; two or more elements put a comma
   * in the text, so NaN; one element gives that element's own text, which is
   * empty for null, 'true' or 'false' for a boolean (NaN), the number's
   * digits for a number, and '[object Object]' (NaN) for an object.
   */
  function NumberOfArray(xs: seq<Json>, numberOfText: string -> Option<real>): (r: Option<real>)
    ensures xs == [] ==> r == Some(0.0)
    ensures |xs| >= 2 ==> r.None?
    ensures |xs| == 1 && xs[0].JNum? ==> r == Some(xs[0].n)
    ensures |xs| == 1 && (xs[0].JBool? || xs[0].JObj?) ==> r.None?
    decreases xs
  {
    if xs == [] then Some(0.0)
    else if |xs| >= 2 then None
    else match xs[0]
      case JNull => Some(0.0)
      case JBool(_) => None
      case JNum(n) => Some(n)
      case JStr(s) => numberOfText(s)
      case JArr(inner) => NumberOfArray(inner, numberOfText)
      case JObj(_) => None
  }

  /** `Number(v) || fallback`: the fallback for NaN and for 0, the number otherwise. */
  function NumberOr(v: Option<Json>, fallback: real, numberOfText: string -> Option<real>): (r: real)
    ensures fallback != 0.0 ==> r != 0.0
    ensures NumberOf(v, numberOfText).None? || NumberOf(v, numberOfText) == Some(0.0) ==> r == fallback
    ensures NumberOf(v, numberOfText).Some? && NumberOf(v, numberOfText).value != 0.0 ==>
      r == NumberOf(v, numberOfText).value
  {
    match NumberOf(v, numberOfText)
    case None => fallback
    case Some(n) => if n == 0.0 then fallback else n
  }
}
