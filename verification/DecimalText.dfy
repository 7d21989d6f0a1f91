/** Which texts are accepted as decimals and currency amounts, and what they mean. */
module DecimalText {
  import opened Wrappers
  import opened Words
  import Automation
  import opened Decimals

  /** An optional sign, digits, and possibly a point and more digits: at most 128 characters
      without the sign. */
  ghost predicate Numeral(text: string, negative: bool, whole: string, fraction: string) {
    && whole != [] && AllDigits(whole) && AllDigits(fraction)
    && exists sign :: sign in {"", "+", "-"} && NumeralWith(text, sign, negative, whole, fraction)
  }

  /** A point and the digits after it, if there are any. */
  function Tail(fraction: string): string {
    if fraction == [] then "" else "." + fraction
  }

  predicate NumeralWith(text: string, sign: string, negative: bool, whole: string, fraction: string) {
    && text == sign + (whole + Tail(fraction))
    && |whole + Tail(fraction)| <= 128
    && (negative <==> sign == "-")
  }

  lemma BodyOfNumeral(text: string, sign: string, body: string)
    requires sign in {"", "+", "-"} && text == sign + body && body != [] && IsDigit(body[0])
    ensures Body(text) == body && (text[0] == '-' <==> sign == "-")
  {
    if sign != "" {
      assert text[0] == sign[0] && text[1..] == body;
    }
  }

  lemma PlainBody(whole: string)
    requires AllDigits(whole)
    ensures FindDot(whole) == |whole| && Whole(whole) == whole && Fraction(whole) == []
  {
    DotAfterDigits(whole, "");
    assert whole[..|whole|] == whole;
  }

  lemma PointedBody(whole: string, fraction: string, body: string)
    requires AllDigits(whole) && body == whole + "." + fraction
    ensures FindDot(body) == |whole| < |body| && Whole(body) == whole && Fraction(body) == fraction
  {
    DotAfterDigits(whole, fraction);
    assert body[..|whole|] == whole;
    assert body[|whole| + 1..] == fraction;
  }

  lemma PartsOfBody(whole: string, fraction: string, body: string)
    requires AllDigits(whole) && body == whole + Tail(fraction)
    ensures Whole(body) == whole && Fraction(body) == fraction
    ensures FindDot(body) < |body| <==> fraction != []
  {
    if fraction == [] {
      assert body == whole;
      PlainBody(whole);
    } else {
      assert body == whole + "." + fraction;
      PointedBody(whole, fraction, body);
    }
  }

  lemma DigitsJoin(a: string, b: string)
    ensures AllDigits(a + b) <==> AllDigits(a) && AllDigits(b)
  {
    if AllDigits(a + b) {
      forall i | 0 <= i < |a| ensures IsDigit(a[i]) { assert a[i] == (a + b)[i]; }
      forall i | 0 <= i < |b| ensures IsDigit(b[i]) { assert b[i] == (a + b)[|a| + i]; }
    }
  }

  lemma NumeralParses(text: string, negative: bool, whole: string, fraction: string)
    requires Numeral(text, negative, whole, fraction)
    ensures AllDigits(whole + fraction)
    ensures ParseCoefficient(text) == Some(Parsed(Value(whole + fraction), |fraction|, negative))
  {
    var sign :| sign in {"", "+", "-"} && NumeralWith(text, sign, negative, whole, fraction);
    var body := whole + Tail(fraction);
    assert body[0] == whole[0];
    BodyOfNumeral(text, sign, body);
    PartsOfBody(whole, fraction, body);
    DigitsJoin(whole, fraction);
  }

  lemma SignOfText(text: string) returns (sign: string)
    requires text != []
    ensures sign in {"", "+", "-"} && text == sign + Body(text) && (sign == "-" <==> text[0] == '-')
  {
    sign := if text[0] == '-' then "-" else if text[0] == '+' then "+" else "";
  }

  lemma SplitsAt(s: string, d: nat)
    requires d <= |s|
    ensures s == s[..d] + s[d..]
  {}

  /** A body is its whole part, and its fraction after a point if there is one. */
  lemma BodySplits(body: string)
    requires FindDot(body) < |body| ==> Fraction(body) != []
    ensures body == Whole(body) + Tail(Fraction(body))
  {
    TailOfBody(body);
    SplitsAt(body, FindDot(body));
  }

  lemma ParsedIsNumeral(text: string) returns (whole: string, fraction: string)
    requires ParseCoefficient(text).Some?
    ensures Numeral(text, ParseCoefficient(text).value.negative, whole, fraction)
  {
    whole, fraction := Whole(Body(text)), Fraction(Body(text));
    DigitsJoin(whole, fraction);
    BodySplits(Body(text));
    var sign := SignOfText(text);
    assert NumeralWith(text, sign, ParseCoefficient(text).value.negative, whole, fraction);
  }

  /** A text denotes the decimal d: its digits are the coefficient, and the scale is the number of
      digits after the point, at most 28. */
  ghost predicate DenotesDecimal(text: string, d: Automation.Decimal, whole: string, fraction: string) {
    && Numeral(text, d.negative, whole, fraction) && AllDigits(whole + fraction)
    && d.scale as int == |fraction| <= 28
    && d.hi as int * 0x1_0000_0000_0000_0000 + d.lo as int == Value(whole + fraction)
  }

  lemma DecimalOf(text: string, p: Parsed, d: Automation.Decimal)
    requires ParseCoefficient(text) == Some(p)
    ensures ParseDecimal(text) == Some(d) <==>
              && p.scale <= 28 && d.scale as int == p.scale && d.negative == p.negative
              && d.hi as int * 0x1_0000_0000_0000_0000 + d.lo as int == p.n
  {}

  /** Exactly the texts that denote a decimal are accepted. */
  lemma DecimalIsExact(text: string, d: Automation.Decimal)
    ensures ParseDecimal(text) == Some(d) <==> exists whole, fraction :: DenotesDecimal(text, d, whole, fraction)
  {
    if ParseDecimal(text) == Some(d) {
      var whole, fraction := ParsedIsNumeral(text);
      NumeralParses(text, d.negative, whole, fraction);
      DecimalOf(text, ParseCoefficient(text).value, d);
      assert DenotesDecimal(text, d, whole, fraction);
    }
    if whole, fraction :| DenotesDecimal(text, d, whole, fraction) {
      NumeralParses(text, d.negative, whole, fraction);
      DecimalOf(text, ParseCoefficient(text).value, d);
    }
  }

  function SignedBy(negative: bool, n: int): int {
    if negative then -n else n
  }

  /** A text denotes an amount in units of one ten-thousandth: at most four digits follow the
      point, and units / 10000 is the signed number that the text is. */
  ghost predicate DenotesCurrency(text: string, units: int64, negative: bool, whole: string, fraction: string) {
    && Numeral(text, negative, whole, fraction) && AllDigits(whole + fraction) && |fraction| <= 4
    && units as int * Pow10(|fraction|) == 10000 * SignedBy(negative, Value(whole + fraction))
  }

  lemma Powers()
    ensures Pow10(0) == 1 && Pow10(1) == 10 && Pow10(2) == 100 && Pow10(3) == 1000 && Pow10(4) == 10000
  {}

  lemma Scaled(n: int, units: int, scale: nat)
    requires scale <= 4
    ensures units == n * Pow10(4 - scale) <==> units * Pow10(scale) == 10000 * n
  {
    Powers();
  }

  lemma CurrencyOf(text: string, p: Parsed, units: int64)
    requires ParseCoefficient(text) == Some(p)
    ensures ParseCurrency(text) == Some(units) <==>
              p.scale <= 4 && units as int * Pow10(p.scale) == 10000 * SignedBy(p.negative, p.n)
  {
    if p.scale <= 4 {
      Scaled(p.n, SignedBy(p.negative, units as int), p.scale);
      assert SignedBy(p.negative, units as int) * Pow10(p.scale) == SignedBy(p.negative, units as int * Pow10(p.scale));
    }
  }

  /** Exactly the texts that denote a currency amount are accepted. */
  lemma CurrencyIsExact(text: string, units: int64)
    ensures ParseCurrency(text) == Some(units) <==>
              exists negative, whole, fraction :: DenotesCurrency(text, units, negative, whole, fraction)
  {
    if ParseCurrency(text) == Some(units) {
      var p := ParseCoefficient(text).value;
      var whole, fraction := ParsedIsNumeral(text);
      NumeralParses(text, p.negative, whole, fraction);
      CurrencyOf(text, p, units);
      assert DenotesCurrency(text, units, p.negative, whole, fraction);
    }
    if negative, whole, fraction :| DenotesCurrency(text, units, negative, whole, fraction) {
      NumeralParses(text, negative, whole, fraction);
      CurrencyOf(text, ParseCoefficient(text).value, units);
    }
  }

  // ---- the text of a parsed currency ----

  lemma {:induction false} ZerosAppend(k: nat)
    requires k > 0
    ensures Zeros(k) == Zeros(k - 1) + "0"
  {
    if k > 1 {
      ZerosAppend(k - 1);
    }
  }

  lemma ValueAppends(s: string, c: char)
    requires AllDigits(s) && IsDigit(c)
    ensures AllDigits(s + [c]) && Value(s + [c]) == Value(s) * 10 + DigitValue(c)
  {
    assert (s + [c])[..|s|] == s;
  }

  lemma TimesTen(a: nat, b: nat)
    ensures a * b * 10 == a * (10 * b)
  {}

  lemma {:induction false} ValueOfPadded(s: string, k: nat)
    requires AllDigits(s)
    ensures AllDigits(s + Zeros(k)) && Value(s + Zeros(k)) == Value(s) * Pow10(k)
  {
    if k == 0 {
      assert s + Zeros(0) == s;
    } else {
      ValueOfPadded(s, k - 1);
      ZerosAppend(k);
      assert s + Zeros(k) == s + Zeros(k - 1) + ['0'];
      ValueAppends(s + Zeros(k - 1), '0');
      TimesTen(Value(s), Pow10(k - 1));
    }
  }

  lemma UnsignedCurrency(whole: string, padded: string)
    requires whole != [] && AllDigits(whole + padded) && |padded| == 4
    ensures Unsigned(Value(whole + padded), 4) == Trimmed(whole, 1) + ("." + padded)
  {
    PaddedOfValue(whole + padded, 5);
    TrimmedKeepsTail(whole, padded);
    UnsignedSplits(Value(whole + padded), 4, Trimmed(whole, 1), padded);
  }

  lemma FixedIs(units: int64, m: nat, negative: bool)
    requires units as int == SignedBy(negative, m)
    ensures CurrencyString(units) == (if negative && units != 0 then "-" else "") + Unsigned(m, 4)
  {}

  lemma CurrencyStringOf(text: string, p: Parsed, digits: string)
    requires ParseCoefficient(text) == Some(p) && ParseCurrency(text).Some?
    requires p.scale <= 4 ==> Unsigned(p.n * Pow10(4 - p.scale), 4) == digits
    ensures p.scale <= 4
    ensures CurrencyString(ParseCurrency(text).value) ==
              (if p.negative && ParseCurrency(text).value != 0 then "-" else "") + digits
  {
    var m := p.n * Pow10(4 - p.scale);
    assert ParseCurrency(text).value as int == SignedBy(p.negative, m);
    FixedIs(ParseCurrency(text).value, m, p.negative);
  }

  lemma PaddedFraction(whole: string, fraction: string, padded: string)
    requires AllDigits(whole + fraction) && whole != [] && |fraction| <= 4
    requires padded == fraction + Zeros(4 - |fraction|)
    ensures Unsigned(Value(whole + fraction) * Pow10(4 - |fraction|), 4) == Trimmed(whole, 1) + ("." + padded)
  {
    ValueOfPadded(whole + fraction, 4 - |fraction|);
    assert whole + fraction + Zeros(4 - |fraction|) == whole + padded;
    UnsignedCurrency(whole, padded);
  }

  lemma ShortFraction(text: string, p: Parsed)
    requires ParseCoefficient(text) == Some(p) && ParseCurrency(text).Some?
    ensures p.scale <= 4
  {}

  /** The sign, the whole part without redundant zeros, and four digits after the point. */
  function FourDigits(minus: bool, whole: string, fraction: string): string
    requires |fraction| <= 4
  {
    (if minus then "-" else "") + (Trimmed(whole, 1) + ("." + (fraction + Zeros(4 - |fraction|))))
  }

  /** Printing a parsed currency gives the same number with exactly four digits after the point,
      without a plus sign, redundant leading zeros or the sign of a zero. */
  lemma CurrencyPrintsCanonical(text: string, negative: bool, whole: string, fraction: string)
    requires Numeral(text, negative, whole, fraction) && ParseCurrency(text).Some?
    ensures |fraction| <= 4
    ensures CurrencyString(ParseCurrency(text).value) ==
              FourDigits(negative && ParseCurrency(text).value != 0, whole, fraction)
  {
    NumeralParses(text, negative, whole, fraction);
    var p := Parsed(Value(whole + fraction), |fraction|, negative);
    ShortFraction(text, p);
    var padded := fraction + Zeros(4 - |fraction|);
    PaddedFraction(whole, fraction, padded);
    CurrencyStringOf(text, p, Trimmed(whole, 1) + ("." + padded));
  }
}
