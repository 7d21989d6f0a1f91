/** Exact decimal text for VT_DECIMAL and VT_CY (sections 2.2.26 and 2.2.24 of MS-OAUT). */
module Decimals {
  import opened Wrappers
  import opened Words
  import opened Automation

  // ---- digits ----

  predicate IsDigit(c: char) {
    '0' <= c <= '9'
  }

  predicate AllDigits(s: string) {
    forall i :: 0 <= i < |s| ==> IsDigit(s[i])
  }

  function DigitChar(d: nat): char
    requires d < 10
  {
    ('0' as int + d) as char
  }

  function DigitValue(c: char): nat
    requires IsDigit(c)
  {
    c as int - '0' as int
  }

  /** The decimal digits of n, without leading zeros. */
  function Digits(n: nat): string {
    if n < 10 then [DigitChar(n)] else Digits(n / 10) + [DigitChar(n % 10)]
  }

  /** The number that digits denote, most significant first. */
  function Value(s: string): nat
    requires AllDigits(s)
  {
    if s == [] then 0 else Value(s[..|s| - 1]) * 10 + DigitValue(s[|s| - 1])
  }

  function Zeros(k: nat): (s: string)
    ensures |s| == k
  {
    if k == 0 then "" else "0" + Zeros(k - 1)
  }

  /** The digits of n, padded with zeros to at least k digits. */
  function Padded(n: nat, k: nat): (r: string)
    ensures |r| >= k
  {
    var s := Digits(n);
    if |s| < k then Zeros(k - |s|) + s else s
  }

  /** Leading zeros dropped while more than k digits remain. */
  function Trimmed(s: string, k: nat): string {
    if |s| > k && s[0] == '0' then Trimmed(s[1..], k) else s
  }

  lemma {:induction false} DigitsValue(n: nat)
    ensures AllDigits(Digits(n)) && |Digits(n)| >= 1 && Value(Digits(n)) == n
    ensures Digits(n)[0] == '0' ==> n == 0
  {
    if n >= 10 {
      DigitsValue(n / 10);
      assert Digits(n)[..|Digits(n)| - 1] == Digits(n / 10);
    }
  }

  lemma {:induction false} LeadingZero(s: string)
    requires AllDigits(s) && s != [] && s[0] == '0'
    ensures Value(s) == Value(s[1..])
  {
    if |s| > 1 {
      var front := s[..|s| - 1];
      LeadingZero(front);
      assert front[1..] == s[1..][..|s[1..]| - 1];
    }
  }

  lemma {:induction false} ZerosDigits(k: nat)
    ensures AllDigits(Zeros(k))
  {
    if k > 0 {
      ZerosDigits(k - 1);
    }
  }

  lemma ZerosPrefixDigits(k: nat, s: string)
    requires AllDigits(s)
    ensures AllDigits(Zeros(k) + s)
  {
    ZerosDigits(k);
  }

  lemma {:induction false} ZerosValue(k: nat, s: string)
    requires AllDigits(s) && AllDigits(Zeros(k) + s)
    ensures Value(Zeros(k) + s) == Value(s)
  {
    if k == 0 {
      assert Zeros(0) + s == s;
    } else {
      ZerosPrefixDigits(k - 1, s);
      ZerosValue(k - 1, s);
      var t := Zeros(k) + s;
      assert t[1..] == Zeros(k - 1) + s;
      LeadingZero(t);
    }
  }

  lemma PaddedValue(n: nat, k: nat)
    ensures AllDigits(Padded(n, k)) && |Padded(n, k)| >= k && |Padded(n, k)| >= 1 && Value(Padded(n, k)) == n
    ensures |Padded(n, k)| == |Digits(n)| || |Padded(n, k)| == k
  {
    var d := Digits(n);
    DigitsValue(n);
    if |d| < k {
      assert Padded(n, k) == Zeros(k - |d|) + d;
      ZerosPrefixDigits(k - |d|, d);
      ZerosValue(k - |d|, d);
    } else {
      assert Padded(n, k) == d;
    }
  }

  /** Digits without a leading zero are printed back unchanged. */
  lemma {:induction false} DigitsOfValue(s: string)
    requires AllDigits(s) && s != [] && (s[0] == '0' ==> |s| == 1)
    ensures Digits(Value(s)) == s
    ensures s[0] != '0' ==> Value(s) > 0
  {
    var front := s[..|s| - 1];
    var last := DigitValue(s[|s| - 1]);
    if |s| == 1 {
      assert front == [] && Value(front) == 0;
      assert Value(s) == Value(front) * 10 + last;
      assert last < 10 && Digits(last) == [DigitChar(last)] && DigitChar(last) == s[0];
    } else {
      assert front[0] == s[0];
      DigitsOfValue(front);
      assert Value(s) / 10 == Value(front) && Value(s) % 10 == last;
      assert s == front + [s[|s| - 1]];
    }
  }

  /** Printing with padding undoes reading up to leading zeros. */
  lemma {:induction false} PaddedOfValue(s: string, k: nat)
    requires AllDigits(s) && |s| >= k >= 1
    ensures Padded(Value(s), k) == Trimmed(s, k)
    decreases |s|
  {
    if s[0] != '0' || |s| == 1 {
      DigitsOfValue(s);
    } else if |s| > k {
      LeadingZero(s);
      PaddedOfValue(s[1..], k);
    } else {
      LeadingZero(s);
      PaddedOfValue(s[1..], k - 1);
      PaddedBelow(Value(s), k, s[1..]);
    }
  }

  lemma PaddedBelow(n: nat, k: nat, s: string)
    requires k >= 2 && |s| == k - 1 && Padded(n, k - 1) == s
    ensures Padded(n, k) == ['0'] + s
  {
    var d := Digits(n);
    if |d| < k - 1 {
      ZeroFirst(k - |d|, d);
    } else {
      assert d == s;
      ZeroFirst(1, d);
    }
  }

  lemma ZeroFirst(k: nat, d: string)
    requires k > 0
    ensures Zeros(k) + d == ['0'] + (Zeros(k - 1) + d)
  {}

  lemma {:induction false} TrimmedKeepsTail(whole: string, tail: string)
    requires |whole| >= 1
    ensures Trimmed(whole + tail, |tail| + 1) == Trimmed(whole, 1) + tail
    decreases |whole|
  {
    if |whole| > 1 && whole[0] == '0' {
      assert (whole + tail)[1..] == whole[1..] + tail;
      TrimmedKeepsTail(whole[1..], tail);
    }
  }

  // ---- lengths ----

  function Pow10(k: nat): nat {
    if k == 0 then 1 else 10 * Pow10(k - 1)
  }

  lemma {:induction false} DigitsLength(n: nat, k: nat)
    requires n < Pow10(k) && k >= 1
    ensures |Digits(n)| <= k
  {
    assert Pow10(1) == 10;
    if n >= 10 {
      DigitsLength(n / 10, k - 1);
    }
  }

  lemma Associative(a: nat, b: nat, c: nat)
    ensures a * (b * c) == a * b * c
  {}

  lemma {:induction false} Pow10Sum(a: nat, b: nat)
    ensures Pow10(a + b) == Pow10(a) * Pow10(b)
  {
    if a > 0 {
      Pow10Sum(a - 1, b);
      Associative(10, Pow10(a - 1), Pow10(b));
    }
  }

  /** A 96-bit coefficient has at most 30 digits. */
  lemma CoefficientLength(n: nat)
    requires n < COEFFICIENTS
    ensures |Digits(n)| <= 30
  {
    assert Pow10(5) == 100000 by {
      assert Pow10(1) == 10 && Pow10(2) == 100 && Pow10(3) == 1000 && Pow10(4) == 10000;
    }
    Pow10Sum(5, 5);
    Pow10Sum(10, 10);
    Pow10Sum(10, 20);
    DigitsLength(n, 30);
  }

  // ---- printing ----

  const TWO_64 := 0x1_0000_0000_0000_0000
  const COEFFICIENTS := 0x1_0000_0000_0000_0000_0000_0000

  /** The text of |n| / 10^scale with exactly scale fractional digits. */
  function Unsigned(n: nat, scale: nat): string {
    var digits := Padded(n, scale + 1);
    if scale == 0 then digits
    else digits[..|digits| - scale] + "." + digits[|digits| - scale..]
  }

  function FixedDecimal(n: int, scale: nat): string {
    if n < 0 then "-" + Unsigned(-n, scale) else Unsigned(n, scale)
  }

  function Coefficient(d: Decimal): nat {
    d.hi as int * TWO_64 + d.lo as int
  }

  function DecimalString(d: Decimal): string {
    var n: int := Coefficient(d);
    if d.negative && n == 0 then "-" + FixedDecimal(n, d.scale as int)
    else if d.negative then FixedDecimal(-n, d.scale as int)
    else FixedDecimal(n, d.scale as int)
  }

  function CurrencyString(units: int64): string {
    FixedDecimal(units as int, 4)
  }

  // ---- parsing ----

  const MAX_LENGTH := 128

  datatype Parsed = Parsed(n: nat, scale: nat, negative: bool)

  function FindDot(s: string): (i: nat)
    ensures i <= |s|
  {
    if s == [] || s[0] == '.' then 0 else 1 + FindDot(s[1..])
  }

  predicate Signed(text: string) {
    text != [] && (text[0] == '-' || text[0] == '+')
  }

  function Body(text: string): string {
    if Signed(text) then text[1..] else text
  }

  function Whole(body: string): string {
    body[..FindDot(body)]
  }

  function Fraction(body: string): string {
    if FindDot(body) < |body| then body[FindDot(body) + 1..] else []
  }

  function ParseCoefficient(text: string): Option<Parsed> {
    var body := Body(text);
    var whole, fraction := Whole(body), Fraction(body);
    if |body| == 0 || |body| > MAX_LENGTH then None
    else if whole == [] || (FindDot(body) < |body| && fraction == []) then None
    else if !AllDigits(whole + fraction) then None
    else Some(Parsed(Value(whole + fraction), |fraction|, text[0] == '-'))
  }

  function ParseDecimal(text: string): Option<Decimal> {
    match ParseCoefficient(text)
    case None => None
    case Some(p) =>
      if p.scale > 28 || p.n >= COEFFICIENTS then None
      else Some(Decimal((p.n / TWO_64) as uint32, (p.n % TWO_64) as uint64, p.scale as uint8, p.negative))
  }

  function ParseCurrency(text: string): Option<int64> {
    match ParseCoefficient(text)
    case None => None
    case Some(p) =>
      if p.scale > 4 then None
      else
        var scaled := p.n * Pow10(4 - p.scale);
        var n := if p.negative then -scaled else scaled;
        if -0x8000_0000_0000_0000 <= n < 0x8000_0000_0000_0000 then Some(n as int64) else None
  }

  /** The digit loop of parseCoefficient, with the big integer built digit by digit. */
  method ScanCoefficient(text: string) returns (r: Option<Parsed>)
    ensures r == ParseCoefficient(text)
  {
    var body := Body(text);
    if |body| == 0 || |body| > MAX_LENGTH {
      return None;
    }
    var dot := FindDot(body);
    var whole, fraction := body[..dot], if dot < |body| then body[dot + 1..] else [];
    if whole == [] || (dot < |body| && fraction == []) {
      return None;
    }
    var digits := whole + fraction;
    var n := 0;
    for i := 0 to |digits|
      invariant AllDigits(digits[..i]) && n == Value(digits[..i])
    {
      if !IsDigit(digits[i]) {
        return None;
      }
      var next := digits[..i + 1];
      assert next[..|next| - 1] == digits[..i] && next[|next| - 1] == digits[i];
      n := n * 10 + DigitValue(digits[i]);
    }
    assert digits[..|digits|] == digits;
    return Some(Parsed(n, |fraction|, text[0] == '-'));
  }

  // ---- printing, then parsing ----

  lemma {:induction false} DotAfterDigits(a: string, b: string)
    requires AllDigits(a)
    ensures FindDot(a) == |a| && FindDot(a + "." + b) == |a|
  {
    if a == [] {
    } else {
      DotAfterDigits(a[1..], b);
      assert (a + "." + b)[1..] == a[1..] + "." + b;
    }
  }

  /** A text of digits with a point before the last scale of them splits back. */
  lemma SplitAtDot(digits: string, scale: nat)
    requires AllDigits(digits) && |digits| > scale > 0
    ensures var s := digits[..|digits| - scale] + "." + digits[|digits| - scale..];
            && FindDot(s) == |digits| - scale
            && Whole(s) == digits[..|digits| - scale] && Fraction(s) == digits[|digits| - scale..]
            && s[0] == digits[0]
  {
    var a, b := digits[..|digits| - scale], digits[|digits| - scale..];
    DotAfterDigits(a, b);
    assert (a + "." + b)[..|a|] == a;
    assert (a + "." + b)[|a| + 1..] == b;
  }

  lemma UnsignedParts(n: nat, scale: nat)
    ensures var s := Unsigned(n, scale);
            var digits := Padded(n, scale + 1);
            && AllDigits(digits) && |digits| > scale && Value(digits) == n
            && s != [] && !Signed(s) && |s| <= |digits| + 1
            && Whole(s) + Fraction(s) == digits && |Fraction(s)| == scale && Whole(s) != []
            && (FindDot(s) < |s| ==> scale > 0)
  {
    PaddedValue(n, scale + 1);
    var digits := Padded(n, scale + 1);
    if scale == 0 {
      DotAfterDigits(digits, "");
      assert digits[..|digits|] == digits;
    } else {
      SplitAtDot(digits, scale);
      assert digits[..|digits| - scale] + digits[|digits| - scale..] == digits;
    }
  }

  /** Printed text, with or without a minus sign, parses to the coefficient, scale and sign. */
  lemma PrintedParses(n: nat, scale: nat, negative: bool)
    requires |Padded(n, scale + 1)| < MAX_LENGTH
    ensures ParseCoefficient((if negative then "-" else "") + Unsigned(n, scale)) == Some(Parsed(n, scale, negative))
  {
    UnsignedParts(n, scale);
    var s := Unsigned(n, scale);
    var text := (if negative then "-" else "") + s;
    if negative {
      assert text[1..] == s;
    } else {
      assert text == s;
    }
    assert Body(text) == s;
  }

  lemma ShortPadding(n: nat, scale: nat)
    requires n < COEFFICIENTS && scale <= 28
    ensures |Padded(n, scale + 1)| <= 30
  {
    CoefficientLength(n);
    PaddedValue(n, scale + 1);
  }

  /** Every DECIMAL with a valid scale is printed as text that parses to the same value,
      including negative zero and the largest coefficient. */
  lemma DecimalTextRoundTrip(d: Decimal)
    requires d.scale <= 28
    ensures ParseDecimal(DecimalString(d)) == Some(d)
  {
    var n := Coefficient(d);
    ShortPadding(n, d.scale as int);
    PrintedParses(n, d.scale as int, d.negative);
    StringOfParsed(Parsed(n, d.scale as int, d.negative), d);
    CoefficientParts(d);
  }

  lemma CoefficientParts(d: Decimal)
    ensures Coefficient(d) / TWO_64 == d.hi as int && Coefficient(d) % TWO_64 == d.lo as int
  {}

  /** Every CURRENCY is printed as text that parses to the same value, including the smallest. */
  lemma CurrencyTextRoundTrip(units: int64)
    ensures ParseCurrency(CurrencyString(units)) == Some(units)
  {
    var negative := units < 0;
    var n := if negative then -(units as int) else units as int;
    ShortPadding(n, 4);
    PrintedParses(n, 4, negative);
    assert CurrencyString(units) == (if negative then "-" else "") + Unsigned(n, 4);
    assert Pow10(0) == 1;
  }

  // ---- parsing, then printing ----

  /** The text without a plus sign and without redundant leading zeros. */
  function Canonical(text: string): string {
    var body := Body(text);
    (if text != [] && text[0] == '-' then "-" else "")
    + Trimmed(Whole(body), 1)
    + body[FindDot(body)..]
  }

  lemma {:induction false} DotFound(s: string)
    ensures FindDot(s) < |s| ==> s[FindDot(s)] == '.'
  {
    if s != [] && s[0] != '.' {
      DotFound(s[1..]);
    }
  }

  /** The dot and what follows it. */
  lemma TailOfBody(body: string)
    ensures body[FindDot(body)..] == if FindDot(body) < |body| then "." + Fraction(body) else []
  {
    DotFound(body);
  }

  lemma UnsignedSplits(n: nat, scale: nat, kept: string, fraction: string)
    requires Padded(n, scale + 1) == kept + fraction && |fraction| == scale
    ensures Unsigned(n, scale) == kept + if scale == 0 then [] else "." + fraction
  {
    var digits := Padded(n, scale + 1);
    assert digits[..|digits| - scale] == kept && digits[|digits| - scale..] == fraction;
  }

  /** Printing the coefficient of a body gives the body without redundant leading zeros. */
  lemma BodyPrints(body: string)
    requires Whole(body) != [] && AllDigits(Whole(body) + Fraction(body))
    requires FindDot(body) < |body| ==> Fraction(body) != []
    ensures Unsigned(Value(Whole(body) + Fraction(body)), |Fraction(body)|) ==
              Trimmed(Whole(body), 1) + body[FindDot(body)..]
  {
    var whole, fraction := Whole(body), Fraction(body);
    PaddedOfValue(whole + fraction, |fraction| + 1);
    TrimmedKeepsTail(whole, fraction);
    TailOfBody(body);
    UnsignedSplits(Value(whole + fraction), |fraction|, Trimmed(whole, 1), fraction);
  }

  lemma StringOfParsed(p: Parsed, d: Decimal)
    requires Coefficient(d) == p.n && d.scale as int == p.scale && d.negative == p.negative
    ensures DecimalString(d) == (if p.negative then "-" else "") + Unsigned(p.n, p.scale)
  {}

  /** Printing a parsed decimal gives the same text without a plus sign or redundant zeros. */
  lemma DecimalPrintsCanonical(text: string)
    requires ParseDecimal(text).Some?
    ensures DecimalString(ParseDecimal(text).value) == Canonical(text)
  {
    var p := ParseCoefficient(text).value;
    StringOfParsed(p, ParseDecimal(text).value);
    BodyPrints(Body(text));
  }
}
