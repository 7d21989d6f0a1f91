/** VT_DATE (section 2.2.25 of MS-OAUT): days since 1899-12-30 as a double, where the time of
    day is the absolute fraction, also before that day.

    The double arithmetic is explicit: every operation of the program that rounds goes through
    Fpu.near, and Faithful states the only facts about IEEE 754 double precision that are used. */
module Dates {

  import opened Words

  /** A double, by its bit pattern. */
  datatype Float64 = Float64(bits: uint64)

  /** Rounding of an exact result to a double, the exact value of a finite double, and which
      doubles are finite (neither an infinity nor a NaN). */
  datatype Fpu = Fpu(near: real -> Float64, value: Float64 -> real, finite: Float64 -> bool)

  const TWO_53: real := 9007199254740992.0

  function Abs(x: real): real {
    if x < 0.0 then -x else x
  }

  /** What one rounding does: an integer is exact, and any other result has a relative error of
      at most 2^-53, or a smaller absolute one near zero. */
  predicate RoundsWell(fp: Fpu, x: real) {
    && fp.finite(fp.near(x))
    && Abs(fp.value(fp.near(x)) - x) * TWO_53 <= Abs(x) + 1.0
    && (x == x.Floor as real ==> fp.value(fp.near(x)) == x)
  }

  ghost predicate Faithful(fp: Fpu) {
    forall x: real {:trigger RoundsWell(fp, x)} :: Abs(x) <= TWO_53 ==> RoundsWell(fp, x)
  }

  const DAY_MS := 86400000

  /** 0100-01-01 and 9999-12-31, in days since 1899-12-30. */
  const FIRST_DAY := -657434
  const LAST_DAY := 2958465

  predicate InRange(ms: int) {
    FIRST_DAY <= ms / DAY_MS <= LAST_DAY
  }

  /** Nanoseconds to milliseconds, half up. */
  function RoundMs(ns: int): int {
    (ns + 500000) / 1000000
  }

  function Truncate(x: real): int {
    if x >= 0.0 then x.Floor else -((-x).Floor)
  }

  function Sum(days: int, fraction: real): real {
    if days < 0 then days as real - fraction else days as real + fraction
  }

  /** The exact DATE of a millisecond instant. */
  function Exact(day: int, rest: int): real {
    Sum(day, rest as real / 86400000.0)
  }

  datatype DateResult<T> = Date(value: T) | OutOfRange

  /** The double nearest to day plus or minus fraction, as written. */
  function Written(fp: Fpu, days: int, fraction: real): Float64 {
    fp.near(Sum(days, fraction))
  }

  /** The double written for an instant in nanoseconds since 1899-12-30. */
  function DateAutomation(fp: Fpu, ns: int): DateResult<Float64> {
    var ms := RoundMs(ns);
    if !InRange(ms) then OutOfRange
    else
      var days, rest := ms / DAY_MS, ms % DAY_MS;
      var fraction := fp.value(fp.near(rest as real / 86400000.0));
      Date(Written(fp, days, fraction))
  }

  /** The milliseconds since 1899-12-30 that a day value and a product |fraction| * 86400000 stand for. */
  function Milliseconds(value: real, product: real): int {
    Truncate(value) * DAY_MS + (product + 0.5).Floor
  }

  /** The instant read from a double. */
  function AutomationDate(fp: Fpu, f: Float64): DateResult<int> {
    if !fp.finite(f) || fp.value(f) <= -657435.0 || fp.value(f) >= 2958466.0 then OutOfRange
    else
      var value := fp.value(f);
      var fraction := Abs(value - Truncate(value) as real);
      var ms := Milliseconds(value, fp.value(fp.near(fraction * 86400000.0)));
      if InRange(ms) then Date(ms * 1000000) else OutOfRange
  }

  /** Truncation gives back the day and the absolute fraction the time of day, for any day value
      whose error stays below half a millisecond together with the error of the product, and
      exactly at midnight. */
  lemma DecodeTolerates(day: int, rest: int, value: real, product: real, slack: real)
    requires 0 <= rest < DAY_MS && slack >= 0.0
    requires Abs(value - Exact(day, rest)) * 86400000.0 + slack < 0.5
    requires rest == 0 ==> value == day as real
    requires Abs(product - Abs(value - Truncate(value) as real) * 86400000.0) <= slack
    ensures Truncate(value) == day
    ensures Milliseconds(value, product) == day * DAY_MS + rest
  {
    if rest == 0 {
      assert value.Floor == day && (-value).Floor == -day;
    } else {
      InsideDay(day, rest, value);
      var fraction := Abs(value - Truncate(value) as real);
      assert Abs(fraction * 86400000.0 - rest as real) + slack < 0.5;
      assert (product + 0.5).Floor == rest;
    }
  }

  lemma InsideDay(day: int, rest: int, value: real)
    requires 0 < rest < DAY_MS
    requires Abs(value - Exact(day, rest)) * 86400000.0 < 0.5
    ensures Truncate(value) == day
    ensures Abs(Abs(value - day as real) * 86400000.0 - rest as real) == Abs(value - Exact(day, rest)) * 86400000.0
  {
    var q := rest as real / 86400000.0;
    assert q * 86400000.0 == rest as real;
    if day < 0 {
      assert day as real - 1.0 < value < day as real;
      assert (-value).Floor == -day;
    } else {
      assert day as real < value < day as real + 1.0;
      assert value.Floor == day;
    }
  }

  /** Every millisecond instant in range, perturbed by any error below half a millisecond (none
      at midnight), decodes to itself. */
  lemma PerturbedDateDecodes(ms: int, value: real)
    requires InRange(ms)
    requires Abs(value - Exact(ms / DAY_MS, ms % DAY_MS)) * 86400000.0 < 0.5
    requires ms % DAY_MS == 0 ==> value == (ms / DAY_MS) as real
    ensures Milliseconds(value, Abs(value - Truncate(value) as real) * 86400000.0) == ms
  {
    DecodeTolerates(ms / DAY_MS, ms % DAY_MS, value, Abs(value - Truncate(value) as real) * 86400000.0, 0.0);
  }

  lemma NearIsClose(fp: Fpu, x: real, bound: real)
    requires Faithful(fp) && Abs(x) <= bound <= 100000000.0
    ensures fp.finite(fp.near(x)) && Abs(fp.value(fp.near(x)) - x) * TWO_53 <= bound + 1.0
    ensures x == x.Floor as real ==> fp.value(fp.near(x)) == x
  {
    assert RoundsWell(fp, x);
  }

  /** The two roundings of writing stay far below half a millisecond. */
  lemma SumIsClose(days: int, rest: int, fraction: real, written: real)
    requires FIRST_DAY <= days <= LAST_DAY && 0 <= rest < DAY_MS
    requires Abs(fraction - rest as real / 86400000.0) * TWO_53 <= 2.0
    requires Abs(written - Sum(days, fraction)) * TWO_53 <= 3000001.0
    ensures Abs(written - Exact(days, rest)) * 86400000.0 < 0.25
  {}

  lemma SumIsBounded(days: int, rest: int, fraction: real)
    requires FIRST_DAY <= days <= LAST_DAY && 0 <= rest < DAY_MS
    requires Abs(fraction - rest as real / 86400000.0) * TWO_53 <= 2.0
    ensures Abs(Sum(days, fraction)) <= 3000000.0
  {}

  lemma WrittenDateIsClose(fp: Fpu, days: int, rest: int)
    requires Faithful(fp) && FIRST_DAY <= days <= LAST_DAY && 0 <= rest < DAY_MS
    ensures var f := Written(fp, days, fp.value(fp.near(rest as real / 86400000.0)));
            && fp.finite(f)
            && Abs(fp.value(f) - Exact(days, rest)) * 86400000.0 < 0.25
            && (rest == 0 ==> fp.value(f) == days as real)
  {
    var q := rest as real / 86400000.0;
    NearIsClose(fp, q, 1.0);
    var fraction := fp.value(fp.near(q));
    SumIsBounded(days, rest, fraction);
    NearIsClose(fp, Sum(days, fraction), 3000000.0);
    SumIsClose(days, rest, fraction, fp.value(fp.near(Sum(days, fraction))));
    if rest == 0 {
      MidnightIsExact(fp, days, q);
    }
  }

  lemma MidnightIsExact(fp: Fpu, days: int, q: real)
    requires Faithful(fp) && FIRST_DAY <= days <= LAST_DAY && q == 0.0
    ensures fp.value(Written(fp, days, fp.value(fp.near(q)))) == days as real
  {
    NearIsClose(fp, q, 1.0);
    assert q.Floor == 0;
    NearIsClose(fp, days as real, 3000000.0);
    assert (days as real).Floor == days;
  }

  lemma DayOf(days: int, rest: int)
    requires 0 <= rest < DAY_MS
    ensures (days * DAY_MS + rest) / DAY_MS == days
  {}

  /** A double close to the exact DATE of a millisecond instant reads as that instant. */
  lemma ReadIsExact(fp: Fpu, days: int, rest: int, f: Float64)
    requires Faithful(fp) && FIRST_DAY <= days <= LAST_DAY && 0 <= rest < DAY_MS && fp.finite(f)
    requires Abs(fp.value(f) - Exact(days, rest)) * 86400000.0 < 0.25
    requires rest == 0 ==> fp.value(f) == days as real
    ensures AutomationDate(fp, f) == Date((days * DAY_MS + rest) * 1000000)
  {
    var value := fp.value(f);
    ValueInRange(days, rest, value);
    var fraction := Abs(value - Truncate(value) as real);
    NearIsClose(fp, fraction * 86400000.0, 90000000.0);
    var product := fp.value(fp.near(fraction * 86400000.0));
    DecodeTolerates(days, rest, value, product, 0.1);
    DayOf(days, rest);
    ReadUnfolds(fp, f, days * DAY_MS + rest, product);
  }

  lemma ReadUnfolds(fp: Fpu, f: Float64, ms: int, product: real)
    requires fp.finite(f) && -657435.0 < fp.value(f) < 2958466.0 && InRange(ms)
    requires product == fp.value(fp.near(Abs(fp.value(f) - Truncate(fp.value(f)) as real) * 86400000.0))
    requires Milliseconds(fp.value(f), product) == ms
    ensures AutomationDate(fp, f) == Date(ms * 1000000)
  {}

  lemma ValueInRange(days: int, rest: int, value: real)
    requires FIRST_DAY <= days <= LAST_DAY && 0 <= rest < DAY_MS
    requires Abs(value - Exact(days, rest)) * 86400000.0 < 0.25
    requires rest == 0 ==> value == days as real
    ensures Truncate(value) == days && -657435.0 < value < 2958466.0
    ensures Abs(value - days as real) * 86400000.0 <= 90000000.0
  {
    if rest > 0 {
      InsideDay(days, rest, value);
    } else {
      assert value.Floor == days && (-value).Floor == -days;
    }
  }

  lemma WriteUnfolds(fp: Fpu, ns: int)
    ensures var ms := RoundMs(ns);
            DateAutomation(fp, ns) ==
              if InRange(ms) then Date(Written(fp, ms / DAY_MS, fp.value(fp.near((ms % DAY_MS) as real / 86400000.0))))
              else OutOfRange
  {}

  /** Rounding goes to the nearest millisecond, half up. */
  lemma RoundMsIsNearest(ns: int)
    ensures -500000 <= ns - 1000000 * RoundMs(ns) < 500000
  {}

  /** The instants that can be written: from 0100-01-01 to 9999-12-31, after rounding. */
  predicate Writable(ns: int) {
    -657434 * 86400000000000 <= ns + 500000 < 2958466 * 86400000000000
  }

  lemma WritableIsInRange(ns: int)
    ensures Writable(ns) <==> InRange(RoundMs(ns))
  {
    var ms := RoundMs(ns);
    RoundMsIsNearest(ns);
    assert InRange(ms) <==> -657434 * 86400000 <= ms < 2958466 * 86400000;
  }

  /** Writing and reading in terms of the rounded millisecond. */
  lemma RoundedRoundTrip(fp: Fpu, ns: int)
    requires Faithful(fp)
    ensures DateAutomation(fp, ns).Date? <==> InRange(RoundMs(ns))
    ensures DateAutomation(fp, ns).Date? ==>
              AutomationDate(fp, DateAutomation(fp, ns).value) == Date(RoundMs(ns) * 1000000)
  {
    WriteUnfolds(fp, ns);
    var ms := RoundMs(ns);
    if InRange(ms) {
      WrittenDateIsClose(fp, ms / DAY_MS, ms % DAY_MS);
      ReadIsExact(fp, ms / DAY_MS, ms % DAY_MS, DateAutomation(fp, ns).value);
    }
  }

  /** m is the whole millisecond nearest to ns. */
  predicate NearestMillisecond(ns: int, m: int) {
    m % 1000000 == 0 && -500000 <= ns - m < 500000
  }

  lemma RoundedIsNearest(ns: int)
    ensures NearestMillisecond(ns, RoundMs(ns) * 1000000)
    ensures ns % 1000000 == 0 ==> RoundMs(ns) * 1000000 == ns
  {
    RoundMsIsNearest(ns);
  }

  /** Exactly the instants of the years 100 to 9999 can be written.  The double reads back as the
      nearest whole millisecond, and so a whole millisecond reads back as itself. */
  lemma DateRoundTrip(fp: Fpu, ns: int) returns (m: int)
    requires Faithful(fp)
    ensures DateAutomation(fp, ns).Date? <==> Writable(ns)
    ensures Writable(ns) ==> AutomationDate(fp, DateAutomation(fp, ns).value) == Date(m)
    ensures NearestMillisecond(ns, m) && (ns % 1000000 == 0 ==> m == ns)
  {
    m := RoundMs(ns) * 1000000;
    RoundedRoundTrip(fp, ns);
    WritableIsInRange(ns);
    RoundedIsNearest(ns);
  }

  /** The double f stands for a day and a time of day within a quarter millisecond. */
  predicate StandsFor(fp: Fpu, f: Float64, day: int, rest: int) {
    fp.finite(f) && 0 <= rest < 86400000 && Abs(fp.value(f) - Exact(day, rest)) * 86400000.0 < 0.25
  }

  /** The double that is written stands for the day and time of day of the nearest millisecond. */
  lemma DateIsWritten(fp: Fpu, ns: int) returns (day: int, rest: int)
    requires Faithful(fp) && Writable(ns)
    ensures DateAutomation(fp, ns).Date? && StandsFor(fp, DateAutomation(fp, ns).value, day, rest)
    ensures NearestMillisecond(ns, (day * 86400000 + rest) * 1000000)
  {
    var ms := RoundMs(ns);
    day, rest := ms / DAY_MS, ms % DAY_MS;
    WriteUnfolds(fp, ns);
    WritableIsInRange(ns);
    WrittenDateIsClose(fp, day, rest);
    NearestParts(ns, day, rest);
  }

  lemma NearestParts(ns: int, day: int, rest: int)
    requires day == RoundMs(ns) / DAY_MS && rest == RoundMs(ns) % DAY_MS
    ensures NearestMillisecond(ns, (day * 86400000 + rest) * 1000000)
  {
    RoundMsIsNearest(ns);
    assert day * 86400000 + rest == RoundMs(ns);
  }

  /** The milliseconds of a product that was rounded once. */
  lemma RoundedProduct(exact: real, product: real)
    requires 0.0 <= exact <= 86400000.0 && Abs(product - exact) * TWO_53 <= 90000001.0
    ensures Abs((product + 0.5).Floor as real - exact) <= 0.6 && 0 <= (product + 0.5).Floor <= 86400000
    ensures exact == 0.0 ==> (product + 0.5).Floor == 0
  {
    assert Abs(product - exact) <= 0.1;
  }

  lemma FractionOf(value: real)
    ensures 0.0 <= Abs(value - Truncate(value) as real) < 1.0
  {}

  lemma StaysInRange(value: real, day: int, time: int)
    requires -657434.0 <= value <= 2958465.0 && day == Truncate(value) && 0 <= time <= 86400000
    requires value == day as real ==> time == 0
    ensures InRange(day * DAY_MS + time)
  {
    assert FIRST_DAY <= day <= LAST_DAY;
    assert day == LAST_DAY ==> time == 0;
    assert FIRST_DAY * 86400000 <= day * DAY_MS + time < (LAST_DAY + 1) * 86400000;
  }

  /** Reading a finite double inside the range of days: its truncated day, and the milliseconds of
      its absolute fraction up to one rounding of the product, unless that leaves the range. */
  lemma DateIsRead(fp: Fpu, f: Float64, value: real, day: int) returns (time: int)
    requires Faithful(fp) && fp.finite(f) && value == fp.value(f) && -657435.0 < value < 2958466.0
    requires day == Truncate(value)
    ensures 0 <= time <= 86400000 && (value == day as real ==> time == 0)
    ensures Abs(time as real - Abs(value - day as real) * 86400000.0) <= 0.6
    ensures AutomationDate(fp, f) ==
              if InRange(day * DAY_MS + time) then Date((day * DAY_MS + time) * 1000000) else OutOfRange
  {
    var exact := Abs(value - day as real) * 86400000.0;
    FractionOf(value);
    NearIsClose(fp, exact, 90000000.0);
    var product := fp.value(fp.near(exact));
    RoundedProduct(exact, product);
    time := (product + 0.5).Floor;
  }

  lemma InRangeMeans(ms: int)
    ensures InRange(ms) <==> -657434 * 86400000 <= ms < 2958466 * 86400000
  {}

  /** Every finite double from the first day to the last is read, and none outside of them. */
  lemma DateIsAccepted(fp: Fpu, f: Float64)
    requires Faithful(fp)
    ensures fp.finite(f) && -657434.0 <= fp.value(f) <= 2958465.0 ==> AutomationDate(fp, f).Date?
    ensures !fp.finite(f) || fp.value(f) <= -657435.0 || fp.value(f) >= 2958466.0 ==> AutomationDate(fp, f).OutOfRange?
  {
    var value := fp.value(f);
    if fp.finite(f) && -657434.0 <= value <= 2958465.0 {
      var time := DateIsRead(fp, f, value, Truncate(value));
      StaysInRange(value, Truncate(value), time);
    }
  }
}
