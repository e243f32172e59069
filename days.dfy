/**
 * The calendar of the 120-day path: a seven-day starter week followed by four
 * mastery months of 28, 28, 28 and 29 days (overall days 8-35, 36-63, 64-91 and
 * 92-120), the offices and the priesthood order each belongs to, and the
 * rounding that turns day counts into percentages.
 */
module Days {
  import opened Common

  datatype Office = Deacon | Teacher | Priest | Elder
  datatype Order = Aaronic | Melchizedek

  const StarterDays := 7
  const LastDay := 120

  /** `PRIESTHOOD_ORDER_BY_OFFICE[office] || "Aaronic"`. */
  function OrderOf(office: Option<Office>): (o: Order)
    ensures o == Melchizedek <==> office == Some(Elder)
  {
    match office
    case Some(Elder) => Melchizedek
    case _ => Aaronic
  }

  /** `MASTERY_DAYS_BY_MONTH[month] || 28`. */
  function MasteryDays(month: int): (n: int)
    ensures n == 28 || n == 29
    ensures n == 29 <==> month == 4
  {
    if month == 1 || month == 2 || month == 3 then 28
    else if month == 4 then 29
    else 28
  }

  /** How many elements `list.slice(0, k)` keeps of a list of length `len`. */
  function SliceCount(len: nat, k: int): (n: nat)
    ensures n <= len
    ensures 0 <= k ==> n == Min(k, len)
    ensures k < 0 ==> n == Max(0, len + k)
  {
    if k >= 0 then (if k <= len then k else len)
    else if len + k >= 0 then len + k else 0
  }

  /** Days in mastery months `1..n`. */
  function DaysThrough(n: nat): (total: int)
    requires n <= 3
    ensures total == 28 * n
  {
    if n == 0 then 0 else DaysThrough(n - 1) + MasteryDays(n)
  }

  /**
   * `7 + [1, 2, 3].slice(0, month - 1).reduce((sum, key) => sum + days(key), 0)`:
   * the overall day just before day 1 of `month`.  A month below 1 gives
   * `slice(0, negative)`, which counts from the end of `[1, 2, 3]`.
   */
  function MonthOffset(month: int): (off: int)
    ensures 7 <= off <= 91
    ensures 1 <= month <= 4 ==> off == 7 + 28 * (month - 1)
    ensures month >= 4 ==> off == 91
  {
    StarterDays + DaysThrough(SliceCount(3, month - 1))
  }

  /** `overallDayForMonth(month, day)`; also the provider's mastery `activeDay`. */
  function OverallDay(month: int, day: int): int
  {
    MonthOffset(month) + day
  }

  datatype MonthBreak = MonthBreak(month: int, start: int, end: int)

  const MonthBreaks: seq<MonthBreak> :=
    [MonthBreak(1, 8, 35), MonthBreak(2, 36, 63), MonthBreak(3, 64, 91), MonthBreak(4, 92, 120)]

  /** `monthBreaks.find(entry => d >= entry.start && d <= entry.end)`. */
  function FindMonthBreak(d: int): (b: Option<MonthBreak>)
    ensures b.None? <==> d < 8 || d > LastDay
    ensures b.Some? ==> b.value in MonthBreaks && b.value.start <= d <= b.value.end
  {
    if 8 <= d <= 35 then Some(MonthBreaks[0])
    else if 36 <= d <= 63 then Some(MonthBreaks[1])
    else if 64 <= d <= 91 then Some(MonthBreaks[2])
    else if 92 <= d <= 120 then Some(MonthBreaks[3])
    else None
  }

  /** Each month break is exactly the span of overall days its month covers. */
  lemma MonthBreaksAgree(k: int)
    requires 0 <= k < |MonthBreaks|
    ensures MonthBreaks[k].month == k + 1
    ensures MonthBreaks[k].start == MonthOffset(k + 1) + 1
    ensures MonthBreaks[k].end == MonthOffset(k + 1) + MasteryDays(k + 1)
  {
  }

  /**
   * A mastery position (month, day of month) names one overall day in 8..120, and
   * the month lookup on that overall day gives the position back.
   */
  lemma OverallDayRoundTrip(month: int, day: int)
    requires 1 <= month <= 4 && 1 <= day <= MasteryDays(month)
    ensures 8 <= OverallDay(month, day) <= LastDay
    ensures FindMonthBreak(OverallDay(month, day)) == Some(MonthBreaks[month - 1])
    ensures OverallDay(month, day) - MonthBreaks[month - 1].start + 1 == day
  {
  }

  /** Every overall day in 8..120 is reached from exactly the position the lookup gives. */
  lemma FindMonthBreakRoundTrip(d: int)
    requires 8 <= d <= LastDay
    ensures FindMonthBreak(d).Some?
    ensures var b := FindMonthBreak(d).value;
      1 <= b.month <= 4 && 1 <= d - b.start + 1 <= MasteryDays(b.month)
      && OverallDay(b.month, d - b.start + 1) == d
  {
  }

  /**
   * `Math.round(num / den)` for a positive denominator, computed exactly:
   * the nearest whole number, halves rounded up.
   */
  function RoundRatio(num: int, den: int): (r: int)
    requires den > 0
    ensures 2 * den * r <= 2 * num + den < 2 * den * (r + 1)
  {
    (2 * num + den) / (2 * den)
  }

  /** `Math.round(part / whole * 100)`. */
  function Percent(part: int, whole: int): int
    requires whole > 0
  {
    RoundRatio(100 * part, whole)
  }

  /** Rounding is monotone in the numerator. */
  lemma RoundRatioMonotone(a: int, b: int, den: int)
    requires den > 0 && a <= b
    ensures RoundRatio(a, den) <= RoundRatio(b, den)
  {
    var ra, rb := RoundRatio(a, den), RoundRatio(b, den);
    if ra > rb {
      ScaleLe(2 * den, rb + 1, ra);
      assert false;
    }
  }

  lemma ScaleLe(c: int, x: int, y: int)
    requires c > 0 && x <= y
    ensures c * x <= c * y
  {
  }

  /** A rounded ratio of exact multiples is the exact quotient. */
  lemma RoundRatioExact(q: int, den: int)
    requires den > 0
    ensures RoundRatio(q * den, den) == q
  {
    var r := RoundRatio(q * den, den);
    assert 2 * den * r <= 2 * den * q + den;
    assert 2 * den * q + den < 2 * den * (r + 1);
    if r > q {
      ScaleLe(2 * den, q + 1, r);
      assert false;
    }
    if r < q {
      ScaleLe(2 * den, r + 1, q);
      assert false;
    }
  }

  /**
   * For a whole below 200, a share of at most the whole rounds to a whole percentage between 0 and 100;
   * it reads 100 exactly when the share is complete, and at least 1 when any part is there.
   */
  lemma PercentBounds(part: int, whole: int)
    requires 0 <= part <= whole && 0 < whole < 200
    ensures 0 <= Percent(part, whole) <= 100
    ensures Percent(part, whole) == 100 <==> part == whole
    ensures part >= 1 ==> Percent(part, whole) >= 1
  {
    RoundRatioMonotone(0, 100 * part, whole);
    RoundRatioMonotone(100 * part, 100 * whole, whole);
    RoundRatioExact(0, whole);
    RoundRatioExact(100, whole);
    if part < whole {
      var r := Percent(part, whole);
      assert 100 * part <= 100 * whole - 100;
      assert 2 * whole * r <= 200 * part + whole;
      assert 200 * part + whole <= 200 * whole - 200 + whole;
      if r >= 100 {
        ScaleLe(2 * whole, 100, r);
        assert false;
      }
    }
    if part >= 1 {
      var r := Percent(part, whole);
      assert 200 * part + whole >= 200 + whole;
      if r < 1 {
        ScaleLe(2 * whole, r + 1, 1);
        assert false;
      }
    }
  }
}
