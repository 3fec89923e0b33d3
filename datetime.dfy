// Date and time helpers (src/utils/datetime.ts). A `Date` is modelled by its
// local-time value in milliseconds since 1970-01-01 00:00 local time; time
// zones and daylight-saving shifts are not modelled, so every day has exactly
// 86 400 000 ms. Dafny's `/` and `%` are Euclidean, which for the positive
// divisors used here is JavaScript's `Math.floor` division.
module DateTime {
  import opened Text

  type Time = int

  /** Days since 1970-01-01 (which was a Thursday). */
  function Day(t: Time): int { t / 86400000 }

  /** Milliseconds since local midnight. */
  function TimeOfDay(t: Time): int { t % 86400000 }

  /** `getHours()` */
  function Hours(t: Time): int { TimeOfDay(t) / 3600000 }

  /** `getDay()`: 0 = Sunday, ..., 6 = Saturday. */
  function WeekDay(t: Time): int { (Day(t) + 4) % 7 }

  /** The same time of day `k` calendar days later (`setDate(getDate() + k)`). */
  function ShiftDays(t: Time, k: int): Time { t + k * 86400000 }

  lemma ShiftDaysFacts(t: Time, k: int)
    ensures Day(ShiftDays(t, k)) == Day(t) + k
    ensures TimeOfDay(ShiftDays(t, k)) == TimeOfDay(t)
  {
  }

  /** startOfDay: `setHours(0, 0, 0, 0)` on a copy. */
  function StartOfDay(t: Time): (r: Time)
    ensures r <= t && Day(r) == Day(t) && TimeOfDay(r) == 0
  {
    Day(t) * 86400000
  }

  /** endOfDay: `setHours(23, 59, 59, 999)` on a copy. */
  function EndOfDay(t: Time): (r: Time)
    ensures t <= r && Day(r) == Day(t) && TimeOfDay(r) == 86399999
    ensures r - StartOfDay(t) == 86399999
  {
    Day(t) * 86400000 + 86399999
  }

  /** Every instant of the day lies between its start and its end; both are fixed points. */
  lemma DayBounds(t: Time, u: Time)
    requires Day(u) == Day(t)
    ensures StartOfDay(t) <= u <= EndOfDay(t)
    ensures StartOfDay(StartOfDay(t)) == StartOfDay(t) && EndOfDay(EndOfDay(t)) == EndOfDay(t)
  {
  }

  /** doTimeRangesOverlap: half-open ranges [start, end) share an instant. */
  predicate RangesOverlap(start1: Time, end1: Time, start2: Time, end2: Time)
  {
    start1 < end2 && end1 > start2
  }

  lemma OverlapSymmetric(s1: Time, e1: Time, s2: Time, e2: Time)
    ensures RangesOverlap(s1, e1, s2, e2) <==> RangesOverlap(s2, e2, s1, e1)
  {
  }

  /** Ranges that only touch do not overlap. */
  lemma TouchingRangesDoNotOverlap(s1: Time, e1: Time, s2: Time, e2: Time)
    requires e1 == s2
    ensures !RangesOverlap(s1, e1, s2, e2) && !RangesOverlap(s2, e2, s1, e1)
  {
  }

  predicate InRange(u: Time, start: Time, end: Time) { start <= u < end }

  /** For non-empty ranges the test is the existence of a common instant. */
  lemma OverlapMeansCommonInstant(s1: Time, e1: Time, s2: Time, e2: Time)
    requires s1 < e1 && s2 < e2
    ensures RangesOverlap(s1, e1, s2, e2) <==> exists u :: InRange(u, s1, e1) && InRange(u, s2, e2)
  {
    if RangesOverlap(s1, e1, s2, e2) {
      var u := if s1 >= s2 then s1 else s2;
      assert InRange(u, s1, e1) && InRange(u, s2, e2);
    }
  }

  /** getDurationInMinutes: whole minutes, rounded down. */
  function DurationInMinutes(start: Time, end: Time): (r: int)
    ensures r * 60000 <= end - start < (r + 1) * 60000
  {
    (end - start) / 60000
  }

  /** addMinutes */
  function AddMinutes(t: Time, minutes: int): (r: Time)
    ensures r - t == minutes * 60000
  {
    t + minutes * 60000
  }

  /** Adding a whole number of minutes and measuring the gap gives the number back. */
  lemma AddMinutesRoundTrip(t: Time, m: int)
    ensures DurationInMinutes(t, AddMinutes(t, m)) == m
  {
  }

  /** isWithinBusinessHours */
  predicate WithinBusinessHours(t: Time) { 8 <= Hours(t) < 18 }

  /** Business hours are the local times from 08:00:00.000 up to, not including, 18:00. */
  lemma BusinessHoursWindow(t: Time)
    ensures WithinBusinessHours(t) <==> 28800000 <= t - StartOfDay(t) < 64800000
  {
  }

  /** isWeekend */
  predicate IsWeekend(t: Time) { WeekDay(t) == 0 || WeekDay(t) == 6 }

  /** One calendar day later is the next day of the week. */
  lemma WeekDayStep(t: Time)
    ensures WeekDay(ShiftDays(t, 1)) == (WeekDay(t) + 1) % 7
  {
    ShiftDaysFacts(t, 1);
  }

  /** getNextBusinessDay: one day later, then further days while on a weekend. */
  method NextBusinessDay(t: Time) returns (next: Time)
    ensures !IsWeekend(next)
    ensures exists k :: 1 <= k <= 3 && next == ShiftDays(t, k)
    ensures forall k :: 1 <= k && ShiftDays(t, k) < next ==> IsWeekend(ShiftDays(t, k))
  {
    var k := 1;
    next := ShiftDays(t, 1);
    WeekDayStep(t);
    while IsWeekend(next)
      invariant 1 <= k <= 3 && next == ShiftDays(t, k)
      invariant k == 2 ==> WeekDay(next) == 0 || WeekDay(next) == 1
      invariant k == 3 ==> WeekDay(next) == 1
      invariant forall j :: 1 <= j < k ==> IsWeekend(ShiftDays(t, j))
      decreases 3 - k
    {
      WeekDayStep(next);
      assert ShiftDays(next, 1) == ShiftDays(t, k + 1);
      next := ShiftDays(t, k + 1);
      k := k + 1;
    }
    forall j | 1 <= j && ShiftDays(t, j) < next
      ensures IsWeekend(ShiftDays(t, j))
    {
      assert j < k;
    }
  }

  // ----- Calendar dates (proleptic Gregorian) ---------------------------------

  predicate IsLeap(y: int) { y % 4 == 0 && (y % 100 != 0 || y % 400 == 0) }

  function DaysInYear(y: int): int { if IsLeap(y) then 366 else 365 }

  function DaysInMonth(y: int, m: int): (r: int)
    requires 1 <= m <= 12
    ensures 28 <= r <= 31
  {
    if m == 2 then (if IsLeap(y) then 29 else 28)
    else if m == 4 || m == 6 || m == 9 || m == 11 then 30
    else 31
  }

  /** Days from month `m` to the end of year `y`. */
  function DaysFromMonth(y: int, m: int): int
    requires 1 <= m <= 13
    decreases 13 - m
  {
    if m == 13 then 0 else DaysInMonth(y, m) + DaysFromMonth(y, m + 1)
  }

  lemma DaysFromJanuary(y: int)
    ensures DaysFromMonth(y, 1) == DaysInYear(y)
  {
  }

  /** Days from 1970-01-01 to the first day of year `y`. */
  function DaysBeforeYear(y: int): int
    decreases if y >= 1970 then y - 1970 else 1970 - y
  {
    if y == 1970 then 0
    else if y > 1970 then DaysBeforeYear(y - 1) + DaysInYear(y - 1)
    else DaysBeforeYear(y + 1) - DaysInYear(y)
  }

  /** Days from the first of January of `y` to the first day of month `m`. */
  function DaysBeforeMonth(y: int, m: int): int
    requires 1 <= m <= 12
    decreases m
  {
    if m == 1 then 0 else DaysBeforeMonth(y, m - 1) + DaysInMonth(y, m - 1)
  }

  datatype Civil = Civil(year: int, month: int, day: int)

  predicate ValidCivil(c: Civil)
  {
    1 <= c.month <= 12 && 1 <= c.day <= DaysInMonth(c.year, c.month)
  }

  /** Day number of a calendar date: the reference definition of the calendar. */
  function DaysFromCivil(c: Civil): int
    requires 1 <= c.month <= 12
  {
    DaysBeforeYear(c.year) + DaysBeforeMonth(c.year, c.month) + c.day - 1
  }

  /** The year containing day `n`, counting upwards from the first day of `y`. */
  function YearForward(y: int, n: int): (r: (int, int))
    requires n >= 0
    ensures 0 <= r.1 < DaysInYear(r.0)
    ensures DaysBeforeYear(r.0) + r.1 == DaysBeforeYear(y) + n
    decreases n
  {
    if n < DaysInYear(y) then (y, n)
    else
      assert DaysBeforeYear(y + 1) == DaysBeforeYear(y) + DaysInYear(y) by { DaysBeforeYearStep(y); }
      YearForward(y + 1, n - DaysInYear(y))
  }

  /** The year containing day `n` (negative), counting downwards from the first day of `y`. */
  function YearBackward(y: int, n: int): (r: (int, int))
    requires n < 0
    ensures 0 <= r.1 < DaysInYear(r.0)
    ensures DaysBeforeYear(r.0) + r.1 == DaysBeforeYear(y) + n
    decreases -n
  {
    assert DaysBeforeYear(y) == DaysBeforeYear(y - 1) + DaysInYear(y - 1) by { DaysBeforeYearStep(y - 1); }
    if n + DaysInYear(y - 1) >= 0 then (y - 1, n + DaysInYear(y - 1))
    else YearBackward(y - 1, n + DaysInYear(y - 1))
  }

  lemma DaysBeforeYearStep(y: int)
    ensures DaysBeforeYear(y + 1) == DaysBeforeYear(y) + DaysInYear(y)
  {
  }

  /** The month and day of day-of-year `off`, counting from month `m`. */
  function MonthOf(y: int, m: int, off: int): (r: (int, int))
    requires 1 <= m <= 12 && 0 <= off < DaysFromMonth(y, m)
    ensures 1 <= r.0 <= 12 && 1 <= r.1 <= DaysInMonth(y, r.0)
    ensures DaysBeforeMonth(y, r.0) + r.1 - 1 == DaysBeforeMonth(y, m) + off
    decreases 12 - m
  {
    if off < DaysInMonth(y, m) then (m, off + 1)
    else MonthOf(y, m + 1, off - DaysInMonth(y, m))
  }

  /** The calendar date of day number `n` (what `getFullYear`, `getMonth` and `getDate`
    * report). */
  function CivilFromDays(n: int): (c: Civil)
    ensures ValidCivil(c) && DaysFromCivil(c) == n
  {
    var yo := if n >= 0 then YearForward(1970, n) else YearBackward(1970, n);
    DaysFromJanuary(yo.0);
    var md := MonthOf(yo.0, 1, yo.1);
    Civil(yo.0, md.0, md.1)
  }

  lemma {:induction false} DaysBeforeMonthBound(y: int, m: int)
    requires 1 <= m <= 12
    ensures DaysBeforeMonth(y, m) + DaysFromMonth(y, m) == DaysInYear(y)
    decreases m
  {
    if m == 1 {
      DaysFromJanuary(y);
    } else {
      DaysBeforeMonthBound(y, m - 1);
    }
  }

  lemma {:induction false} DaysBeforeYearMonotone(y: int, z: int)
    requires y < z
    ensures DaysBeforeYear(y) + DaysInYear(y) <= DaysBeforeYear(z)
    decreases z - y
  {
    DaysBeforeYearStep(y);
    if y + 1 < z {
      DaysBeforeYearMonotone(y + 1, z);
    }
  }

  /** A valid date's day number lies within its year. */
  lemma DayOfYearBounds(c: Civil)
    requires ValidCivil(c)
    ensures DaysBeforeYear(c.year) <= DaysFromCivil(c) < DaysBeforeYear(c.year) + DaysInYear(c.year)
  {
    DaysBeforeMonthBound(c.year, c.month);
    assert DaysInMonth(c.year, c.month) <= DaysFromMonth(c.year, c.month);
  }

  lemma SameYear(a: Civil, b: Civil)
    requires ValidCivil(a) && ValidCivil(b) && DaysFromCivil(a) == DaysFromCivil(b)
    ensures a.year == b.year
  {
    DayOfYearBounds(a);
    DayOfYearBounds(b);
    if a.year < b.year {
      DaysBeforeYearMonotone(a.year, b.year);
    } else if b.year < a.year {
      DaysBeforeYearMonotone(b.year, a.year);
    }
  }

  lemma SameMonth(a: Civil, b: Civil)
    requires ValidCivil(a) && ValidCivil(b) && a.year == b.year
    requires DaysBeforeMonth(a.year, a.month) + a.day == DaysBeforeMonth(b.year, b.month) + b.day
    ensures a.month == b.month
  {
    if a.month < b.month {
      DaysBeforeMonthMonotone(a.year, a.month, b.month);
    } else if b.month < a.month {
      DaysBeforeMonthMonotone(a.year, b.month, a.month);
    }
  }

  /** Different valid calendar dates have different day numbers. */
  lemma DaysFromCivilInjective(a: Civil, b: Civil)
    requires ValidCivil(a) && ValidCivil(b) && DaysFromCivil(a) == DaysFromCivil(b)
    ensures a == b
  {
    SameYear(a, b);
    SameMonth(a, b);
  }

  lemma {:induction false} DaysBeforeMonthMonotone(y: int, m: int, k: int)
    requires 1 <= m < k <= 12
    ensures DaysBeforeMonth(y, m) + DaysInMonth(y, m) <= DaysBeforeMonth(y, k)
    decreases k - m
  {
    if m + 1 < k {
      DaysBeforeMonthMonotone(y, m + 1, k);
    }
  }

  /** Reading the calendar date of a valid date's day number gives the date back. */
  lemma CivilRoundTrip(c: Civil)
    requires ValidCivil(c)
    ensures CivilFromDays(DaysFromCivil(c)) == c
  {
    DaysFromCivilInjective(CivilFromDays(DaysFromCivil(c)), c);
  }

  /** `String(n).padStart(2, '0')` */
  function Pad2(n: nat): (r: string)
    ensures n < 100 ==> |r| == 2 && AllDigits(r) && ParseDigits(r) == n
  {
    if n < 10 then
      assert ParseDigits("0" + NatToString(n)) == n by {
        var r := "0" + NatToString(n);
        assert r[..1] == "0" && r[1] == DigitChar(n);
        assert ParseDigits("0") == 0 by { assert "0"[..0] == ""; }
      }
      "0" + NatToString(n)
    else
      assert n < 100 ==> |NatToString(n)| == 2 by {
        assert NatToString(n) == NatToString(n / 10) + [DigitChar(n % 10)];
      }
      assert ParseDigits(NatToString(n)) == n by { ParsePrinted(n); }
      NatToString(n)
  }

  /** formatDate: DD/MM/YYYY of the local calendar date. */
  function FormatDate(t: Time): (r: string)
    ensures |r| >= 7 && r[2] == '/' && r[5] == '/'
    ensures AllDigits(r[..2]) && AllDigits(r[3..5])
    ensures var c := CivilFromDays(Day(t));
      ParseDigits(r[..2]) == c.day && ParseDigits(r[3..5]) == c.month && r[6..] == IntToString(c.year)
  {
    var c := CivilFromDays(Day(t));
    var dd := Pad2(c.day);
    var mm := Pad2(c.month);
    var r := dd + "/" + mm + "/" + IntToString(c.year);
    assert r[..2] == dd && r[3..5] == mm && r[6..] == IntToString(c.year);
    r
  }

  lemma FormatDateExample()
    ensures FormatDate(0) == "01/01/1970"
  {
    assert DaysFromCivil(Civil(1970, 1, 1)) == 0;
    CivilRoundTrip(Civil(1970, 1, 1));
    assert NatToString(1970) == "1970";
  }
}
