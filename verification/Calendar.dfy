/** The proleptic Gregorian calendar of one fixed offset, as far as time.Date and AddDate use it.
    Days are counted from 0001-01-01, a Monday. A month is numbered 12 * year + month - 1, so that
    month arithmetic carries over year ends by itself. */
module Calendar {

  const MINUTE := 60_000_000_000
  const HOUR := 3_600_000_000_000
  const DAY := 86_400_000_000_000

  predicate Leap(y: int) {
    y % 4 == 0 && (y % 100 != 0 || y % 400 == 0)
  }

  function DaysIn(y: int, m: int): int {
    if m == 2 then (if Leap(y) then 29 else 28)
    else if m in {4, 6, 9, 11} then 30 else 31
  }

  function MonthLength(k: int): (n: int)
    ensures 28 <= n <= 31
  {
    DaysIn(k / 12, k % 12 + 1)
  }

  /** The number of the first day of a month; the calendar begins with January of year 1. */
  function MonthStart(k: int): int
    decreases if k < 12 then 12 - k else k - 12
  {
    if k == 12 then 0
    else if k > 12 then MonthStart(k - 1) + MonthLength(k - 1)
    else MonthStart(k + 1) - MonthLength(k)
  }

  lemma NextMonth(k: int)
    ensures MonthStart(k + 1) == MonthStart(k) + MonthLength(k)
  {
  }

  lemma {:induction false} MonthsIncrease(j: int, k: int)
    requires j < k
    ensures MonthStart(j) + 28 * (k - j) <= MonthStart(k)
    decreases k - j
  {
    NextMonth(k - 1);
    if j == k - 1 {
    } else {
      MonthsIncrease(j, k - 1);
    }
  }

  /** The month a day lies in. */
  function MonthOf(day: int): (k: int)
    ensures MonthStart(k) <= day < MonthStart(k + 1)
    decreases if day < 0 then -day else day
  {
    if day == 0 then
      assert MonthStart(12) == 0; NextMonth(12);
      12
    else if day > 0 then
      var k := MonthOf(day - 1);
      NextMonth(k + 1);
      if day < MonthStart(k + 1) then k else k + 1
    else
      var k := MonthOf(day + 1);
      NextMonth(k - 1);
      if MonthStart(k) <= day then k else k - 1
  }

  lemma MonthsInOrder(j: int, k: int)
    requires j <= k
    ensures MonthStart(j) <= MonthStart(k)
  {
    if j < k {
      MonthsIncrease(j, k);
    }
  }

  lemma MonthIsUnique(day: int, k: int)
    requires MonthStart(k) <= day < MonthStart(k + 1)
    ensures MonthOf(day) == k
  {
    var m := MonthOf(day);
    if m < k {
      MonthsInOrder(m + 1, k);
    } else if k < m {
      MonthsInOrder(k + 1, m);
    }
  }

  // ------------------------------------------------------------------------------------
  // Instants
  // ------------------------------------------------------------------------------------

  datatype Moment = Moment(day: int, clock: int)

  /** A day and the nanoseconds passed on it. */
  type Instant = m: Moment | 0 <= m.clock < DAY witness Moment(0, 0)

  function Nanos(t: Instant): int { t.day * DAY + t.clock }

  function Hour(t: Instant): (h: int)
    ensures 0 <= h < 24
  {
    t.clock / HOUR
  }

  function Minute(t: Instant): (m: int)
    ensures 0 <= m < 60
  {
    t.clock % HOUR / MINUTE
  }

  function Clock(hour: int, minute: int): (clock: int)
    requires 0 <= hour < 24 && 0 <= minute < 60
    ensures 0 <= clock < DAY
  {
    hour * HOUR + minute * MINUTE
  }

  lemma ClockIsFloor(t: Instant)
    ensures Clock(Hour(t), 0) <= t.clock < Clock(Hour(t), 0) + HOUR
    ensures Clock(Hour(t), Minute(t)) <= t.clock < Clock(Hour(t), Minute(t)) + MINUTE
  {
  }

  function Year(t: Instant): int { MonthOf(t.day) / 12 }

  function Month(t: Instant): int { MonthOf(t.day) % 12 + 1 }

  function DayOfMonth(t: Instant): int { t.day - MonthStart(MonthOf(t.day)) + 1 }

  /** Sunday is 0. */
  function Weekday(t: Instant): int { (t.day + 1) % 7 }

  /** The instant of a date; months and days outside their usual range carry over. */
  function Date(year: int, month: int, day: int, clock: int): Instant
    requires 0 <= clock < DAY
  {
    Moment(MonthStart(12 * year + month - 1) + day - 1, clock)
  }

  function Add(t: Instant, duration: int): Instant {
    Moment(t.day + (t.clock + duration) / DAY, (t.clock + duration) % DAY)
  }

  /** A date with years, months and days added to its parts. */
  function AddDate(t: Instant, years: int, months: int, days: int): Instant {
    Moment(MonthStart(MonthOf(t.day) + 12 * years + months) + DayOfMonth(t) + days - 1, t.clock)
  }

  /** That is the date of the sums, normalised. */
  lemma AddDateIsDate(t: Instant, years: int, months: int, days: int)
    ensures AddDate(t, years, months, days) == Date(Year(t) + years, Month(t) + months, DayOfMonth(t) + days, t.clock)
  {
    MonthNumber(MonthOf(t.day), 12 * years + months);
    assert 12 * (Year(t) + years) + (Month(t) + months) - 1 == MonthOf(t.day) + 12 * years + months;
  }

  lemma AddIsExact(t: Instant, duration: int)
    ensures Nanos(Add(t, duration)) == Nanos(t) + duration
  {
  }

  lemma NanosDecide(s: Instant, t: Instant)
    ensures Nanos(s) == Nanos(t) <==> s == t
    ensures Nanos(s) < Nanos(t) <==> s.day < t.day || (s.day == t.day && s.clock < t.clock)
  {
  }

  lemma MonthNumber(k: int, n: int)
    ensures 12 * (k / 12) + (k % 12 + 1 + n) - 1 == k + n
  {
  }

  /** Days are added as whole days. */
  lemma AddDays(t: Instant, days: int)
    ensures AddDate(t, 0, 0, days) == Moment(t.day + days, t.clock)
  {
  }

  lemma AddMonths(t: Instant, n: int)
    ensures AddDate(t, 0, n, 0) == Moment(MonthStart(MonthOf(t.day) + n) + DayOfMonth(t) - 1, t.clock)
  {
  }

  /** Shifting by months lands on the same day of the target month if that day exists there. */
  lemma MonthShift(t: Instant, n: int)
    requires DayOfMonth(t) <= 28
    ensures var s := AddDate(t, 0, n, 0);
      MonthOf(s.day) == MonthOf(t.day) + n && DayOfMonth(s) == DayOfMonth(t) && s.clock == t.clock
  {
    var k := MonthOf(t.day) + n;
    AddMonths(t, n);
    NextMonth(k);
    MonthIsUnique(MonthStart(k) + DayOfMonth(t) - 1, k);
  }

  /** Shifts by months add up for every pair of shifts exactly if the day is at most the 28th. */
  lemma MonthShiftsComposeIff(t: Instant)
    ensures (forall a, b :: AddDate(AddDate(t, 0, a, 0), 0, b, 0) == AddDate(t, 0, a + b, 0))
        <==> DayOfMonth(t) <= 28
  {
    if DayOfMonth(t) <= 28 {
      forall a, b ensures AddDate(AddDate(t, 0, a, 0), 0, b, 0) == AddDate(t, 0, a + b, 0) {
        MonthShiftsCompose(t, a, b);
      }
    } else {
      var february := 12 * 2001 + 1;
      assert MonthLength(february) == 28 && MonthLength(february + 1) == 31;
      OverflowingDay(t, february - MonthOf(t.day));
    }
  }

  lemma MonthShiftsCompose(t: Instant, a: int, b: int)
    requires DayOfMonth(t) <= 28
    ensures AddDate(AddDate(t, 0, a, 0), 0, b, 0) == AddDate(t, 0, a + b, 0)
  {
    MonthShift(t, a);
    AddMonths(AddDate(t, 0, a, 0), b);
    AddMonths(t, a + b);
  }

  /** From the 29th on, a shift to a February of 28 days spills into March, and a further month
      lands in April where a direct shift lands in March. */
  lemma OverflowingDay(t: Instant, a: int)
    requires DayOfMonth(t) > 28
    requires MonthLength(MonthOf(t.day) + a) == 28 && MonthLength(MonthOf(t.day) + a + 1) == 31
    ensures AddDate(AddDate(t, 0, a, 0), 0, 1, 0) != AddDate(t, 0, a + 1, 0)
  {
    var m, d := MonthOf(t.day) + a, DayOfMonth(t);
    var s := AddDate(t, 0, a, 0);
    NextMonth(MonthOf(t.day));
    AddMonths(t, a);
    SpillsOver(s.day, m, d - 28);
    AddMonths(s, 1);
    AddMonths(t, a + 1);
    NextMonth(m + 1);
    assert AddDate(s, 0, 1, 0).day == MonthStart(m + 2) + d - 29;
  }

  lemma SpillsOver(day: int, m: int, d: int)
    requires MonthLength(m) == 28 && 1 <= d <= 3 && day == MonthStart(m) + 27 + d
    ensures MonthOf(day) == m + 1 && day == MonthStart(m + 1) + d - 1
  {
    NextMonth(m);
    NextMonth(m + 1);
    MonthIsUnique(day, m + 1);
  }

  // ------------------------------------------------------------------------------------
  // The usual closed form
  // ------------------------------------------------------------------------------------

  function DaysBeforeYear(y: int): int {
    365 * (y - 1) + (y - 1) / 4 - (y - 1) / 100 + (y - 1) / 400
  }

  /** Days before month m, 1 to 12, of year y. */
  function DaysBeforeMonth(y: int, m: int): int {
    var common :=
      if m <= 1 then 0 else if m == 2 then 31 else if m == 3 then 59 else if m == 4 then 90
      else if m == 5 then 120 else if m == 6 then 151 else if m == 7 then 181 else if m == 8 then 212
      else if m == 9 then 243 else if m == 10 then 273 else if m == 11 then 304 else 334;
    common + if m > 2 && Leap(y) then 1 else 0
  }

  function ClosedForm(k: int): int {
    DaysBeforeYear(k / 12) + DaysBeforeMonth(k / 12, k % 12 + 1)
  }

  lemma Quarter(y: int)
    ensures y / 4 == (y - 1) / 4 + if y % 4 == 0 then 1 else 0
  {
  }

  lemma Hundredth(y: int)
    ensures y / 100 == (y - 1) / 100 + if y % 100 == 0 then 1 else 0
    ensures y % 100 == 0 ==> y % 4 == 0
  {
  }

  lemma FourHundredth(y: int)
    ensures y / 400 == (y - 1) / 400 + if y % 400 == 0 then 1 else 0
    ensures y % 400 == 0 ==> y % 100 == 0
  {
  }

  lemma YearLength(y: int)
    ensures DaysBeforeYear(y + 1) == DaysBeforeYear(y) + if Leap(y) then 366 else 365
  {
    Quarter(y);
    Hundredth(y);
    FourHundredth(y);
  }

  lemma ClosedFormStep(k: int)
    ensures ClosedForm(k + 1) == ClosedForm(k) + MonthLength(k)
  {
    if k % 12 == 11 {
      assert (k + 1) / 12 == k / 12 + 1 && (k + 1) % 12 == 0;
      YearLength(k / 12);
    } else {
      assert (k + 1) / 12 == k / 12 && (k + 1) % 12 == k % 12 + 1;
    }
  }

  /** Counting month by month agrees with the leap-year formula, for every month there is. */
  lemma {:induction false} MonthStartIsClosedForm(k: int)
    ensures MonthStart(k) == ClosedForm(k)
    decreases if k < 12 then 12 - k else k - 12
  {
    if k == 12 {
    } else if k > 12 {
      MonthStartIsClosedForm(k - 1);
      ClosedFormStep(k - 1);
    } else {
      MonthStartIsClosedForm(k + 1);
      ClosedFormStep(k);
    }
  }
}
