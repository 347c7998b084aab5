/** Usage rules count against calendar windows: the window that contains now, and the one after. */
module UsageWindow {
  import opened Common
  import opened Calendar

  datatype Granularity = PerMinute | PerHour | PerDay | PerWeek | PerMonth | Invalid(name: string)

  datatype UsageRule = UsageRule(granularity: Granularity, windowSize: int)

  datatype Window = Window(start: Instant, end: Instant)

  /** The start of the unit of time that `now` lies in; Sunday counts as day 7 of its week. */
  function UnitStart(g: Granularity, now: Instant): Instant
    requires !g.Invalid?
  {
    match g
    case PerMinute => Date(Year(now), Month(now), DayOfMonth(now), Clock(Hour(now), Minute(now)))
    case PerHour => Date(Year(now), Month(now), DayOfMonth(now), Clock(Hour(now), 0))
    case PerDay => Date(Year(now), Month(now), DayOfMonth(now), Clock(0, 0))
    case PerWeek =>
      var weekday := if Weekday(now) == 0 then 7 else Weekday(now);
      Date(Year(now), Month(now), DayOfMonth(now) - weekday + 1, Clock(0, 0))
    case PerMonth => Date(Year(now), Month(now), 1, Clock(0, 0))
  }

  /** `t` moved on by n units. */
  function Shift(g: Granularity, n: int, t: Instant): Instant
    requires !g.Invalid?
  {
    match g
    case PerMinute => Add(t, n * MINUTE)
    case PerHour => Add(t, n * HOUR)
    case PerDay => AddDate(t, 0, 0, n)
    case PerWeek => AddDate(t, 0, 0, n * 7)
    case PerMonth => AddDate(t, 0, n, 0)
  }

  function FirstWindow(r: UsageRule, now: Instant): Option<Window> {
    if r.granularity.Invalid? then None
    else
      var start := UnitStart(r.granularity, now);
      Some(Window(start, Shift(r.granularity, r.windowSize, start)))
  }

  class UsageStats {
    var rule: Option<UsageRule>
    var startTime: Option<Instant>
    var endTime: Option<Instant>

    constructor (rule: Option<UsageRule>)
      ensures this.rule == rule && startTime == None && endTime == None
    {
      this.rule, startTime, endTime := rule, None, None;
    }

    method CalculateWindowTime(rule: UsageRule, now: Instant) returns (start: Option<Instant>, end: Option<Instant>)
      ensures start.Some? == end.Some? == !rule.granularity.Invalid?
      ensures start.Some? ==> FirstWindow(rule, now) == Some(Window(start.value, end.value))
    {
      var s;
      match rule.granularity
      case PerMinute =>
        s := Date(Year(now), Month(now), DayOfMonth(now), Clock(Hour(now), Minute(now)));
        return Some(s), Some(Add(s, rule.windowSize * MINUTE));
      case PerHour =>
        s := Date(Year(now), Month(now), DayOfMonth(now), Clock(Hour(now), 0));
        return Some(s), Some(Add(s, rule.windowSize * HOUR));
      case PerDay =>
        s := Date(Year(now), Month(now), DayOfMonth(now), Clock(0, 0));
        return Some(s), Some(AddDate(s, 0, 0, rule.windowSize));
      case PerWeek =>
        var weekday := Weekday(now);
        if weekday == 0 {
          weekday := 7;
        }
        s := Date(Year(now), Month(now), DayOfMonth(now) - weekday + 1, Clock(0, 0));
        return Some(s), Some(AddDate(s, 0, 0, rule.windowSize * 7));
      case PerMonth =>
        s := Date(Year(now), Month(now), 1, Clock(0, 0));
        return Some(s), Some(AddDate(s, 0, rule.windowSize, 0));
      case Invalid(_) =>
        return None, None;
    }

    method IsInWindow(now: Instant) returns (inside: bool)
      ensures inside <==>
        startTime.Some? && endTime.Some? && StrictlyInside(Window(startTime.value, endTime.value), now)
    {
      if startTime.None? || endTime.None? {
        return false;
      }
      inside := Nanos(now) > Nanos(startTime.value) && Nanos(now) < Nanos(endTime.value);
    }

    /** The window after the current one; the current one is computed first if it is not known.
        Nothing but that first computation changes the object. */
    method CalculateNextWindowTime(now: Instant) returns (next: Option<Window>)
      modifies this`startTime, this`endTime
      ensures rule.None? ==> next == None && startTime == old(startTime) && endTime == old(endTime)
      ensures old(endTime).Some? ==> startTime == old(startTime) && endTime == old(endTime)
      ensures rule.Some? && old(endTime).None? ==>
          var w := FirstWindow(rule.value, now);
          if w.None? then startTime == None && endTime == None
          else startTime == Some(w.value.start) && endTime == Some(w.value.end)
      ensures next.Some? <==> rule.Some? && endTime.Some? && !rule.value.granularity.Invalid?
      ensures next.Some? ==>
          && next.value.start == endTime.value
          && next.value.end == Shift(rule.value.granularity, rule.value.windowSize, next.value.start)
    {
      if rule.None? {
        return None;
      }
      if endTime.None? {
        startTime, endTime := CalculateWindowTime(rule.value, now);
      }
      if endTime.None? {
        return None;
      }
      var nextStart, size := endTime.value, rule.value.windowSize;
      var nextEnd;
      match rule.value.granularity {
        case PerMinute => nextEnd := Add(nextStart, size * MINUTE);
        case PerHour => nextEnd := Add(nextStart, size * HOUR);
        case PerDay => nextEnd := AddDate(nextStart, 0, 0, size);
        case PerWeek => nextEnd := AddDate(nextStart, 0, 0, size * 7);
        case PerMonth => nextEnd := AddDate(nextStart, 0, size, 0);
        case Invalid(_) => return None;
      }
      next := Some(Window(nextStart, nextEnd));
    }
  }

  predicate Contains(w: Window, t: Instant) {
    Nanos(w.start) <= Nanos(t) < Nanos(w.end)
  }

  // ------------------------------------------------------------------------------------
  // Alignment
  // ------------------------------------------------------------------------------------

  predicate Aligned(g: Granularity, t: Instant) {
    match g
    case PerMinute => t.clock % MINUTE == 0
    case PerHour => t.clock % HOUR == 0
    case PerDay => t.clock == 0
    case PerWeek => t.clock == 0 && Weekday(t) == 1
    case PerMonth => t.clock == 0 && DayOfMonth(t) == 1
    case Invalid(_) => false
  }

  lemma DateOnDay(now: Instant, shift: int, clock: int)
    requires 0 <= clock < DAY
    ensures Date(Year(now), Month(now), DayOfMonth(now) + shift, clock) == Moment(now.day + shift, clock)
  {
    MonthNumber(MonthOf(now.day), 0);
  }

  lemma MinuteUnit(now: Instant)
    ensures Aligned(PerMinute, UnitStart(PerMinute, now))
    ensures Contains(Window(UnitStart(PerMinute, now), Shift(PerMinute, 1, UnitStart(PerMinute, now))), now)
  {
    var start := Moment(now.day, Clock(Hour(now), Minute(now)));
    DateOnDay(now, 0, start.clock);
    ClockIsFloor(now);
    AddIsExact(start, MINUTE);
    ClockMinutes(Hour(now), Minute(now));
  }

  lemma ClockMinutes(hour: int, minute: int)
    requires 0 <= hour < 24 && 0 <= minute < 60
    ensures Clock(hour, minute) % MINUTE == 0
    ensures Clock(hour, 0) % HOUR == 0
  {
    assert Clock(hour, minute) == (hour * 60 + minute) * MINUTE;
  }

  lemma HourUnit(now: Instant)
    ensures Aligned(PerHour, UnitStart(PerHour, now))
    ensures Contains(Window(UnitStart(PerHour, now), Shift(PerHour, 1, UnitStart(PerHour, now))), now)
  {
    var start := Moment(now.day, Clock(Hour(now), 0));
    DateOnDay(now, 0, start.clock);
    ClockIsFloor(now);
    AddIsExact(start, HOUR);
    ClockMinutes(Hour(now), 0);
  }

  lemma DayUnit(now: Instant)
    ensures Aligned(PerDay, UnitStart(PerDay, now))
    ensures Contains(Window(UnitStart(PerDay, now), Shift(PerDay, 1, UnitStart(PerDay, now))), now)
  {
    DateOnDay(now, 0, Clock(0, 0));
    AddDays(Moment(now.day, 0), 1);
  }

  /** The Monday of the week that a day lies in. */
  function Monday(day: int): int {
    var weekday := (day + 1) % 7;
    day + 1 - if weekday == 0 then 7 else weekday
  }

  lemma MondayIs(day: int)
    ensures (Monday(day) + 1) % 7 == 1 && Monday(day) <= day < Monday(day) + 7
  {
  }

  lemma WeekStart(now: Instant)
    ensures UnitStart(PerWeek, now) == Moment(Monday(now.day), 0)
  {
    DateOnDay(now, Monday(now.day) - now.day, Clock(0, 0));
  }

  /** A week begins on its Monday even when that Monday lies in the month before. */
  lemma WeekUnit(now: Instant)
    ensures Aligned(PerWeek, UnitStart(PerWeek, now))
    ensures Contains(Window(UnitStart(PerWeek, now), Shift(PerWeek, 1, UnitStart(PerWeek, now))), now)
  {
    WeekStart(now);
    MondayIs(now.day);
    AddDays(Moment(Monday(now.day), 0), 7);
  }

  lemma MonthBegin(now: Instant)
    ensures UnitStart(PerMonth, now) == Moment(MonthStart(MonthOf(now.day)), 0)
  {
    DateOnDay(now, 1 - DayOfMonth(now), Clock(0, 0));
  }

  lemma MonthUnit(now: Instant)
    ensures Aligned(PerMonth, UnitStart(PerMonth, now))
    ensures Contains(Window(UnitStart(PerMonth, now), Shift(PerMonth, 1, UnitStart(PerMonth, now))), now)
  {
    var k := MonthOf(now.day);
    MonthBegin(now);
    NextMonth(k);
    MonthIsUnique(MonthStart(k), k);
    AddMonths(Moment(MonthStart(k), 0), 1);
  }

  /** The unit found for `now` begins at its calendar boundary and contains `now`. */
  lemma UnitContainsNow(g: Granularity, now: Instant)
    requires !g.Invalid?
    ensures Aligned(g, UnitStart(g, now))
    ensures Contains(Window(UnitStart(g, now), Shift(g, 1, UnitStart(g, now))), now)
  {
    match g
    case PerMinute => MinuteUnit(now);
    case PerHour => HourUnit(now);
    case PerDay => DayUnit(now);
    case PerWeek => WeekUnit(now);
    case PerMonth => MonthUnit(now);
  }

  // ------------------------------------------------------------------------------------
  // Shifts of aligned instants
  // ------------------------------------------------------------------------------------

  lemma DurationShifts(t: Instant, a: int, b: int)
    ensures Add(Add(t, a), b) == Add(t, a + b)
  {
    AddIsExact(t, a);
    AddIsExact(Add(t, a), b);
    AddIsExact(t, a + b);
    NanosDecide(Add(Add(t, a), b), Add(t, a + b));
  }

  lemma AtLeastOnce(n: int, d: int)
    requires d > 0
    ensures n >= 1 ==> n * d >= d
    ensures n <= -1 ==> n * d <= -d
  {
  }

  lemma RestIs(a: int, d: int, q: int, r: int)
    requires a == q * d + r && 0 <= r < d
    ensures a % d == r
  {
    var n := a / d - q;
    assert n * d == r - a % d;
    AtLeastOnce(n, d);
  }

  lemma MultipleHasNoRest(x: int, unit: int)
    requires unit > 0
    ensures x * unit % unit == 0
  {
    RestIs(x * unit, unit, x, 0);
  }

  lemma Distribute(q: int, k: int, r: int, unit: int)
    ensures (q * k + r) * unit == q * (k * unit) + r * unit
  {
  }

  lemma Scale(r: int, k: int, unit: int)
    requires 0 <= r < k && unit > 0
    ensures 0 <= r * unit < k * unit
  {
  }

  /** A multiple of a unit stays one modulo k units. */
  lemma MultipleStays(x: int, unit: int, k: int)
    requires unit > 0 && k > 0
    ensures x * unit % (k * unit) == (x % k) * unit
  {
    Distribute(x / k, k, x % k, unit);
    Scale(x % k, k, unit);
    RestIs(x * unit, k * unit, x / k, (x % k) * unit);
  }

  lemma UnitShift(clock: int, n: int, unit: int, k: int)
    requires unit > 0 && k > 0 && clock % unit == 0
    ensures (clock + n * unit) % (k * unit) % unit == 0
  {
    var c := clock / unit;
    assert clock + n * unit == (c + n) * unit;
    MultipleStays(c + n, unit, k);
    MultipleHasNoRest((c + n) % k, unit);
  }

  lemma MinuteShift(t: Instant, n: int)
    requires t.clock % MINUTE == 0
    ensures Add(t, n * MINUTE).clock % MINUTE == 0
  {
    UnitShift(t.clock, n, MINUTE, 1440);
  }

  lemma HourShift(t: Instant, n: int)
    requires t.clock % HOUR == 0
    ensures Add(t, n * HOUR).clock % HOUR == 0
  {
    UnitShift(t.clock, n, HOUR, 24);
  }

  lemma DayShifts(t: Instant, a: int, b: int)
    ensures AddDate(AddDate(t, 0, 0, a), 0, 0, b) == AddDate(t, 0, 0, a + b)
    ensures AddDate(t, 0, 0, a) == Moment(t.day + a, t.clock)
  {
    AddDays(t, a);
    AddDays(t, a + b);
    AddDays(AddDate(t, 0, 0, a), b);
  }

  lemma MinuteShifts(t: Instant, a: int, b: int)
    requires Aligned(PerMinute, t)
    ensures Aligned(PerMinute, Add(t, a * MINUTE))
    ensures Add(Add(t, a * MINUTE), b * MINUTE) == Add(t, (a + b) * MINUTE)
  {
    MinuteShift(t, a);
    assert (a + b) * MINUTE == a * MINUTE + b * MINUTE;
    DurationShifts(t, a * MINUTE, b * MINUTE);
  }

  lemma HourShifts(t: Instant, a: int, b: int)
    requires Aligned(PerHour, t)
    ensures Aligned(PerHour, Add(t, a * HOUR))
    ensures Add(Add(t, a * HOUR), b * HOUR) == Add(t, (a + b) * HOUR)
  {
    HourShift(t, a);
    assert (a + b) * HOUR == a * HOUR + b * HOUR;
    DurationShifts(t, a * HOUR, b * HOUR);
  }

  lemma WeekdayStays(day: int, weeks: int)
    ensures (day + weeks * 7 + 1) % 7 == (day + 1) % 7
  {
  }

  lemma WeekShifts(t: Instant, a: int, b: int)
    requires Aligned(PerWeek, t)
    ensures Aligned(PerWeek, AddDate(t, 0, 0, a * 7))
    ensures AddDate(AddDate(t, 0, 0, a * 7), 0, 0, b * 7) == AddDate(t, 0, 0, (a + b) * 7)
  {
    assert (a + b) * 7 == a * 7 + b * 7;
    DayShifts(t, a * 7, b * 7);
    WeekdayStays(t.day, a);
  }

  lemma MonthShifts(t: Instant, a: int, b: int)
    requires Aligned(PerMonth, t)
    ensures Aligned(PerMonth, AddDate(t, 0, a, 0))
    ensures AddDate(AddDate(t, 0, a, 0), 0, b, 0) == AddDate(t, 0, a + b, 0)
  {
    MonthShift(t, a);
    MonthShiftsCompose(t, a, b);
  }

  /** Shifting an aligned instant keeps it aligned, and shifts add up. */
  lemma ShiftsCompose(g: Granularity, t: Instant, a: int, b: int)
    requires Aligned(g, t)
    ensures Aligned(g, Shift(g, a, t))
    ensures Shift(g, b, Shift(g, a, t)) == Shift(g, a + b, t)
  {
    match g
    case PerMinute => MinuteShifts(t, a, b);
    case PerHour => HourShifts(t, a, b);
    case PerDay => DayShifts(t, a, b);
    case PerWeek => WeekShifts(t, a, b);
    case PerMonth => MonthShifts(t, a, b);
  }

  lemma DurationsIncrease(t: Instant, unit: int, a: int, b: int)
    requires unit > 0 && a < b
    ensures Nanos(Add(t, a * unit)) < Nanos(Add(t, b * unit))
  {
    AddIsExact(t, a * unit);
    AddIsExact(t, b * unit);
    assert (b - a) * unit > 0;
  }

  lemma DaysIncrease(t: Instant, a: int, b: int)
    requires a < b
    ensures Nanos(AddDate(t, 0, 0, a)) < Nanos(AddDate(t, 0, 0, b))
  {
    AddDays(t, a);
    AddDays(t, b);
  }

  lemma MonthShiftsIncrease(t: Instant, a: int, b: int)
    requires a < b
    ensures Nanos(AddDate(t, 0, a, 0)) < Nanos(AddDate(t, 0, b, 0))
  {
    AddMonths(t, a);
    AddMonths(t, b);
    MonthsIncrease(MonthOf(t.day) + a, MonthOf(t.day) + b);
  }

  lemma ShiftsIncrease(g: Granularity, t: Instant, a: int, b: int)
    requires !g.Invalid? && a < b
    ensures Nanos(Shift(g, a, t)) < Nanos(Shift(g, b, t))
  {
    match g
    case PerMinute => DurationsIncrease(t, MINUTE, a, b);
    case PerHour => DurationsIncrease(t, HOUR, a, b);
    case PerDay => DaysIncrease(t, a, b);
    case PerWeek => DaysIncrease(t, a * 7, b * 7);
    case PerMonth => MonthShiftsIncrease(t, a, b);
  }

  lemma ShiftByNothing(g: Granularity, t: Instant)
    requires !g.Invalid?
    ensures Shift(g, 0, t) == t
  {
    match g
    case PerMinute =>
    case PerHour =>
    case PerDay => AddDays(t, 0);
    case PerWeek => AddDays(t, 0);
    case PerMonth => AddMonths(t, 0);
  }

  lemma IncreasingEnd(f: int -> int, size: int, x: int)
    requires (forall a, b | a < b :: f(a) < f(b)) && f(0) <= x < f(1)
    ensures x < f(size) <==> size >= 1
  {
  }

  lemma ShiftedEnd(g: Granularity, start: Instant, size: int, t: Instant)
    requires !g.Invalid? && Contains(Window(start, Shift(g, 1, start)), t)
    ensures Nanos(t) < Nanos(Shift(g, size, start)) <==> size >= 1
  {
    var f := (n: int) => Nanos(Shift(g, n, start));
    ShiftByNothing(g, start);
    forall a, b | a < b ensures f(a) < f(b) {
      ShiftsIncrease(g, start, a, b);
    }
    IncreasingEnd(f, size, Nanos(t));
  }

  /** The first window contains `now` exactly when the rule's window size is at least 1. */
  lemma FirstWindowContainsNowIff(r: UsageRule, now: Instant)
    requires !r.granularity.Invalid?
    ensures Contains(FirstWindow(r, now).value, now) <==> r.windowSize >= 1
  {
    UnitContainsNow(r.granularity, now);
    ShiftedEnd(r.granularity, UnitStart(r.granularity, now), r.windowSize, now);
  }

  // ------------------------------------------------------------------------------------
  // Tiling
  // ------------------------------------------------------------------------------------

  function Iterate(step: Instant -> Instant, start: Instant, n: nat): Instant {
    if n == 0 then start else step(Iterate(step, start, n - 1))
  }

  /** Where the window after one that begins at an instant begins. */
  function NextStart(r: UsageRule): Instant -> Instant
    requires !r.granularity.Invalid?
  {
    (t: Instant) => Shift(r.granularity, r.windowSize, t)
  }

  /** The start of the n-th window: what following CalculateNextWindowTime n times leads to. */
  function WindowStart(r: UsageRule, now: Instant, n: nat): Instant
    requires !r.granularity.Invalid?
  {
    Iterate(NextStart(r), UnitStart(r.granularity, now), n)
  }

  function NthWindow(r: UsageRule, now: Instant, n: nat): Window
    requires !r.granularity.Invalid?
  {
    Window(WindowStart(r, now, n), WindowStart(r, now, n + 1))
  }

  /** The first window is window 0, and each next window begins where the one before it ends. */
  lemma WindowsFollowOneAnother(r: UsageRule, now: Instant, n: nat)
    requires !r.granularity.Invalid?
    ensures FirstWindow(r, now) == Some(NthWindow(r, now, 0))
    ensures var end := NthWindow(r, now, n).end;
      NthWindow(r, now, n + 1) == Window(end, Shift(r.granularity, r.windowSize, end))
  {
    assert WindowStart(r, now, 1) == Shift(r.granularity, r.windowSize, WindowStart(r, now, 0));
  }

  /** Taking each next window for the current one leads from the first window to the n-th; the clock is
      read for the first one only. */
  method Walk(stats: UsageStats, rule: UsageRule, clock: seq<Instant>) returns (w: Window)
    requires stats.rule == Some(rule) && stats.endTime == None && !rule.granularity.Invalid? && clock != []
    modifies stats
    ensures w == NthWindow(rule, clock[0], |clock|)
    ensures stats.startTime == Some(w.start) && stats.endTime == Some(w.end)
  {
    WindowsFollowOneAnother(rule, clock[0], 0);
    var next := stats.CalculateNextWindowTime(clock[0]);
    w := next.value;
    stats.startTime, stats.endTime := Some(w.start), Some(w.end);
    for i := 1 to |clock|
      invariant stats.rule == Some(rule)
      invariant w == NthWindow(rule, clock[0], i)
      invariant stats.startTime == Some(w.start) && stats.endTime == Some(w.end)
    {
      WindowsFollowOneAnother(rule, clock[0], i);
      next := stats.CalculateNextWindowTime(clock[i]);
      w := next.value;
      stats.startTime, stats.endTime := Some(w.start), Some(w.end);
    }
  }

  /** Following n windows is one shift by n window sizes: no drift builds up. */
  lemma {:induction false} WindowStartIsOneShift(r: UsageRule, now: Instant, n: nat)
    requires !r.granularity.Invalid?
    ensures WindowStart(r, now, n) == Shift(r.granularity, n * r.windowSize, UnitStart(r.granularity, now))
    ensures Aligned(r.granularity, WindowStart(r, now, n))
  {
    var g, start := r.granularity, UnitStart(r.granularity, now);
    UnitContainsNow(g, now);
    if n == 0 {
      ShiftByNothing(g, start);
    } else {
      WindowStartIsOneShift(r, now, n - 1);
      assert (n - 1) * r.windowSize + r.windowSize == n * r.windowSize;
      OneMoreShift(g, start, (n - 1) * r.windowSize, r.windowSize);
    }
  }

  lemma OneMoreShift(g: Granularity, start: Instant, before: int, size: int)
    requires Aligned(g, start)
    ensures Shift(g, size, Shift(g, before, start)) == Shift(g, before + size, start)
    ensures Aligned(g, Shift(g, before + size, start))
  {
    ShiftsCompose(g, start, before, size);
    ShiftsCompose(g, start, before + size, 0);
  }

  predicate Rises(step: Instant -> Instant, start: Instant, n: nat) {
    Nanos(Iterate(step, start, n)) < Nanos(Iterate(step, start, n + 1))
  }

  ghost predicate Ascending(step: Instant -> Instant, start: Instant) {
    forall n: nat :: Rises(step, start, n)
  }

  lemma WindowsIncrease(r: UsageRule, now: Instant, n: nat)
    requires !r.granularity.Invalid? && r.windowSize >= 1
    ensures Rises(NextStart(r), UnitStart(r.granularity, now), n)
  {
    var start := WindowStart(r, now, n);
    ShiftByNothing(r.granularity, start);
    ShiftsIncrease(r.granularity, start, 0, r.windowSize);
  }

  lemma WindowsAscend(r: UsageRule, now: Instant)
    requires !r.granularity.Invalid? && r.windowSize >= 1
    ensures Ascending(NextStart(r), UnitStart(r.granularity, now))
  {
    forall n: nat ensures Rises(NextStart(r), UnitStart(r.granularity, now), n) {
      WindowsIncrease(r, now, n);
    }
  }

  predicate Up(f: nat -> int, n: nat) {
    f(n) < f(n + 1)
  }

  ghost predicate Increasing(f: nat -> int) {
    forall n: nat :: Up(f, n)
  }

  lemma {:induction false} IncreasingFrom(f: nat -> int, m: nat, n: nat)
    requires Increasing(f) && m <= n
    ensures f(m) + (n - m) <= f(n)
    decreases n - m
  {
    if m < n {
      assert Up(f, m);
      IncreasingFrom(f, m + 1, n);
    }
  }

  lemma {:induction false} FindStep(f: nat -> int, x: int, bound: nat) returns (n: nat)
    requires f(0) <= x < f(bound)
    ensures f(n) <= x < f(n + 1)
  {
    if f(bound - 1) <= x {
      n := bound - 1;
    } else {
      n := FindStep(f, x, bound - 1);
    }
  }

  /** The steps of an increasing function tile the numbers from its first value on. */
  lemma IncreasingTiles(f: nat -> int, x: int) returns (n: nat)
    requires Increasing(f) && f(0) <= x
    ensures f(n) <= x < f(n + 1)
    ensures forall m: nat :: f(m) <= x < f(m + 1) ==> m == n
  {
    var bound := x - f(0) + 1;
    IncreasingFrom(f, 0, bound);
    n := FindStep(f, x, bound);
    forall m: nat | f(m) <= x < f(m + 1) ensures m == n {
      if m < n {
        IncreasingFrom(f, m + 1, n);
      } else if n < m {
        IncreasingFrom(f, n + 1, m);
      }
    }
  }

  function NthOf(step: Instant -> Instant, start: Instant, n: nat): Window {
    Window(Iterate(step, start, n), Iterate(step, start, n + 1))
  }

  function Times(step: Instant -> Instant, start: Instant): nat -> int {
    (n: nat) => Nanos(Iterate(step, start, n))
  }

  lemma TimesIncrease(step: Instant -> Instant, start: Instant)
    requires Ascending(step, start)
    ensures Increasing(Times(step, start))
  {
    var f := Times(step, start);
    forall n: nat ensures Up(f, n) {
      assert Rises(step, start, n);
    }
  }

  lemma ContainsByTimes(step: Instant -> Instant, start: Instant, n: nat, t: Instant)
    ensures Contains(NthOf(step, start, n), t) <==>
      Times(step, start)(n) <= Nanos(t) < Times(step, start)(n + 1)
  {
  }

  lemma StepsTile(step: Instant -> Instant, start: Instant, t: Instant) returns (n: nat)
    requires Ascending(step, start) && Nanos(t) >= Nanos(start)
    ensures Contains(NthOf(step, start, n), t)
    ensures forall m: nat :: Contains(NthOf(step, start, m), t) ==> m == n
  {
    TimesIncrease(step, start);
    n := IncreasingTiles(Times(step, start), Nanos(t));
    ContainsByTimes(step, start, n, t);
    forall m: nat ensures Contains(NthOf(step, start, m), t) ==> m == n {
      ContainsByTimes(step, start, m, t);
    }
  }

  /** The windows tile time: every instant from the first start on lies in exactly one of them. */
  lemma WindowsTileTime(r: UsageRule, now: Instant, t: Instant) returns (n: nat)
    requires !r.granularity.Invalid? && r.windowSize >= 1 && Nanos(t) >= Nanos(UnitStart(r.granularity, now))
    ensures Contains(NthWindow(r, now, n), t)
    ensures forall m: nat :: Contains(NthWindow(r, now, m), t) ==> m == n
  {
    var step, start := NextStart(r), UnitStart(r.granularity, now);
    WindowsAscend(r, now);
    n := StepsTile(step, start, t);
    forall m: nat ensures Contains(NthWindow(r, now, m), t) ==> m == n {
      assert NthWindow(r, now, m) == NthOf(step, start, m);
    }
  }

  /** What IsInWindow checks. */
  predicate StrictlyInside(w: Window, t: Instant) {
    Nanos(w.start) < Nanos(t) < Nanos(w.end)
  }

  lemma StrictlyInsideIsContained(w: Window, t: Instant)
    ensures StrictlyInside(w, t) <==> Contains(w, t) && w.start != t
  {
    NanosDecide(w.start, t);
  }

  lemma OwnStart(step: Instant -> Instant, start: Instant, m: nat, t: Instant)
    requires Ascending(step, start) && NthOf(step, start, m).start == t
    ensures Contains(NthOf(step, start, m), t)
  {
    assert Rises(step, start, m);
  }

  lemma BoundariesOfSteps(step: Instant -> Instant, start: Instant, t: Instant)
    requires Ascending(step, start) && Nanos(t) >= Nanos(start)
    ensures (exists m: nat :: StrictlyInside(NthOf(step, start, m), t))
        <==> forall m: nat :: NthOf(step, start, m).start != t
  {
    var n := StepsTile(step, start, t);
    forall m: nat ensures StrictlyInside(NthOf(step, start, m), t) ==> m == n {
      StrictlyInsideIsContained(NthOf(step, start, m), t);
    }
    forall m: nat ensures NthOf(step, start, m).start == t ==> m == n {
      if NthOf(step, start, m).start == t {
        OwnStart(step, start, m, t);
      }
    }
    StrictlyInsideIsContained(NthOf(step, start, n), t);
  }

  /** IsInWindow excludes the very start of a window: an instant is inside some window in its
      sense exactly if no window begins there. */
  lemma BoundariesBelongToNoWindow(r: UsageRule, now: Instant, t: Instant)
    requires !r.granularity.Invalid? && r.windowSize >= 1 && Nanos(t) >= Nanos(UnitStart(r.granularity, now))
    ensures (exists m: nat :: StrictlyInside(NthWindow(r, now, m), t))
        <==> forall m: nat :: NthWindow(r, now, m).start != t
  {
    var step, start := NextStart(r), UnitStart(r.granularity, now);
    WindowsAscend(r, now);
    BoundariesOfSteps(step, start, t);
    forall m: nat ensures NthWindow(r, now, m) == NthOf(step, start, m) {
    }
  }
}
