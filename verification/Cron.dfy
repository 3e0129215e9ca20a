/** When scheduled tasks are due. Times are nanoseconds of local time at a fixed offset from UTC. */
module Cron {
  import opened Prelude

  const SECOND := 1_000_000_000
  const MINUTE := 60 * SECOND
  const HOUR := 60 * MINUTE
  const DAY := 24 * HOUR
  const WEEK := 7 * DAY

  datatype Schedule =
    | Interval(every: int)
    | Daily(hour: nat, minute: nat)
    | Weekly(weekday: nat, hour: nat, minute: nat)   // Sunday is 0

  /** What parsing a schedule lets through. */
  predicate Valid(s: Schedule) {
    match s
    case Interval(every) => every >= MINUTE
    case Daily(h, m) => h <= 23 && m <= 59
    case Weekly(d, h, m) => d <= 6 && h <= 23 && m <= 59
  }

  /** Days since 1 January 1970, a Thursday. */
  function DayOf(t: int): int { t / DAY }

  function WeekdayOfDay(day: int): nat { (day + 4) % 7 }

  function At(hour: nat, minute: nat): nat { hour * HOUR + minute * MINUTE }

  function TimeOn(day: int, hour: nat, minute: nat): int { day * DAY + At(hour, minute) }

  function Period(s: Schedule): int
    requires !s.Interval?
  {
    if s.Daily? then DAY else WEEK
  }

  /** The target of the day of `now`, or of the coming weekday, counting today. */
  function Target(s: Schedule, now: int): int
    requires !s.Interval?
  {
    match s
    case Daily(h, m) => TimeOn(DayOf(now), h, m)
    case Weekly(d, h, m) =>
      var days := d - WeekdayOfDay(DayOf(now));
      TimeOn(DayOf(now) + (if days < 0 then days + 7 else days), h, m)
  }

  function Next(s: Schedule, from: int): int {
    match s
    case Interval(every) => from + every
    case _ =>
      var target := Target(s, from);
      if from >= target then target + Period(s) else target
  }

  predicate ShouldRun(s: Schedule, lastRun: Option<int>, now: int) {
    match s
    case Interval(every) => if lastRun == None then true else now - lastRun.value >= every
    case _ =>
      var target := Target(s, now);
      if lastRun == None then now >= target
      else if now - lastRun.value > Period(s) then true
      else lastRun.value < target && now >= target
  }

  // ----- targets as such -----

  /** The instants a daily or weekly schedule is for. */
  predicate IsTarget(s: Schedule, t: int)
    requires !s.Interval?
  {
    match s
    case Daily(h, m) => t == TimeOn(DayOf(t), h, m)
    case Weekly(d, h, m) => t == TimeOn(DayOf(t), h, m) && WeekdayOfDay(DayOf(t)) == d
  }

  /** The clock shows hour and minute on the dot, counting from midnight. */
  predicate ClockShows(t: int, hour: nat, minute: nat) {
    t % 86_400_000_000_000 == hour * 3_600_000_000_000 + minute * 60_000_000_000
  }

  /** Weekdays come round every seven days, and 1 January 1970 was a Thursday. */
  lemma WeekdayLaw(day: int)
    ensures WeekdayOfDay(0) == 4 && WeekdayOfDay(day + 1) == (WeekdayOfDay(day) + 1) % 7
  {}

  /** The targets are the instants at which the clock shows the time, on the weekday if one is given. */
  lemma TargetIff(s: Schedule, t: int)
    requires Valid(s) && !s.Interval?
    ensures IsTarget(s, t) <==>
            ClockShows(t, s.hour, s.minute) && (s.Weekly? ==> WeekdayOfDay(t / 86_400_000_000_000) == s.weekday)
  {
    DayBounds(t);
    assert t == DayOf(t) * DAY + t % DAY;
  }

  lemma DayOfTime(day: int, hour: nat, minute: nat)
    requires hour <= 23 && minute <= 59
    ensures DayOf(TimeOn(day, hour, minute)) == day
  {
    assert 0 <= At(hour, minute) < DAY;
  }

  lemma DayBounds(t: int)
    ensures DayOf(t) * DAY <= t < DayOf(t) * DAY + DAY
  {}

  lemma DaysApart(a: int, b: int)
    requires a < b
    ensures a * DAY + DAY <= b * DAY
  {}

  lemma DailyTarget(day: int, h: nat, m: nat)
    requires h <= 23 && m <= 59
    ensures IsTarget(Daily(h, m), TimeOn(day, h, m))
  {
    DayOfTime(day, h, m);
  }

  lemma WeeklyTarget(day: int, d: nat, h: nat, m: nat)
    requires h <= 23 && m <= 59 && WeekdayOfDay(day) == d
    ensures IsTarget(Weekly(d, h, m), TimeOn(day, h, m))
  {
    DayOfTime(day, h, m);
  }

  /** Counting forward to the coming weekday arrives at that weekday. */
  lemma ComingWeekday(day: int, d: nat) returns (coming: int)
    requires d <= 6
    ensures coming == day + var days := d - WeekdayOfDay(day); if days < 0 then days + 7 else days
    ensures day <= coming <= day + 6 && WeekdayOfDay(coming) == d && WeekdayOfDay(coming + 7) == d
  {
    var days := d - WeekdayOfDay(day);
    coming := day + if days < 0 then days + 7 else days;
  }

  /** Where the target of `now` lies: on a target weekday, today or within the next six days. */
  lemma TargetIsTarget(s: Schedule, now: int)
    requires Valid(s) && !s.Interval?
    ensures IsTarget(s, Target(s, now))
    ensures IsTarget(s, Target(s, now) + Period(s))
    ensures DayOf(now) <= DayOf(Target(s, now)) <= DayOf(now) + (if s.Daily? then 0 else 6)
  {
    match s {
      case Daily(h, m) =>
        DailyTarget(DayOf(now), h, m);
        DailyTarget(DayOf(now) + 1, h, m);
        DayOfTime(DayOf(now), h, m);
        assert TimeOn(DayOf(now) + 1, h, m) == Target(s, now) + DAY;
      case Weekly(d, h, m) =>
        var day := ComingWeekday(DayOf(now), d);
        WeeklyTarget(day, d, h, m);
        WeeklyTarget(day + 7, d, h, m);
        DayOfTime(day, h, m);
        assert Target(s, now) == TimeOn(day, h, m);
        assert TimeOn(day + 7, h, m) == Target(s, now) + WEEK;
    }
  }

  /** No target lies strictly between a target and the one a period later. */
  lemma TargetsApart(s: Schedule, t: int, u: int)
    requires Valid(s) && !s.Interval? && IsTarget(s, t) && IsTarget(s, u) && t < u
    ensures t + Period(s) <= u
  {
    var a, b := DayOf(t), DayOf(u);
    if a >= b && a != b { DaysApart(b, a); }
    assert a < b;
    match s {
      case Daily(_, _) => DaysApart(a, b);
      case Weekly(_, _, _) =>
        assert (a + 4) % 7 == (b + 4) % 7;
        SevenApart(a, b);
    }
  }

  lemma SevenApart(a: int, b: int)
    requires a < b && (a + 4) % 7 == (b + 4) % 7
    ensures a * DAY + WEEK <= b * DAY
  {
    assert a + 7 <= b;
  }

  /** No target lies between now and the target of now. */
  lemma TargetIsNearest(s: Schedule, now: int, u: int)
    requires Valid(s) && !s.Interval? && IsTarget(s, u) && u >= now
    ensures u >= Target(s, now)
  {
    TargetIsTarget(s, now);
    var t := Target(s, now);
    if u < t {
      TargetsApart(s, u, t);
      DayBounds(now);
      DayBounds(t);
      DaysNear(DayOf(now), DayOf(t), if s.Daily? then 0 else 6);
      SameTimeOfDay(s, now, u, t);
    }
  }

  lemma DaysNear(a: int, b: int, n: nat)
    requires a <= b <= a + n && n <= 6
    ensures b * DAY <= a * DAY + n * DAY
  {}

  /** A target a period or more before the target of now would lie before the day of now. */
  lemma SameTimeOfDay(s: Schedule, now: int, u: int, t: int)
    requires Valid(s) && !s.Interval? && t == Target(s, now) && IsTarget(s, u) && IsTarget(s, t) && u + Period(s) <= t
    requires DayOf(now) <= DayOf(t) <= DayOf(now) + (if s.Daily? then 0 else 6)
    ensures u < now
  {
    var at := At(s.hour, s.minute);
    assert t == DayOf(t) * DAY + at && u == DayOf(u) * DAY + at;
    assert DayOf(u) < DayOf(now) by {
      if DayOf(u) >= DayOf(now) {
        DaysNear(DayOf(now), DayOf(t), if s.Daily? then 0 else 6);
        if DayOf(u) > DayOf(now) { DaysApart(DayOf(now), DayOf(u)); }
      }
    }
    DaysApart(DayOf(u), DayOf(now));
    assert 0 <= at < DAY;
    DayBounds(now);
  }

  // ----- the laws -----

  /** Next(last) is the least target after last. */
  lemma NextIsLeastTarget(s: Schedule, from: int, u: int)
    requires Valid(s) && !s.Interval?
    ensures IsTarget(s, Next(s, from)) && Next(s, from) > from
    ensures IsTarget(s, u) && u > from ==> u >= Next(s, from)
  {
    TargetIsTarget(s, from);
    var t := Target(s, from);
    if from >= t { TargetWithinDay(s, from); }
    if IsTarget(s, u) && u > from {
      TargetIsNearest(s, from, u);
      if from >= t { TargetsApart(s, t, u); }
    }
  }

  /** A target of now that is already past is of today. */
  lemma TargetWithinDay(s: Schedule, now: int)
    requires Valid(s) && !s.Interval? && now >= Target(s, now)
    ensures DayOf(Target(s, now)) == DayOf(now) && now < Target(s, now) + DAY && Period(s) >= DAY
  {
    TargetIsTarget(s, now);
    var t := Target(s, now);
    DayBounds(now);
    DayBounds(t);
    if DayOf(t) > DayOf(now) { DaysApart(DayOf(now), DayOf(t)); }
  }

  /**
   After an earlier run a task is due if and only if the next target after that run has come, and either the target
   of now has come too or more than a whole period has passed. So it is never early; and it is late
   in exactly the cases where the missed target is no longer today's and a period is not yet over.
   */
  lemma DueIff(s: Schedule, last: int, now: int)
    requires Valid(s)
    ensures s.Interval? ==> (ShouldRun(s, Some(last), now) <==> Next(s, last) <= now) && Next(s, last) == last + s.every
    ensures !s.Interval? ==> (ShouldRun(s, Some(last), now) <==>
                              Next(s, last) <= now && (now >= Target(s, now) || now - last > Period(s)))
  {
    if !s.Interval? {
      TargetIsTarget(s, now);
      NextIsLeastTarget(s, last, Target(s, now));
      NextWithinPeriod(s, last);
      if now >= Target(s, now) && Next(s, last) <= now {
        NextIsLeastTarget(s, last, 0);
        LatestTarget(s, now, Next(s, last));
      }
    }
  }

  lemma NextWithinPeriod(s: Schedule, from: int)
    requires Valid(s) && !s.Interval?
    ensures Next(s, from) <= from + Period(s)
  {
    NextIsLeastTarget(s, from, 0);
    TargetIsTarget(s, from);
    var t := Target(s, from);
    if from < t {
      // a period earlier there is a target too, and it is not after `from`
      EarlierTarget(s, t);
      if t - Period(s) > from { TargetIsNearest(s, from, t - Period(s)); }
    }
  }

  lemma WeekBefore(day: int)
    ensures WeekdayOfDay(day - 7) == WeekdayOfDay(day)
  {}

  lemma EarlierTarget(s: Schedule, t: int)
    requires Valid(s) && !s.Interval? && IsTarget(s, t)
    ensures IsTarget(s, t - Period(s))
  {
    match s {
      case Daily(h, m) =>
        DailyTarget(DayOf(t) - 1, h, m);
        assert TimeOn(DayOf(t) - 1, h, m) == t - DAY;
      case Weekly(d, h, m) =>
        WeekBefore(DayOf(t));
        WeeklyTarget(DayOf(t) - 7, d, h, m);
        assert TimeOn(DayOf(t) - 7, h, m) == t - WEEK;
    }
  }

  /** A target of now that has come is the latest target there has been. */
  lemma LatestTarget(s: Schedule, now: int, u: int)
    requires Valid(s) && !s.Interval? && now >= Target(s, now) && IsTarget(s, u) && u <= now
    ensures u <= Target(s, now)
  {
    TargetIsTarget(s, now);
    TargetWithinDay(s, now);
    if u > Target(s, now) { TargetsApart(s, Target(s, now), u); }
  }

  /** Whenever a task runs again, a target lies after its last run and not after now. */
  lemma NeverEarly(s: Schedule, last: int, now: int)
    requires Valid(s) && !s.Interval? && ShouldRun(s, Some(last), now)
    ensures IsTarget(s, Next(s, last)) && last < Next(s, last) <= now
  {
    DueIff(s, last, now);
    NextIsLeastTarget(s, last, 0);
  }

  /** Once more than a whole period has passed, a target has been missed and the task is due whatever the time. */
  lemma DueAfterPeriod(s: Schedule, last: int, now: int)
    requires Valid(s) && !s.Interval? && now - last > Period(s)
    ensures ShouldRun(s, Some(last), now) && IsTarget(s, Next(s, last)) && last < Next(s, last) <= now
  {
    NextIsLeastTarget(s, last, 0);
    NextWithinPeriod(s, last);
  }

  /**
   From its next target on a task stays due until it runs, if and only if it is due at the midnight that follows the
   target: otherwise it stops being due there, and waits for the end of the period or for the target after.
   */
  lemma StaysDueIff(s: Schedule, last: int)
    requires Valid(s) && !s.Interval?
    ensures var midnight := (DayOf(Next(s, last)) + 1) * DAY;
            (forall now | now >= Next(s, last) :: ShouldRun(s, Some(last), now)) <==>
            Target(s, midnight) == midnight || midnight - last > Period(s)
  {
    var t := Next(s, last);
    var midnight := (DayOf(t) + 1) * DAY;
    NextIsLeastTarget(s, last, 0);
    DayBounds(t);
    DueIff(s, last, midnight);
    TargetOfMidnight(s, DayOf(t) + 1);
    if Target(s, midnight) == midnight || midnight - last > Period(s) {
      forall now | now >= t ensures ShouldRun(s, Some(last), now) {
        DueIff(s, last, now);
        if DayOf(now) == DayOf(t) {
          SameDayTarget(s, now, t);
        } else {
          LaterDay(t, now);
          if midnight - last <= Period(s) { MidnightTargets(s, t, now); }
        }
      }
    }
  }

  lemma TargetOfMidnight(s: Schedule, day: int)
    requires Valid(s) && !s.Interval?
    ensures DayOf(day * DAY) == day && Target(s, day * DAY) >= day * DAY
  {
    TargetIsTarget(s, day * DAY);
    DayBounds(Target(s, day * DAY));
    DaysNotAfter(day, DayOf(Target(s, day * DAY)));
  }

  lemma DaysNotAfter(a: int, b: int)
    requires a <= b
    ensures a * DAY <= b * DAY
  {}

  lemma LaterDay(t: int, now: int)
    requires t <= now && DayOf(now) != DayOf(t)
    ensures (DayOf(t) + 1) * DAY <= now
  {
    DayBounds(t);
    DayBounds(now);
    if DayOf(now) < DayOf(t) { DaysApart(DayOf(now), DayOf(t)); }
    DaysNotAfter(DayOf(t) + 1, DayOf(now));
  }

  /** A target at the midnight after a target: the schedule is for every midnight. */
  lemma MidnightTargets(s: Schedule, t: int, now: int)
    requires Valid(s) && !s.Interval? && IsTarget(s, t)
    requires var midnight := (DayOf(t) + 1) * DAY; Target(s, midnight) == midnight
    ensures now >= Target(s, now)
  {
    var midnight := (DayOf(t) + 1) * DAY;
    DayBounds(t);
    TargetIsTarget(s, midnight);
    TargetsApart(s, t, midnight);
    assert s.Daily? && At(s.hour, s.minute) == 0;
    DayBounds(now);
  }

  /**
   A task that never ran is due at once if it is for an interval, else from today's target until the end of the day,
   on a target day only.
   */
  lemma FirstRunIff(s: Schedule, now: int)
    requires Valid(s)
    ensures s.Interval? ==> ShouldRun(s, None, now)
    ensures !s.Interval? ==>
              (ShouldRun(s, None, now) <==> exists t :: IsTarget(s, t) && DayOf(t) == DayOf(now) && t <= now)
  {
    if s.Interval? { return; }
    TargetIsTarget(s, now);
    if now >= Target(s, now) {
      TargetWithinDay(s, now);
      assert IsTarget(s, Target(s, now));
    }
    if t :| IsTarget(s, t) && DayOf(t) == DayOf(now) && t <= now {
      SameDayTarget(s, now, t);
    }
  }

  lemma SameDayTarget(s: Schedule, now: int, t: int)
    requires Valid(s) && !s.Interval? && IsTarget(s, t) && DayOf(t) == DayOf(now)
    ensures Target(s, now) == t
  {}

  /** The times at which a task ran, each due after the one before. */
  ghost predicate Runs(s: Schedule, times: seq<int>) {
    forall i, j | 0 <= i < |times| && j == i + 1 < |times| :: ShouldRun(s, Some(times[i]), times[j])
  }

  /** The target of run i lies after the run before it and not after itself. */
  predicate OwnTarget(s: Schedule, times: seq<int>, target: int, i: nat)
    requires !s.Interval? && 0 < i < |times|
  {
    IsTarget(s, target) && times[i - 1] < target <= times[i]
  }

  lemma NextIsOwnTarget(s: Schedule, times: seq<int>, i: nat)
    requires Valid(s) && !s.Interval? && Runs(s, times) && 0 < i < |times|
    ensures OwnTarget(s, times, Next(s, times[i - 1]), i)
  {
    assert ShouldRun(s, Some(times[i - 1]), times[i]);
    NeverEarly(s, times[i - 1], times[i]);
  }

  lemma {:induction false} RunsRise(s: Schedule, times: seq<int>, i: nat, j: nat)
    requires Valid(s) && !s.Interval? && Runs(s, times) && i <= j < |times|
    ensures times[i] <= times[j]
    decreases j
  {
    if i < j {
      RunsRise(s, times, i, j - 1);
      NextIsOwnTarget(s, times, j);
    }
  }

  /** No two runs share a target: whatever targets the runs are put down to, later runs have later ones. */
  lemma RunsNeverShareTarget(s: Schedule, times: seq<int>, i: nat, j: nat, t: int, u: int)
    requires Valid(s) && !s.Interval? && Runs(s, times) && 0 < i < j < |times|
    requires OwnTarget(s, times, t, i) && OwnTarget(s, times, u, j)
    ensures t < u
  {
    RunsRise(s, times, i, j - 1);
  }

  /**
   A weekly task for Mondays at 9:00, last run on a Wednesday, is not due on the following Tuesday although
   Monday's target was missed; it has to wait for the rest of the seven days.
   */
  lemma MissedWeeklyWaits()
    ensures var s, last, monday, now := Weekly(1, 9, 0), TimeOn(6, 9, 0), TimeOn(11, 9, 0), TimeOn(12, 10, 0);
            && Valid(s) && WeekdayOfDay(6) == 3 && IsTarget(s, monday) && last < monday <= now
            && Next(s, last) == monday && !ShouldRun(s, Some(last), now)
            && ShouldRun(s, Some(last), last + WEEK + 1)
  {
    DayOfTime(6, 9, 0);
    DayOfTime(11, 9, 0);
    DayOfTime(12, 10, 0);
  }
}
