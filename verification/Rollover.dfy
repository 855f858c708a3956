/**
 The daily rollover clock. Day `k` is the k-th UTC calendar day since 0001-01-01 (a Monday),
 and its rollover falls `hour` hours into it. The engine counts rollovers with loops over
 successive anchors; here the loops are proved equal to calendar arithmetic.
 */
module Rollover {

  const MICROS_PER_HOUR := 3_600_000_000
  const MICROS_PER_DAY := 86_400_000_000
  const WEDNESDAY := 2

  /** A rollover hour of the UTC day. */
  type Hour = h: int | 0 <= h <= 23

  function RolloverTime(day: int, hour: Hour): int {
    day * MICROS_PER_DAY + hour * MICROS_PER_HOUR
  }

  /** The last day whose rollover is not after t. */
  function RolloversUpTo(t: int, hour: Hour): int {
    (t - hour * MICROS_PER_HOUR) / MICROS_PER_DAY
  }

  predicate IsWednesday(day: int) {
    day % 7 == WEDNESDAY
  }

  /** The number of Wednesdays among the days up to and including this one, up to a constant. */
  function WednesdaysUpTo(day: int): int {
    (day - WEDNESDAY) / 7
  }

  /** Calendar count of the rollovers in (start, end]. */
  function Rollovers(start: int, end: int, hour: Hour): int {
    RolloversUpTo(end, hour) - RolloversUpTo(start, hour)
  }

  /** Calendar count of the Wednesday rollovers in (start, end]. */
  function WednesdayRollovers(start: int, end: int, hour: Hour): int {
    WednesdaysUpTo(RolloversUpTo(end, hour)) - WednesdaysUpTo(RolloversUpTo(start, hour))
  }

  /** The trading day of a bar: a bar at or after the rollover belongs to the next day. */
  function BarDay(t: int, hour: Hour): int {
    if t % MICROS_PER_DAY / MICROS_PER_HOUR < hour then t / MICROS_PER_DAY else t / MICROS_PER_DAY + 1
  }

  // -------------------------------------------------- what the counts mean

  /** A day's rollover falls in (start, end] exactly when the day is among the counted ones. */
  lemma RolloverInInterval(day: int, start: int, end: int, hour: Hour)
    ensures start < RolloverTime(day, hour) <= end <==> RolloversUpTo(start, hour) < day <= RolloversUpTo(end, hour)
  {
    RolloverNotAfter(day, start, hour);
    RolloverNotAfter(day, end, hour);
  }

  lemma RolloverNotAfter(day: int, t: int, hour: Hour)
    ensures RolloverTime(day, hour) <= t <==> day <= RolloversUpTo(t, hour)
  {
  }

  /** How many of the days after lo and up to hi have the property, one day at a time. */
  function CountDays(lo: int, hi: int, property: int -> bool): nat
    decreases hi - lo
  {
    if hi <= lo then 0 else CountDays(lo, hi - 1, property) + (if property(hi) then 1 else 0)
  }

  /** The closed forms count the days whose rollover falls in the interval, and the Wednesdays among them. */
  lemma ClosedFormsCountDays(start: int, end: int, hour: Hour)
    requires start <= end
    ensures var lo, hi := RolloversUpTo(start, hour), RolloversUpTo(end, hour);
            && CountDays(lo, hi, day => start < RolloverTime(day, hour) <= end) == Rollovers(start, end, hour)
            && CountDays(lo, hi, IsWednesday) == WednesdayRollovers(start, end, hour)
  {
    var lo, hi := RolloversUpTo(start, hour), RolloversUpTo(end, hour);
    RolloversMonotone(start, end, hour);
    var inInterval := (day: int) => start < RolloverTime(day, hour) <= end;
    forall day | lo < day <= hi ensures inInterval(day) {
      RolloverInInterval(day, start, end, hour);
    }
    AllDaysCount(lo, hi, inInterval);
    WednesdaysCount(lo, hi);
  }

  /** Of the days, counted from a Monday, every seventh from the third is a Wednesday. */
  lemma WednesdaysRecurWeekly(day: int)
    ensures IsWednesday(day) <==> exists week: int :: day == 2 + 7 * week
  {
    assert day == 7 * (day / 7) + day % 7;
    if IsWednesday(day) {
      assert day == 2 + 7 * (day / 7);
    }
  }

  lemma RolloversMonotone(start: int, end: int, hour: Hour)
    requires start <= end
    ensures RolloversUpTo(start, hour) <= RolloversUpTo(end, hour)
  {
  }

  lemma {:induction false} AllDaysCount(lo: int, hi: int, property: int -> bool)
    requires lo <= hi
    requires forall day :: lo < day <= hi ==> property(day)
    ensures CountDays(lo, hi, property) == hi - lo
    decreases hi - lo
  {
    if lo < hi {
      AllDaysCount(lo, hi - 1, property);
    }
  }

  lemma OneMoreDay(day: int)
    ensures WednesdaysUpTo(day) == WednesdaysUpTo(day - 1) + (if IsWednesday(day) then 1 else 0)
  {
  }

  lemma {:induction false} WednesdaysCount(lo: int, hi: int)
    requires lo <= hi
    ensures CountDays(lo, hi, IsWednesday) == WednesdaysUpTo(hi) - WednesdaysUpTo(lo)
    decreases hi - lo
  {
    if lo < hi {
      WednesdaysCount(lo, hi - 1);
      OneMoreDay(hi);
    }
  }

  /** The trading day advances by exactly the rollovers crossed, so it changes iff one was crossed. */
  lemma BarDayCountsRollovers(start: int, end: int, hour: Hour)
    ensures BarDay(end, hour) - BarDay(start, hour) == Rollovers(start, end, hour)
  {
    BarDayIsNextRollover(start, hour);
    BarDayIsNextRollover(end, hour);
  }

  lemma BarDayIsNextRollover(t: int, hour: Hour)
    ensures BarDay(t, hour) == RolloversUpTo(t, hour) + 1
  {
    var day, rest := t / MICROS_PER_DAY, t % MICROS_PER_DAY;
    assert t == day * MICROS_PER_DAY + rest;
  }

  /** Counts add up over a split of the interval. */
  lemma CountsAdditive(start: int, mid: int, end: int, hour: Hour)
    ensures Rollovers(start, end, hour) == Rollovers(start, mid, hour) + Rollovers(mid, end, hour)
    ensures WednesdayRollovers(start, end, hour)
         == WednesdayRollovers(start, mid, hour) + WednesdayRollovers(mid, end, hour)
  {
  }

  lemma WednesdaysAmongDays(lo: int, hi: int)
    requires lo <= hi
    ensures 0 <= WednesdaysUpTo(hi) - WednesdaysUpTo(lo) <= hi - lo
  {
  }

  /** A gap of at most a day crosses at most one rollover. */
  lemma ShortGapCrossesAtMostOne(start: int, end: int, hour: Hour)
    requires start <= end <= start + MICROS_PER_DAY
    ensures 0 <= WednesdayRollovers(start, end, hour) <= Rollovers(start, end, hour) <= 1
  {
    RolloversMonotone(start, end, hour);
    WednesdaysAmongDays(RolloversUpTo(start, hour), RolloversUpTo(end, hour));
  }

  // ------------------------------------------------------------- the loops

  /** The first rollover after t, found as the day's own anchor pushed one day on when it has passed. */
  method FirstAnchorAfter(t: int, hour: Hour) returns (anchor: int)
    ensures anchor == RolloverTime(RolloversUpTo(t, hour) + 1, hour)
  {
    anchor := t / MICROS_PER_DAY * MICROS_PER_DAY + hour * MICROS_PER_HOUR;
    AnchorOfDay(t, hour);
    if anchor <= t {
      anchor := anchor + MICROS_PER_DAY;
    }
  }

  lemma AnchorOfDay(t: int, hour: Hour)
    ensures RolloversUpTo(t, hour) == (if RolloverTime(t / MICROS_PER_DAY, hour) <= t then t / MICROS_PER_DAY
                                       else t / MICROS_PER_DAY - 1)
  {
    var day := t / MICROS_PER_DAY;
    assert day * MICROS_PER_DAY <= t < (day + 1) * MICROS_PER_DAY;
    RolloverNotAfter(day, t, hour);
    RolloverNotAfter(day - 1, t, hour);
    RolloverNotAfter(day + 1, t, hour);
  }

  /** Counts the rollovers in (start, end] one anchor at a time. */
  method RolloversBetween(start: int, end: int, hour: Hour) returns (count: nat)
    ensures count == if end < start then 0 else Rollovers(start, end, hour)
  {
    if end <= start {
      return 0;
    }
    var anchor := FirstAnchorAfter(start, hour);
    count := 0;
    RolloversMonotone(start, end, hour);
    RolloverNotAfter(RolloversUpTo(start, hour) + 1, end, hour);
    while anchor <= end
      invariant anchor == RolloverTime(RolloversUpTo(start, hour) + 1 + count, hour)
      invariant count <= Rollovers(start, end, hour)
      invariant anchor <= end <==> RolloversUpTo(start, hour) + 1 + count <= RolloversUpTo(end, hour)
      decreases end - anchor
    {
      count := count + 1;
      anchor := anchor + MICROS_PER_DAY;
      RolloverNotAfter(RolloversUpTo(start, hour) + 1 + count, end, hour);
    }
  }

  /** The multiplier a gap pays: the weekend one as soon as one of its rollovers is a Wednesday's. */
  function GapMultiplier(start: int, end: int, hour: Hour, weekend: int): int {
    if WednesdayRollovers(start, end, hour) > 0 then weekend else 1
  }

  method WeekendMultiplierIfApplicable(start: int, end: int, hour: Hour, weekend: int) returns (multiplier: int)
    ensures multiplier == GapMultiplier(start, end, hour, weekend)
  {
    if end <= start {
      RolloversMonotone(end, start, hour);
      WednesdaysAmongDays(RolloversUpTo(end, hour), RolloversUpTo(start, hour));
    }
    var anchor := FirstAnchorAfter(start, hour);
    ghost var day := RolloversUpTo(start, hour) + 1;
    RolloverNotAfter(day, start, hour);
    RolloverNotAfter(day, end, hour);
    while anchor <= end
      invariant anchor == RolloverTime(day, hour) && start < anchor
      invariant RolloversUpTo(start, hour) < day
      invariant anchor <= end <==> day <= RolloversUpTo(end, hour)
      invariant WednesdaysUpTo(day - 1) == WednesdaysUpTo(RolloversUpTo(start, hour))
      invariant start < end ==> day <= RolloversUpTo(end, hour) + 1
      decreases end - anchor
    {
      AnchorWeekday(day, hour);
      OneMoreDay(day);
      if anchor / MICROS_PER_DAY % 7 == WEDNESDAY {
        WednesdaysAmongDays(day, RolloversUpTo(end, hour));
        return weekend;
      }
      anchor := anchor + MICROS_PER_DAY;
      day := day + 1;
      RolloverNotAfter(day, end, hour);
    }
    if start < end {
      RolloversMonotone(start, end, hour);
    }
    return 1;
  }

  lemma AnchorWeekday(day: int, hour: Hour)
    ensures RolloverTime(day, hour) / MICROS_PER_DAY == day
  {
  }
}
