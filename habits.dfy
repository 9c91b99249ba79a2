/**
 * The habit tracker's scheduling rules (habbit/lib/habits.ts): whether a
 * habit is due today, and the current streak of consecutive logged days.
 *
 * Time is abstract: an instant is its epoch milliseconds together with the
 * local calendar day it falls on (what `toDateString` tells apart), and
 * "now" is a parameter instead of a clock read.
 */
module Habits {
  import opened Wrappers

  /** A moment: epoch milliseconds and the number of the local calendar day it falls on (day 0 is 1970-01-01). */
  datatype Instant = Instant(ms: int, day: int)

  /** The habit fields the rules read. */
  datatype Habit = Habit(
    frequency: string,        // "DAILY", "WEEKLY", "CUSTOM", or anything else
    daysOfWeek: seq<int>,     // weekdays 0 (Sunday) .. 6 (Saturday); empty when unrestricted
    everyXDays: Option<int>)  // the CUSTOM interval, absent when not given

  /** One completion of a habit. */
  datatype HabitLog = HabitLog(date: Instant)

  /** Milliseconds in a day, `1000*60*60*24`. */
  const DayMs: nat := 1000 * 60 * 60 * 24

  /** How many days back `calcStreak` looks. */
  const StreakCap: nat := 365

  /** `getDay()`: 1970-01-01 was a Thursday (weekday 4). */
  function Weekday(day: int): (w: int)
    ensures 0 <= w < 7
  {
    (day + 4) % 7
  }

  /** `logs.some(l => sameDay(l.date, now))`: some log falls on the given day. */
  function LoggedOn(logs: seq<HabitLog>, day: int): (r: bool)
    ensures r <==> exists j :: 0 <= j < |logs| && logs[j].date.day == day
    decreases |logs|
  {
    if logs == [] then false
    else logs[0].date.day == day || LoggedOn(logs[1..], day)
  }

  /** The time of the most recent log: what `logs.sort(newest first)[0]` picks. */
  function LatestMs(logs: seq<HabitLog>): (m: int)
    requires logs != []
    ensures exists j :: 0 <= j < |logs| && logs[j].date.ms == m
    ensures forall j :: 0 <= j < |logs| ==> logs[j].date.ms <= m
    decreases |logs|
  {
    if |logs| == 1 then logs[0].date.ms
    else
      var rest := LatestMs(logs[1..]);
      if logs[0].date.ms >= rest then logs[0].date.ms else rest
  }

  /** `habit.everyXDays || 1`: an absent or zero interval counts as one day. */
  function Interval(habit: Habit): (n: int)
    ensures n != 0
    ensures habit.everyXDays.None? || habit.everyXDays.value == 0 ==> n == 1
    ensures habit.everyXDays.Some? && habit.everyXDays.value != 0 ==> n == habit.everyXDays.value
  {
    match habit.everyXDays
    case None => 1
    case Some(x) => if x == 0 then 1 else x
  }

  /** `Math.floor(ms / (1000*60*60*24))`: Dafny's division by a positive divisor rounds down. */
  function WholeDays(ms: int): int {
    ms / DayMs
  }

  /**
   * `isHabitDueToday`. A daily or weekly habit already logged today is not
   * due; a custom habit never logged, and a habit of any other frequency,
   * is.
   */
  function IsDueToday(habit: Habit, logs: seq<HabitLog>, now: Instant): (due: bool)
    ensures habit.frequency in {"DAILY", "WEEKLY"} && LoggedOn(logs, now.day) ==> !due
    ensures habit.frequency == "CUSTOM" && logs == [] ==> due
    ensures habit.frequency !in {"DAILY", "WEEKLY", "CUSTOM"} ==> due
  {
    var already := LoggedOn(logs, now.day);
    if habit.frequency == "DAILY" then
      if |habit.daysOfWeek| > 0 then Weekday(now.day) in habit.daysOfWeek && !already
      else !already
    else if habit.frequency == "WEEKLY" then
      !already
    else if habit.frequency == "CUSTOM" then
      if logs == [] then true
      else WholeDays(now.ms - LatestMs(logs)) >= Interval(habit)
    else
      true
  }

  /** No log falls on the given day. */
  predicate NotLoggedOn(logs: seq<HabitLog>, day: int) {
    forall j :: 0 <= j < |logs| ==> logs[j].date.day != day
  }

  /**
   * A daily habit restricted to some weekdays is due exactly on those
   * weekdays when it was not yet logged today; an unrestricted daily habit,
   * and a weekly one, exactly when it was not yet logged today.
   */
  lemma DailyAndWeeklyDue(habit: Habit, logs: seq<HabitLog>, now: Instant)
    ensures habit.frequency == "DAILY" && habit.daysOfWeek != [] ==>
              (IsDueToday(habit, logs, now) <==> Weekday(now.day) in habit.daysOfWeek && NotLoggedOn(logs, now.day))
    ensures habit.frequency == "DAILY" && habit.daysOfWeek == [] ==>
              (IsDueToday(habit, logs, now) <==> NotLoggedOn(logs, now.day))
    ensures habit.frequency == "WEEKLY" ==> (IsDueToday(habit, logs, now) <==> NotLoggedOn(logs, now.day))
  {
  }

  /** Whole days elapsed since an earlier moment never exceed those since a still earlier one. */
  lemma WholeDaysMonotone(a: int, b: int)
    requires a <= b
    ensures WholeDays(a) <= WholeDays(b)
  {
    var qa, qb := a / DayMs, b / DayMs;
    assert qa * DayMs <= a < qa * DayMs + DayMs;
    assert qb * DayMs <= b < qb * DayMs + DayMs;
    if qa > qb {
      assert false;
    }
  }

  /**
   * A custom habit with no logs is due; with logs it is due exactly when
   * every log lies at least the interval (in whole days) in the past, which
   * is to say when the most recent one does.
   */
  lemma CustomDue(habit: Habit, logs: seq<HabitLog>, now: Instant)
    requires habit.frequency == "CUSTOM"
    ensures logs == [] ==> IsDueToday(habit, logs, now)
    ensures IsDueToday(habit, logs, now) <==>
              forall j :: 0 <= j < |logs| ==> WholeDays(now.ms - logs[j].date.ms) >= Interval(habit)
  {
    if logs != [] {
      var m := LatestMs(logs);
      forall j | 0 <= j < |logs|
        ensures WholeDays(now.ms - m) <= WholeDays(now.ms - logs[j].date.ms)
      {
        WholeDaysMonotone(now.ms - m, now.ms - logs[j].date.ms);
      }
    }
  }

  /** A habit of any other frequency is always due. */
  lemma OtherFrequencyDue(habit: Habit, logs: seq<HabitLog>, now: Instant)
    requires habit.frequency !in {"DAILY", "WEEKLY", "CUSTOM"}
    ensures IsDueToday(habit, logs, now)
  {
  }

  /**
   * Logging a habit now makes a daily or weekly habit no longer due, and a
   * custom habit with a positive interval no longer due.
   */
  lemma LoggingNowClearsDue(habit: Habit, logs: seq<HabitLog>, now: Instant)
    requires habit.frequency in {"DAILY", "WEEKLY"} || (habit.frequency == "CUSTOM" && Interval(habit) > 0)
    ensures !IsDueToday(habit, logs + [HabitLog(now)], now)
  {
    var logs' := logs + [HabitLog(now)];
    assert logs'[|logs|].date == now;
    if habit.frequency == "CUSTOM" {
      var m := LatestMs(logs');
      assert now.ms <= m;
      WholeDaysMonotone(now.ms - m, 0);
    }
  }

  /**
   * Whether a habit is due depends only on which logs there are, not on
   * their order or repetitions; so the reordering of the caller's list by
   * the sort cannot change the answer.
   */
  lemma DueIgnoresOrder(habit: Habit, logs1: seq<HabitLog>, logs2: seq<HabitLog>, now: Instant)
    requires forall l :: l in logs1 <==> l in logs2
    ensures IsDueToday(habit, logs1, now) == IsDueToday(habit, logs2, now)
  {
    assert (logs1 == []) == (logs2 == []) by {
      if logs1 != [] { assert logs1[0] in logs1; }
      if logs2 != [] { assert logs2[0] in logs2; }
    }
    if logs1 != [] {
      var m1, m2 := LatestMs(logs1), LatestMs(logs2);
      var j1 :| 0 <= j1 < |logs1| && logs1[j1].date.ms == m1;
      var j2 :| 0 <= j2 < |logs2| && logs2[j2].date.ms == m2;
      assert logs1[j1] in logs2;
      assert logs2[j2] in logs1;
    }
    if LoggedOn(logs1, now.day) {
      var j :| 0 <= j < |logs1| && logs1[j].date.day == now.day;
      assert logs1[j] in logs2;
    }
    if LoggedOn(logs2, now.day) {
      var j :| 0 <= j < |logs2| && logs2[j].date.day == now.day;
      assert logs2[j] in logs1;
    }
  }

  // ----- The streak -----

  /** The set of days with a log: the `Set` of date strings. */
  function LoggedDays(logs: seq<HabitLog>): set<int> {
    set j | 0 <= j < |logs| :: logs[j].date.day
  }

  /** The day k days before today has a log. */
  predicate LoggedDaysAgo(dates: set<int>, today: int, k: int) {
    today - k in dates
  }

  /** The length of the run of logged days that starts k days back and goes further back, up to the cap. */
  function RunFrom(dates: set<int>, today: int, k: nat): (n: nat)
    requires k <= StreakCap
    ensures k + n <= StreakCap
    ensures forall d :: k <= d < k + n ==> LoggedDaysAgo(dates, today, d)
    ensures k + n < StreakCap ==> !LoggedDaysAgo(dates, today, k + n)
    decreases StreakCap - k
  {
    if k == StreakCap || !LoggedDaysAgo(dates, today, k) then 0
    else 1 + RunFrom(dates, today, k + 1)
  }

  /** The streak the rules define: consecutive logged days ending today, at most 365. */
  function Streak(dates: set<int>, today: int): (s: nat)
    ensures s <= StreakCap
    ensures s == 0 <==> today !in dates
    ensures forall d :: 0 <= d < s ==> LoggedDaysAgo(dates, today, d)
    ensures s < StreakCap ==> !LoggedDaysAgo(dates, today, s)
  {
    assert LoggedDaysAgo(dates, today, 0) <==> today in dates;
    RunFrom(dates, today, 0)
  }

  /**
   * `calcStreak`: count back from today while the day has a log, for at
   * most 365 days.
   */
  method CalcStreak(logs: seq<HabitLog>, today: int) returns (streak: nat)
    ensures streak == Streak(LoggedDays(logs), today)
  {
    var dates := LoggedDays(logs);
    streak := 0;
    var i := 0;
    while i < StreakCap
      invariant 0 <= i <= StreakCap && streak == i
      invariant forall d :: 0 <= d < i ==> LoggedDaysAgo(dates, today, d)
    {
      if today - i in dates {
        streak := streak + 1;
      } else {
        break;
      }
      i := i + 1;
    }
    StreakUnique(dates, today, streak);
  }

  /**
   * The streak is the one length s such that the s days up to today all
   * have a log and the day before them does not (unless the cap is reached).
   */
  lemma StreakUnique(dates: set<int>, today: int, s: nat)
    requires s <= StreakCap
    requires forall d :: 0 <= d < s ==> LoggedDaysAgo(dates, today, d)
    requires s < StreakCap ==> !LoggedDaysAgo(dates, today, s)
    ensures Streak(dates, today) == s
  {
  }

  /** The streak depends only on which days have logs: reordering or repeating logs does not change it. */
  lemma StreakIgnoresOrder(logs1: seq<HabitLog>, logs2: seq<HabitLog>, today: int)
    requires forall l :: l in logs1 <==> l in logs2
    ensures Streak(LoggedDays(logs1), today) == Streak(LoggedDays(logs2), today)
  {
    forall x | x in LoggedDays(logs1)
      ensures x in LoggedDays(logs2)
    {
      var j :| 0 <= j < |logs1| && logs1[j].date.day == x;
      assert logs1[j] in logs2;
    }
    forall x | x in LoggedDays(logs2)
      ensures x in LoggedDays(logs1)
    {
      var j :| 0 <= j < |logs2| && logs2[j].date.day == x;
      assert logs2[j] in logs1;
    }
    assert LoggedDays(logs1) == LoggedDays(logs2);
  }
}
