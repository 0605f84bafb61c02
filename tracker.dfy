/**
 * The page state of the tracker (src/pages/Index.tsx): the hourly reminder
 * state machine with its two timer handles and per-second countdown, the
 * glass counter, the week of day records, points and streak.
 *
 * Timer handles are abstract tokens.  The set `armed` stands for the
 * runtime's registry of running intervals: `setInterval` adds a fresh token
 * and `clearInterval` removes it.  The two interval callbacks are the
 * methods Tick (every second) and HourElapsed (every hour), which the
 * runtime only invokes for a timer that is armed.
 */
module Tracker {
  import opened Wrappers
  import opened Goal
  import opened DayData

  type Handle = nat

  /** One hour, in seconds. */
  const ReminderInterval: int := 3600
  /** The goal used while no computed goal is available. */
  const DefaultWaterGoal: int := 8

  /** `hydrationGoal?.adjustedGoal || 8`: a missing (or zero) goal falls back to 8. */
  function WaterGoal(hydrationGoal: Option<HydrationGoal>): int
  {
    if hydrationGoal.Some? && hydrationGoal.value.adjustedGoal != 0 then hydrationGoal.value.adjustedGoal
    else DefaultWaterGoal
  }

  /** The goal in effect is 8 before one is computed and always lies in 7..14. */
  lemma WaterGoalRange(hydrationGoal: Option<HydrationGoal>, weather: Weather, location: Location, level: Activity)
    requires hydrationGoal == None || hydrationGoal == Some(GoalSpec(weather, location, level))
    ensures 7 <= WaterGoal(hydrationGoal) <= 14
    ensures hydrationGoal.Some? ==> WaterGoal(hydrationGoal) == hydrationGoal.value.adjustedGoal
  {
  }

  /** The per-second countdown update `prev > 0 ? prev - 1 : 3600`. */
  function CountdownStep(t: int): (r: int)
    ensures 0 <= t <= ReminderInterval ==> 0 <= r <= ReminderInterval
    ensures r == t - 1 || r == ReminderInterval
  {
    if t > 0 then t - 1 else ReminderInterval
  }

  /** The countdown after `n` seconds. */
  function CountdownAfter(t: int, n: nat): int
  {
    if n == 0 then t else CountdownStep(CountdownAfter(t, n - 1))
  }

  /**
   * Counting down from `t` takes `t` seconds to reach 0 and wraps to the
   * full hour on the next second.
   */
  lemma {:induction false} CountdownWraps(t: nat, n: nat)
    requires n <= t + 1
    ensures n <= t ==> CountdownAfter(t, n) == t - n
    ensures n == t + 1 ==> CountdownAfter(t, n) == ReminderInterval
  {
    if n > 0 {
      CountdownWraps(t, n - 1);
    }
  }

  /**
   * The data flow of `handleUpdateDayData`: the updated week, then its
   * totals.  A week of at most seven days stays within seven.
   */
  method RecordToday(week: seq<DayRecord>, count: int, goal: int, today: Date)
    returns (updated: seq<DayRecord>, points: int, streak: nat)
    requires goal > 0 && |week| <= WindowSize
    ensures |updated| <= WindowSize
    ensures updated == UpdatedWeek(week, count, goal, today)
    ensures points == SumPoints(updated)
    ensures streak == LeadingMet(SortByDateDesc(updated))
  {
    UpdateKeepsWindow(week, count, goal, today);
    updated := UpdateDayData(week, count, goal, today);
    streak, points := CalculateStreakAndPoints(updated);
  }

  class HydrationTracker {
    var isActive: bool
    var timeUntilNext: int
    /** The hourly reminder interval (`intervalRef`). */
    var intervalRef: Option<Handle>
    /** The per-second countdown interval (`timerRef`). */
    var timerRef: Option<Handle>
    /** The intervals the runtime is running. */
    var armed: set<Handle>
    /** The next token `setInterval` hands out. */
    var nextHandle: Handle
    /** Reminder notifications shown so far. */
    var remindersShown: nat
    var waterCount: int
    var weeklyData: seq<DayRecord>
    var totalPoints: int
    var streak: int
    var dataInitialized: bool
    var hydrationGoal: Option<HydrationGoal>

    /**
     * Active exactly when both intervals are armed, and then only those two;
     * inactive with nothing armed and the countdown at the full hour.
     */
    ghost predicate ReminderValid()
      reads this`isActive, this`timeUntilNext, this`intervalRef, this`timerRef, this`armed, this`nextHandle
    {
      && 0 <= timeUntilNext <= ReminderInterval
      && (isActive ==>
            && intervalRef.Some? && timerRef.Some?
            && intervalRef.value != timerRef.value
            && armed == {intervalRef.value, timerRef.value})
      && (!isActive ==>
            && intervalRef == None && timerRef == None && armed == {}
            && timeUntilNext == ReminderInterval)
      && (forall h :: h in armed ==> h < nextHandle)
    }

    /** A computed goal lies in 7..14 and the week holds at most seven days. */
    ghost predicate DataValid()
      reads this`hydrationGoal, this`weeklyData
    {
      && (hydrationGoal.Some? ==> 7 <= hydrationGoal.value.adjustedGoal <= 14)
      && |weeklyData| <= WindowSize
    }

    ghost predicate Valid()
      reads this
    {
      ReminderValid() && DataValid()
    }

    constructor ()
      ensures Valid()
      ensures !isActive && timeUntilNext == ReminderInterval && armed == {}
      ensures waterCount == 0 && weeklyData == [] && totalPoints == 0 && streak == 0
      ensures !dataInitialized && hydrationGoal == None && remindersShown == 0
    {
      isActive := false;
      timeUntilNext := ReminderInterval;
      intervalRef := None;
      timerRef := None;
      armed := {};
      nextHandle := 0;
      remindersShown := 0;
      waterCount := 0;
      weeklyData := [];
      totalPoints := 0;
      streak := 0;
      dataInitialized := false;
      hydrationGoal := None;
    }

    /** `setInterval`: arms a fresh interval and returns its token. */
    method SetInterval() returns (h: Handle)
      modifies this`armed, this`nextHandle
      ensures h == old(nextHandle) && nextHandle == h + 1
      ensures armed == old(armed) + {h}
    {
      h := nextHandle;
      armed := armed + {h};
      nextHandle := nextHandle + 1;
    }

    /** `clearInterval`: disarms the interval `h`. */
    method ClearInterval(h: Handle)
      modifies this`armed
      ensures armed == old(armed) - {h}
    {
      armed := armed - {h};
    }

    /** `startReminder`: a no-op while active; otherwise arms the hourly and the per-second interval. */
    method StartReminder()
      requires Valid()
      modifies this`isActive, this`intervalRef, this`timerRef, this`armed, this`nextHandle
      ensures Valid()
      ensures old(isActive) ==> unchanged(this)
      ensures !old(isActive) ==>
        && isActive
        && intervalRef == Some(old(nextHandle)) && timerRef == Some(old(nextHandle) + 1)
        && armed == {old(nextHandle), old(nextHandle) + 1}
        && timeUntilNext == ReminderInterval
    {
      if !isActive {
        isActive := true;
        var hourly := SetInterval();
        intervalRef := Some(hourly);
        var perSecond := SetInterval();
        timerRef := Some(perSecond);
      }
    }

    /** `stopReminder`: a no-op while inactive; otherwise clears both intervals and resets the countdown. */
    method StopReminder()
      requires Valid()
      modifies this`isActive, this`intervalRef, this`timerRef, this`armed, this`timeUntilNext
      ensures Valid()
      ensures !old(isActive) ==> unchanged(this)
      ensures old(isActive) ==>
        && !isActive && intervalRef == None && timerRef == None
        && armed == {} && timeUntilNext == ReminderInterval
    {
      if isActive {
        isActive := false;
        if intervalRef.Some? {
          ClearInterval(intervalRef.value);
          intervalRef := None;
        }
        if timerRef.Some? {
          ClearInterval(timerRef.value);
          timerRef := None;
        }
        timeUntilNext := ReminderInterval;
      }
    }

    /** The per-second callback; without an armed countdown interval nothing fires. */
    method Tick()
      requires Valid()
      modifies this`timeUntilNext
      ensures Valid()
      ensures timerRef.Some? ==> timeUntilNext == CountdownStep(old(timeUntilNext))
      ensures timerRef == None ==> timeUntilNext == old(timeUntilNext)
    {
      if timerRef.Some? {
        timeUntilNext := if timeUntilNext > 0 then timeUntilNext - 1 else ReminderInterval;
      }
    }

    /** The hourly callback: shows a reminder and restarts the countdown. */
    method HourElapsed()
      requires Valid()
      modifies this`timeUntilNext, this`remindersShown
      ensures Valid()
      ensures intervalRef.Some? ==>
        remindersShown == old(remindersShown) + 1 && timeUntilNext == ReminderInterval
      ensures intervalRef == None ==> unchanged(this)
    {
      if intervalRef.Some? {
        remindersShown := remindersShown + 1;
        timeUntilNext := ReminderInterval;
      }
    }

    /** A goal computed from fetched (or fallback) weather with the default activity level. */
    method GoalComputed(weather: Weather, location: Location)
      requires Valid()
      modifies this`hydrationGoal
      ensures Valid()
      ensures hydrationGoal == Some(GoalSpec(weather, location))
    {
      var goal := CalculateHydrationGoal(weather, location);
      assert 7 <= goal.adjustedGoal <= 14;
      hydrationGoal := Some(goal);
    }

    /**
     * The one-time load: a non-empty saved week is trimmed to its last seven
     * records and the saved totals are taken as they are; otherwise the
     * freshly initialised week is summarised.  Either way today's count is
     * taken from the week when today has a record.
     */
    method LoadSavedData(saved: Option<seq<DayRecord>>, savedPoints: int, savedStreak: int,
                         initialData: seq<DayRecord>, today: Date)
      requires Valid()
      requires |initialData| == WindowSize
      modifies this`waterCount, this`weeklyData, this`totalPoints, this`streak, this`dataInitialized
      ensures Valid()
      ensures old(dataInitialized) ==> unchanged(this)
      ensures !old(dataInitialized) ==> dataInitialized
      ensures !old(dataInitialized) && saved.Some? && |saved.value| > 0 ==>
        && weeklyData == TrimToWindow(saved.value)
        && totalPoints == savedPoints && streak == savedStreak
        && (TodayIndex(saved.value, today) >= 0 ==>
              waterCount == saved.value[TodayIndex(saved.value, today)].waterCount)
        && (TodayIndex(saved.value, today) < 0 ==> waterCount == old(waterCount))
      ensures !old(dataInitialized) && !(saved.Some? && |saved.value| > 0) ==>
        && weeklyData == initialData
        && totalPoints == SumPoints(initialData)
        && streak == LeadingMet(SortByDateDesc(initialData))
        && (TodayIndex(initialData, today) >= 0 ==>
              waterCount == initialData[TodayIndex(initialData, today)].waterCount)
        && (TodayIndex(initialData, today) < 0 ==> waterCount == old(waterCount))
    {
      if !dataInitialized {
        if saved.Some? && |saved.value| > 0 {
          var todayIndex := TodayIndex(saved.value, today);
          if todayIndex >= 0 {
            waterCount := saved.value[todayIndex].waterCount;
          }
          weeklyData := TrimToWindow(saved.value);
          totalPoints := savedPoints;
          streak := savedStreak;
        } else {
          var initialStreak, initialPoints := CalculateStreakAndPoints(initialData);
          weeklyData := initialData;
          totalPoints := initialPoints;
          streak := initialStreak;
          var todayIndex := TodayIndex(initialData, today);
          if todayIndex >= 0 {
            waterCount := initialData[todayIndex].waterCount;
          }
        }
        dataInitialized := true;
      }
    }

    /** `handleUpdateDayData`: records the new count for today, then re-totals points and streak. */
    method HandleUpdateDayData(newWaterCount: int, today: Date)
      requires Valid()
      modifies this`weeklyData, this`totalPoints, this`streak
      ensures Valid()
      ensures weeklyData == UpdatedWeek(old(weeklyData), newWaterCount, WaterGoal(hydrationGoal), today)
      ensures totalPoints == SumPoints(weeklyData)
      ensures streak == LeadingMet(SortByDateDesc(weeklyData))
    {
      var updatedData, newPoints, newStreak := RecordToday(weeklyData, newWaterCount, WaterGoal(hydrationGoal), today);
      weeklyData, totalPoints, streak := updatedData, newPoints, newStreak;
    }

    /** `addWater`: one more glass, recorded for today. */
    method AddWater(today: Date)
      requires Valid()
      modifies this`waterCount, this`weeklyData, this`totalPoints, this`streak
      ensures Valid()
      ensures waterCount == old(waterCount) + 1
      ensures weeklyData == UpdatedWeek(old(weeklyData), old(waterCount) + 1, WaterGoal(hydrationGoal), today)
      ensures totalPoints == SumPoints(weeklyData)
      ensures streak == LeadingMet(SortByDateDesc(weeklyData))
    {
      var newCount := waterCount + 1;
      waterCount := newCount;
      HandleUpdateDayData(newCount, today);
    }

    /** `resetDay`: today's count back to zero, recorded for today. */
    method ResetDay(today: Date)
      requires Valid()
      modifies this`waterCount, this`weeklyData, this`totalPoints, this`streak
      ensures Valid()
      ensures waterCount == 0
      ensures weeklyData == UpdatedWeek(old(weeklyData), 0, WaterGoal(hydrationGoal), today)
      ensures totalPoints == SumPoints(weeklyData)
      ensures streak == LeadingMet(SortByDateDesc(weeklyData))
    {
      waterCount := 0;
      HandleUpdateDayData(0, today);
    }
  }

  /**
   * Starting twice arms one pair of intervals, not two; stopping clears
   * them, resets the countdown, and later ticks change nothing.
   */
  method ReminderScenario() returns (armedAfterDoubleStart: nat, armedAfterStop: nat, countdownAfterStop: int)
    ensures armedAfterDoubleStart == 2
    ensures armedAfterStop == 0
    ensures countdownAfterStop == ReminderInterval
  {
    var tracker := new HydrationTracker();
    tracker.StartReminder();
    tracker.Tick();
    tracker.StartReminder();
    armedAfterDoubleStart := |tracker.armed|;
    tracker.StopReminder();
    tracker.Tick();
    tracker.HourElapsed();
    armedAfterStop := |tracker.armed|;
    countdownAfterStop := tracker.timeUntilNext;
  }
}
