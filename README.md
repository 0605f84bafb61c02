# Hydration tracker core in Dafny

A model of the logic at the centre of a single-user hydration-tracking web
app. The model covers four pieces:

- **Goal calculator** (`goal.dfy`, module `Goal`). It adjusts a base goal of
  8 glasses by four itemised factors, clamps the result below at 6 and builds
  a recommendation sentence. The factors are temperature, humidity, a hot
  weather condition and activity level. `CalculateHydrationGoal` keeps the
  source's step-by-step structure: one section per factor, each setting a
  field of the factors record and moving the running goal, then the clamp,
  then the recommendation built with `+=`. It is proved equal to the
  specification function `GoalSpec`. The properties are then proved about
  `GoalSpec`:
  - the exact value of each factor in each band;
  - `adjustedGoal = max(8 + Σ factors, 6)`;
  - the goal always lies in 7..14, so the clamp at 6 can never fire;
  - the recommendation is the city prefix followed by the advice clause for
    the temperature band.
- **Seven-day history** (`day_data.dfy`, module `DayData`).
  - `UpdateDayData` works on a copy of the week. If a record dated today
    exists, it rewrites the first such record in place; otherwise it appends
    a record and cuts the front so that at most seven remain.
  - `CalculateStreakAndPoints` sums the points in one loop. A second loop
    walks a copy sorted newest first and counts met days up to the first
    miss.
  - Both are proved against specification functions (`UpdatedWeek`,
    `SumPoints`, `LeadingMet` of `SortByDateDesc`). Lemmas about those
    functions state the promised properties:
    - only today's slot changes;
    - the window length is min(n + 1, 7), and the newest records survive in
      their order;
    - every written record is consistent: `goalMet` iff count ≥ goal, points
      in 0..100;
    - the total does not depend on record order;
    - the sorted copy is a permutation of the week, newest first;
    - for a week kept oldest first, the streak is the run of met days ending
      at the newest record.
  - The streak counts consecutive *records*, not consecutive calendar days.
    A day with no record neither breaks nor extends it, which is what the
    code does.
- **Countdown formatter** (`time_format.dfy`, module `TimeFormat`).
  `FormatTime` renders seconds as `m:ss`. The parts are:
  - minutes: `Math.floor(seconds / 60)`;
  - seconds: JavaScript's truncating `%`, padded with `padStart(2, '0')`.

  For non-negative input, the text is the decimal minutes, one colon and
  exactly two second digits. Parsing it back gives the input again.
- **Page state** (`tracker.dfy`, module `Tracker`). `HydrationTracker` is a
  class with the page's state and methods for:
  - the reminder state machine: `StartReminder`, `StopReminder`, the
    per-second `Tick` and the hourly `HourElapsed`;
  - adding a glass and resetting the day;
  - the one-time load of a saved week, trimmed to its last seven records;
  - recording a computed goal.

  Timer handles are abstract tokens. The field `armed` stands for the set of
  intervals the runtime is running. The invariant `Valid()` holds in every
  state:
  - active exactly when both handles are set, distinct and are the only
    armed intervals;
  - inactive with nothing armed and the countdown at 3600;
  - the countdown always within 0..3600;
  - a computed goal always within 7..14;
  - the week never longer than seven records.

  The effective goal is `hydrationGoal?.adjustedGoal || 8`.

Dates are whole day numbers: the app's `YYYY-MM-DD` keys are compared for
equality when today's record is looked up, and by time stamp when the week
is sorted, and day numbers compare the same way. The current date is a
parameter wherever the app reads the clock.

## Model

| member | source | states |
|---|---|---|
| Goal.TemperatureFactor | src/services/goalService.ts:32-41 | the temperature delta is 2 exactly above 30, 1 exactly in 26..30, -1 exactly below 10 and 0 exactly in 10..25 |
| Goal.HumidityFactor | src/services/goalService.ts:44-50 | the humidity delta is 1 exactly when humidity is above 80 or below 30, and 0 exactly in 30..80 |
| Goal.ClimateFactorHot | src/services/goalService.ts:53-59 | the climate delta is 1 exactly for the conditions "clear" and "sunny", and 0 for every other string |
| Goal.ModerateConditionsAddNothing | src/services/goalService.ts:54 | the declared moderate conditions ("clouds", "mist", "fog") contribute nothing |
| Goal.ActivityFactor | src/services/goalService.ts:62-74 | the activity delta is 2, 1 or 0 exactly for high, moderate and low |
| Goal.AdviceFollowsTemperatureFactor | src/services/goalService.ts:82-90 | the advice clause and the temperature factor pick the same band: hot iff factor 2, warm iff 1, cool iff -1, moderate iff 0 |
| Goal.RecommendationShape | src/services/goalService.ts:80-90 | the recommendation starts with "Based on your location (" + city + ") " and ends with one of the four advice clauses, the hot one exactly above 30 degrees |
| Goal.GoalSpec | src/services/goalService.ts:21-77 | the base goal is 8; the adjusted goal is 8 plus the sum of the four factors, lies in 7..14, and so is never raised by the clamp at 6 |
| Goal.CalculateHydrationGoal | src/services/goalService.ts:16-98 | the step-by-step calculation (default activity moderate) returns exactly GoalSpec: the factors, the clamped goal and the recommendation |
| Goal.GoalRangeIsTight | src/services/goalService.ts:32-77 | both ends of 7..14 are reached (5 degrees, 50%, "rain", low activity gives 7; 32 degrees, 85%, "clear", high gives 14) |
| Goal.WorkedExample | src/services/goalService.ts:32-77 | 32 degrees, 85%, "clear" and high activity give factors (2, 1, 1, 2) and goal 14 |
| Goal.FallbackWeatherGoal | src/hooks/useLocation.ts:35-50 | the default weather (25 degrees, 60%, "moderate") with the default activity gives factors (0, 0, 0, 1) and goal 9 |
| DayData.Points | src/utils/dataManager.ts:71 | a met day earns 100; otherwise the points are the floor of 100 * count / goal |
| DayData.PointsBounds | src/utils/dataManager.ts:70-71 | for a non-negative count, points lie in 0..100 and are 100 exactly when the goal is met |
| DayData.MakeRecord | src/utils/dataManager.ts:75-81 | a new record carries the date, count and goal given, and is well formed (goalMet iff count >= goal, points as above) |
| DayData.ResetRecord | src/utils/dataManager.ts:78-79 | a count of 0 is never a met day and earns 0 points |
| DayData.TodayIndex | src/utils/dataManager.ts:64 | `findIndex`: the first index dated today, or -1 exactly when no record is dated today |
| DayData.TrimToWindow | src/utils/dataManager.ts:82 | the result holds min(n, 7) records and is the suffix of the input of that length (the oldest are dropped) |
| DayData.UpdateRewritesToday | src/utils/dataManager.ts:66-73 | with a record for today, the week keeps its length; the first such record is rewritten with the new count and goal and keeps its date; every other record is unchanged |
| DayData.UpdateAppendsToday | src/utils/dataManager.ts:74-83 | without a record for today, the result holds min(n + 1, 7) records, ends with the new record, and the rest are the newest old records in their order |
| DayData.UpdateDayData | src/utils/dataManager.ts:57-86 | the copy-then-rewrite-or-append-and-splice procedure returns exactly UpdatedWeek; the caller's sequence is a value and is unchanged |
| DayData.UpdatePreservesWellFormed | src/utils/dataManager.ts:67-81 | if every record of the week is well formed, so is every record after an update |
| DayData.UpdateKeepsWindow | src/utils/dataManager.ts:74-83 | an update never takes a week of at most seven records beyond seven, and a full week stays full |
| DayData.UpdatePreservesUniqueDates | src/utils/dataManager.ts:64-83 | one record per day survives every update |
| DayData.UpdatePreservesAscending | src/utils/dataManager.ts:74-83 | a week kept oldest first stays oldest first when today is not older than its newest record |
| DayData.SumPointsPermutation | src/utils/dataManager.ts:92-94 | the point total does not depend on the order of the records |
| DayData.SortByDateDescSorts | src/utils/dataManager.ts:96 | the sorted copy has the same records (the same multiset) as the week, newest first |
| DayData.LeadingMet | src/utils/dataManager.ts:97-103 | the count covers only met records, is at most the number of records, and stops at the first miss |
| DayData.CalculateStreakAndPoints | src/utils/dataManager.ts:88-106 | the points are the sum over the week, and the streak is the run of met records at the front of the newest-first copy |
| DayData.StreakOfAscendingWeek | src/utils/dataManager.ts:96-103 | for a week kept oldest first, the streak is the run of met records ending at the newest one: 0 when the newest is unmet, and no older met day before a miss is counted |
| DayData.WorkedExample | src/utils/dataManager.ts:88-106 | counts 8, 8, 3 against goal 8 give points 100, 100, 37, total 237 and streak 0 |
| TimeFormat.NatToString | src/components/ReminderControl.tsx:18 | decimal text is non-empty, all digits, and has no leading zero except for 0 itself |
| TimeFormat.TruncatedRemainder | src/components/ReminderControl.tsx:17 | JavaScript `%`: for a non-negative dividend the remainder is in 0..59 and equals the mathematical one; for a negative dividend it lies in -59..0 |
| TimeFormat.PadStart2 | src/components/ReminderControl.tsx:18 | `padStart(2, '0')`: text of length two or more is kept; shorter text is left-padded with '0' to length two |
| TimeFormat.FormatTime | src/components/ReminderControl.tsx:15-19 | for non-negative seconds: the decimal minutes (seconds div 60), one ':', then exactly two digits of seconds mod 60 |
| TimeFormat.TwoDigitSeconds | src/components/ReminderControl.tsx:17-18 | a remainder below 60 prints as exactly its two decimal digits once padded |
| TimeFormat.ParseNatToString | src/components/ReminderControl.tsx:18 | the decimal text of n reads back as n |
| TimeFormat.FormatTimeRoundTrip | src/components/ReminderControl.tsx:16-18 | the formatted countdown parses back as minutes * 60 + seconds, which is the input |
| TimeFormat.FormatTimeExamples | src/components/ReminderControl.tsx:15-19 | 3600 seconds show as "60:00" and 0 as "0:00" |
| Tracker.WaterGoalRange | src/pages/Index.tsx:42 | the effective goal is 8 when no goal is available, the computed goal otherwise, and always lies in 7..14 |
| Tracker.CountdownStep | src/pages/Index.tsx:115 | one tick counts down by one or wraps to 3600, and keeps the countdown within 0..3600 |
| Tracker.CountdownWraps | src/pages/Index.tsx:115 | from t, n <= t ticks give t - n, and tick t + 1 wraps to 3600 |
| Tracker.HydrationTracker.constructor | src/pages/Index.tsx:29-37 | the initial state: inactive, countdown 3600, nothing armed, no glasses, empty week, no points or streak, no goal |
| Tracker.HydrationTracker.StartReminder | src/pages/Index.tsx:105-123 | when active nothing changes, so no second pair of intervals is armed; otherwise it becomes active with exactly two fresh intervals, hourly and per second |
| Tracker.HydrationTracker.StopReminder | src/pages/Index.tsx:125-143 | when inactive nothing changes; otherwise both intervals are cleared and the handles emptied, it becomes inactive, and the countdown is back at 3600 |
| Tracker.HydrationTracker.Tick | src/pages/Index.tsx:114-116 | with the per-second interval armed the countdown takes one step (t - 1, or 3600 from 0); otherwise nothing fires |
| Tracker.HydrationTracker.HourElapsed | src/pages/Index.tsx:109-112 | with the hourly interval armed one reminder is shown and the countdown restarts at 3600; otherwise nothing changes |
| Tracker.HydrationTracker.GoalComputed | src/hooks/useLocation.ts:25-26 | the stored goal is GoalSpec of the weather and location with the default activity level, and the state stays valid |
| Tracker.HydrationTracker.LoadSavedData | src/pages/Index.tsx:46-78 | runs once; a non-empty saved week is trimmed to its last seven records with the saved totals; otherwise the initial week is summarised; today's count is taken from the week when today has a record |
| Tracker.RecordToday | src/pages/Index.tsx:84-93 | the updated week is UpdatedWeek, within seven records, with its point total and streak |
| Tracker.HydrationTracker.HandleUpdateDayData | src/pages/Index.tsx:84-93 | the week becomes UpdatedWeek of the old one against the effective goal, and the points and streak are recomputed from it |
| Tracker.HydrationTracker.AddWater | src/pages/Index.tsx:145-148 | the count goes up by one and that count is recorded for today |
| Tracker.HydrationTracker.ResetDay | src/pages/Index.tsx:164-166 | the count goes to 0 and 0 is recorded for today |
| Tracker.ReminderScenario | src/pages/Index.tsx:105-143 | starting twice arms two intervals, not four; stopping disarms them, and a later tick or hour changes nothing (countdown 3600) |

## Left out

- Browser geolocation, reverse geocoding and the weather HTTP request (src/services/locationService.ts, src/hooks/useLocation.ts): network I/O. The weather and location are parameters. The fallback weather is covered by the lemma `FallbackWeatherGoal`.
- Reading the clock: today's date is a parameter of every operation that needs it.
- Synthetic demo data (`generateSyntheticData`, `initializeWeeklyData`): they depend on `Math.random`, the clock and local storage. `LoadSavedData` receives the initial seven-day week as a parameter.
- Persistence (`loadSavedData`, `saveData`): local storage, `JSON.parse` and `parseInt`. `LoadSavedData` receives the parsed week and totals, and nothing is written back.
- Notifications and toasts: the browser Notification API and the toast texts. This includes the fixed "+10 points" text, which does not follow the points formula. `HourElapsed` only counts the reminders shown.
- Progress percentages, `Math.round` displays and all rendering.
- Real timer scheduling, concurrency and the effect cleanup that clears both intervals on unmount (src/pages/Index.tsx:173-177): the runtime's intervals are the set `armed`, and their callbacks are `Tick` and `HourElapsed`.
- DayData.Points: uses the integer quotient (100 * count) / goal in place of the floating-point `Math.floor((count / goal) * 100)`.
  - For the goals 7..14 that the calculator produces, the product is a whole number only for the goals 8, 10, 12 and 14. For those goals the floating-point value is exact or rounds upward, so both formulas give the same floor.
  - This agreement is argued here, not proved.
- Saved records are taken as they are: points or counts that are not whole numbers, and dates that do not parse, are not modelled.
- The built-in array sort: it is modelled by a stable insertion sort, newest first. Records with equal dates keep their relative order, as the built-in sort guarantees.
- Goal.ClimateFactor: its own contract only says the delta is 0 or 1. The exact condition is stated by `ClimateFactorHot`.
- Humidity and temperature are whole numbers. The weather service rounds the temperature, and humidity is an integer percentage.
