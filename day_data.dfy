/**
 * The rolling seven-day history (src/utils/dataManager.ts).
 *
 * A calendar day is a day number: the source's `YYYY-MM-DD` keys are
 * compared for equality when a day is looked up and by their time stamps
 * when the week is sorted, and day numbers compare the same way.
 */
module DayData {

  type Date = int

  datatype DayRecord = DayRecord(date: Date, waterCount: int, goalMet: bool, points: int, goal: int)

  /** The number of days the history keeps. */
  const WindowSize: nat := 7
  /** The points a day earns once its goal is met. */
  const FullPoints: int := 100

  /**
   * Points for a day: 100 once the goal is met, otherwise the floor of
   * 100 * count / goal.  Dafny's division by a positive divisor rounds
   * toward negative infinity, as `Math.floor` does.
   */
  function Points(count: int, goal: int): (p: int)
    requires goal > 0
    ensures count >= goal ==> p == FullPoints
    ensures count < goal ==> p * goal <= count * 100 < (p + 1) * goal
  {
    if count >= goal then FullPoints else (count * 100) / goal
  }

  /** Points stay within 0..100 for a non-negative count, and reach 100 only when the goal is met. */
  lemma PointsBounds(count: int, goal: int)
    requires goal > 0 && count >= 0
    ensures 0 <= Points(count, goal) <= FullPoints
    ensures Points(count, goal) == FullPoints <==> count >= goal
  {
    if count < goal {
      QuotientBelow(count * 100, goal, 100);
    }
  }

  /** A non-negative x below n * g gives a quotient x / g in 0..n-1. */
  lemma QuotientBelow(x: int, g: int, n: int)
    requires g > 0 && 0 <= x < n * g
    ensures 0 <= x / g < n
  {
  }

  /** The record written for `date` with `count` glasses against `goal`. */
  function MakeRecord(date: Date, count: int, goal: int): (r: DayRecord)
    requires goal > 0
    ensures WellFormed(r)
    ensures r.date == date && r.waterCount == count && r.goal == goal
  {
    DayRecord(date, count, count >= goal, Points(count, goal), goal)
  }

  /** A record whose flag and points agree with its count and goal. */
  predicate WellFormed(r: DayRecord)
  {
    && r.goal > 0
    && (r.goalMet <==> r.waterCount >= r.goal)
    && r.points == Points(r.waterCount, r.goal)
  }

  /** A reset (count 0) is never a met day and earns nothing. */
  lemma ResetRecord(date: Date, goal: int)
    requires goal > 0
    ensures !MakeRecord(date, 0, goal).goalMet
    ensures MakeRecord(date, 0, goal).points == 0
  {
  }

  /** The index of the first record dated `today`, or -1 (`findIndex`). */
  function TodayIndex(week: seq<DayRecord>, today: Date): (i: int)
    ensures -1 <= i < |week|
    ensures i >= 0 ==> week[i].date == today
    ensures i >= 0 ==> forall j :: 0 <= j < i ==> week[j].date != today
    ensures i == -1 <==> forall j :: 0 <= j < |week| ==> week[j].date != today
  {
    if week == [] then -1
    else if week[0].date == today then 0
    else
      var k := TodayIndex(week[1..], today);
      if k < 0 then -1 else k + 1
  }

  /** The last WindowSize records, oldest dropped first (`splice(0, length - 7)` and `slice(-7)`). */
  function TrimToWindow(s: seq<DayRecord>): (r: seq<DayRecord>)
    ensures |r| == if |s| <= WindowSize then |s| else WindowSize
    ensures r == s[|s| - |r|..]
  {
    if |s| <= WindowSize then s else s[|s| - WindowSize..]
  }

  /**
   * The week after recording `count` glasses today.  An existing record for
   * today is rewritten in place; otherwise a record is appended and the
   * window trimmed from the front.
   */
  function UpdatedWeek(week: seq<DayRecord>, count: int, goal: int, today: Date): seq<DayRecord>
    requires goal > 0
  {
    var rec := MakeRecord(today, count, goal);
    var i := TodayIndex(week, today);
    if i >= 0 then week[i := rec] else TrimToWindow(week + [rec])
  }

  /**
   * With a record for today, the week keeps its length, only the first such
   * record changes, and it keeps its date.
   */
  lemma UpdateRewritesToday(week: seq<DayRecord>, count: int, goal: int, today: Date)
    requires goal > 0 && TodayIndex(week, today) >= 0
    ensures var r, i := UpdatedWeek(week, count, goal, today), TodayIndex(week, today);
      && |r| == |week|
      && r[i] == MakeRecord(week[i].date, count, goal)
      && forall j :: 0 <= j < |week| && j != i ==> r[j] == week[j]
  {
  }

  /**
   * Without a record for today, the new record ends the week, which holds
   * min(|week| + 1, 7) records: the newest of the old ones, in their order.
   */
  lemma UpdateAppendsToday(week: seq<DayRecord>, count: int, goal: int, today: Date)
    requires goal > 0 && TodayIndex(week, today) < 0
    ensures var r := UpdatedWeek(week, count, goal, today);
      && |r| == (if |week| + 1 <= WindowSize then |week| + 1 else WindowSize)
      && r[|r| - 1] == MakeRecord(today, count, goal)
      && r[..|r| - 1] == week[|week| + 1 - |r|..]
  {
    var s := week + [MakeRecord(today, count, goal)];
    var r := UpdatedWeek(week, count, goal, today);
    assert r == s[|s| - |r|..];
    assert r[..|r| - 1] == s[|s| - |r|..|s| - 1];
    assert s[..|s| - 1] == week;
  }

  /**
   * `updateDayData`: copies the week, rewrites today's record in place or
   * appends one and trims the front to seven.  The caller's sequence is a
   * value and is left as it was.
   */
  method UpdateDayData(weeklyData: seq<DayRecord>, newWaterCount: int, waterGoal: int, todayDate: Date)
    returns (updatedData: seq<DayRecord>)
    requires waterGoal > 0
    ensures updatedData == UpdatedWeek(weeklyData, newWaterCount, waterGoal, todayDate)
  {
    updatedData := weeklyData;
    var todayIndex := TodayIndex(updatedData, todayDate);
    if todayIndex >= 0 {
      var old_ := updatedData[todayIndex];
      updatedData := updatedData[todayIndex := old_.(waterCount := newWaterCount,
                                                      goalMet := newWaterCount >= waterGoal,
                                                      points := Points(newWaterCount, waterGoal),
                                                      goal := waterGoal)];
    } else {
      updatedData := updatedData + [MakeRecord(todayDate, newWaterCount, waterGoal)];
      var excess := |updatedData| - WindowSize;
      if excess > 0 {
        updatedData := updatedData[excess..];
      }
    }
  }

  /** All records written by an update are well formed, and the others are kept. */
  lemma UpdatePreservesWellFormed(week: seq<DayRecord>, count: int, goal: int, today: Date)
    requires goal > 0
    requires forall k :: 0 <= k < |week| ==> WellFormed(week[k])
    ensures var r := UpdatedWeek(week, count, goal, today);
      forall k :: 0 <= k < |r| ==> WellFormed(r[k])
  {
    var r := UpdatedWeek(week, count, goal, today);
    var rec := MakeRecord(today, count, goal);
    if TodayIndex(week, today) < 0 {
      var s := week + [rec];
      assert forall k :: 0 <= k < |s| ==> WellFormed(s[k]);
    }
  }

  /** An update never grows a history of at most seven days beyond seven. */
  lemma UpdateKeepsWindow(week: seq<DayRecord>, count: int, goal: int, today: Date)
    requires goal > 0 && |week| <= WindowSize
    ensures |UpdatedWeek(week, count, goal, today)| <= WindowSize
    ensures |week| == WindowSize ==> |UpdatedWeek(week, count, goal, today)| == WindowSize
  {
  }

  /** No two records share a date. */
  predicate UniqueDates(s: seq<DayRecord>)
  {
    forall i, j :: 0 <= i < j < |s| ==> s[i].date != s[j].date
  }

  /** Records in strictly increasing date order, oldest first. */
  predicate StrictlyAscending(s: seq<DayRecord>)
  {
    forall i, j :: 0 <= i < j < |s| ==> s[i].date < s[j].date
  }

  /** One record per day survives every update. */
  lemma UpdatePreservesUniqueDates(week: seq<DayRecord>, count: int, goal: int, today: Date)
    requires goal > 0 && UniqueDates(week)
    ensures UniqueDates(UpdatedWeek(week, count, goal, today))
  {
    var r := UpdatedWeek(week, count, goal, today);
    var rec := MakeRecord(today, count, goal);
    if TodayIndex(week, today) < 0 {
      var s := week + [rec];
      assert UniqueDates(s) by {
        forall i, j | 0 <= i < j < |s| ensures s[i].date != s[j].date {
          if j == |week| {
            assert s[i] == week[i];
          } else {
            assert s[i] == week[i] && s[j] == week[j];
          }
        }
      }
      assert r == s[|s| - |r|..];
      forall i, j | 0 <= i < j < |r| ensures r[i].date != r[j].date {
        assert r[i] == s[|s| - |r| + i] && r[j] == s[|s| - |r| + j];
      }
    }
  }

  /** A record dated after the newest one extends an ascending week. */
  lemma AppendNewestAscending(week: seq<DayRecord>, rec: DayRecord)
    requires StrictlyAscending(week)
    requires |week| > 0 ==> rec.date > week[|week| - 1].date
    ensures StrictlyAscending(week + [rec])
  {
    var s := week + [rec];
    forall i, j | 0 <= i < j < |s| ensures s[i].date < s[j].date {
      if j == |week| {
        assert s[i] == week[i];
        if i < |week| - 1 {
          assert week[i].date < week[|week| - 1].date;
        }
      } else {
        assert s[i] == week[i] && s[j] == week[j];
      }
    }
  }

  /** Dropping the oldest records keeps a week ascending. */
  lemma SuffixAscending(s: seq<DayRecord>, n: nat)
    requires n <= |s| && StrictlyAscending(s)
    ensures StrictlyAscending(s[n..])
  {
    var r := s[n..];
    forall i, j | 0 <= i < j < |r| ensures r[i].date < r[j].date {
      assert r[i] == s[n + i] && r[j] == s[n + j];
    }
  }

  /**
   * When today is not older than the newest record, an ascending week
   * stays ascending: the update either rewrites today's slot or appends
   * the newest day.
   */
  lemma UpdatePreservesAscending(week: seq<DayRecord>, count: int, goal: int, today: Date)
    requires goal > 0 && StrictlyAscending(week)
    requires |week| > 0 ==> today >= week[|week| - 1].date
    ensures StrictlyAscending(UpdatedWeek(week, count, goal, today))
  {
    var r := UpdatedWeek(week, count, goal, today);
    var rec := MakeRecord(today, count, goal);
    var i := TodayIndex(week, today);
    if i < 0 {
      var s := week + [rec];
      if |week| > 0 {
        assert week[|week| - 1].date != today;
      }
      AppendNewestAscending(week, rec);
      assert r == s[|s| - |r|..];
      SuffixAscending(s, |s| - |r|);
    } else {
      assert r == week[i := rec];
      assert forall k :: 0 <= k < |r| ==> r[k].date == week[k].date;
    }
  }

  // ---------------------------------------------------------------------
  // Streak and points
  // ---------------------------------------------------------------------

  /** The sum of `points` over the records, accumulated from the front. */
  function SumPoints(s: seq<DayRecord>): int
  {
    if s == [] then 0 else SumPoints(s[..|s| - 1]) + s[|s| - 1].points
  }

  lemma {:induction false} SumPointsAppend(a: seq<DayRecord>, b: seq<DayRecord>)
    ensures SumPoints(a + b) == SumPoints(a) + SumPoints(b)
    decreases |b|
  {
    if b == [] {
      assert a + b == a;
    } else {
      var b' := b[..|b| - 1];
      assert (a + b)[..|a + b| - 1] == a + b';
      SumPointsAppend(a, b');
    }
  }

  /** Taking one record out of a week takes its points out of the sum. */
  lemma SumPointsRemove(t: seq<DayRecord>, i: nat)
    requires i < |t|
    ensures SumPoints(t) == SumPoints(t[..i] + t[i + 1..]) + t[i].points
  {
    var x := t[i];
    assert t == t[..i] + [x] + t[i + 1..];
    SumPointsAppend(t[..i] + [x], t[i + 1..]);
    SumPointsAppend(t[..i], [x]);
    SumPointsAppend(t[..i], t[i + 1..]);
    assert SumPoints([x]) == x.points by {
      assert [x][..0] == [];
    }
  }

  /** Taking one record out removes exactly one copy of it. */
  lemma MultisetRemove(t: seq<DayRecord>, i: nat)
    requires i < |t|
    ensures multiset(t[..i] + t[i + 1..]) == multiset(t) - multiset{t[i]}
  {
    assert t == t[..i] + [t[i]] + t[i + 1..];
  }

  /** Reordering the records does not change the total. */
  lemma {:induction false} SumPointsPermutation(s: seq<DayRecord>, t: seq<DayRecord>)
    requires multiset(s) == multiset(t)
    ensures SumPoints(s) == SumPoints(t)
    decreases |s|
  {
    if s == [] {
      assert |t| == |multiset(t)| == 0;
    } else {
      var x := s[|s| - 1];
      var s' := s[..|s| - 1];
      assert s == s' + [x];
      assert x in multiset(t);
      var i :| 0 <= i < |t| && t[i] == x;
      MultisetRemove(t, i);
      SumPointsPermutation(s', t[..i] + t[i + 1..]);
      SumPointsRemove(t, i);
    }
  }

  /** Places `r` before the first record not newer than it (a stable descending insertion). */
  function InsertByDateDesc(r: DayRecord, s: seq<DayRecord>): seq<DayRecord>
  {
    if s == [] || s[0].date <= r.date then [r] + s
    else [s[0]] + InsertByDateDesc(r, s[1..])
  }

  /** Records newest first. */
  predicate DescendingByDate(s: seq<DayRecord>)
  {
    forall i, j :: 0 <= i < j < |s| ==> s[i].date >= s[j].date
  }

  predicate DatesAtMost(s: seq<DayRecord>, d: Date)
  {
    forall i :: 0 <= i < |s| ==> s[i].date <= d
  }

  lemma {:induction false} InsertMultiset(r: DayRecord, s: seq<DayRecord>)
    ensures |InsertByDateDesc(r, s)| == |s| + 1
    ensures multiset(InsertByDateDesc(r, s)) == multiset(s) + multiset{r}
  {
    if s != [] && s[0].date > r.date {
      InsertMultiset(r, s[1..]);
      assert s == [s[0]] + s[1..];
    }
  }

  lemma {:induction false} InsertDatesAtMost(r: DayRecord, s: seq<DayRecord>, d: Date)
    requires DatesAtMost(s, d) && r.date <= d
    ensures DatesAtMost(InsertByDateDesc(r, s), d)
  {
    if s != [] && s[0].date > r.date {
      InsertDatesAtMost(r, s[1..], d);
    }
  }

  lemma {:induction false} InsertDescending(r: DayRecord, s: seq<DayRecord>)
    requires DescendingByDate(s)
    ensures DescendingByDate(InsertByDateDesc(r, s))
  {
    if s != [] && s[0].date > r.date {
      var tail := s[1..];
      InsertDescending(r, tail);
      InsertDatesAtMost(r, tail, s[0].date);
    }
  }

  /**
   * The copy `[...data].sort(newest first)`: a stable insertion sort on
   * dates, which the source delegates to the built-in sort.
   */
  function SortByDateDesc(s: seq<DayRecord>): seq<DayRecord>
  {
    if s == [] then [] else InsertByDateDesc(s[0], SortByDateDesc(s[1..]))
  }

  /** The sorted copy is a permutation of the week, newest first. */
  lemma {:induction false} SortByDateDescSorts(s: seq<DayRecord>)
    ensures |SortByDateDesc(s)| == |s|
    ensures multiset(SortByDateDesc(s)) == multiset(s)
    ensures DescendingByDate(SortByDateDesc(s))
  {
    if s != [] {
      var rest := SortByDateDesc(s[1..]);
      SortByDateDescSorts(s[1..]);
      InsertMultiset(s[0], rest);
      InsertDescending(s[0], rest);
      assert s == [s[0]] + s[1..];
    }
  }

  /** The number of goal-met records at the front of `s`, up to the first miss. */
  function LeadingMet(s: seq<DayRecord>): (n: nat)
    ensures n <= |s|
    ensures forall k :: 0 <= k < n ==> s[k].goalMet
    ensures n < |s| ==> !s[n].goalMet
  {
    if s == [] || !s[0].goalMet then 0 else 1 + LeadingMet(s[1..])
  }

  /** The leading run is the only count with its two properties. */
  lemma LeadingMetUnique(s: seq<DayRecord>, n: nat)
    requires n <= |s|
    requires forall k :: 0 <= k < n ==> s[k].goalMet
    requires n < |s| ==> !s[n].goalMet
    ensures LeadingMet(s) == n
  {
  }

  /** The number of goal-met records at the end of `s`, back to the newest miss. */
  function TrailingMet(s: seq<DayRecord>): (n: nat)
    ensures n <= |s|
    ensures forall k :: |s| - n <= k < |s| ==> s[k].goalMet
    ensures n < |s| ==> !s[|s| - 1 - n].goalMet
  {
    if s == [] || !s[|s| - 1].goalMet then 0 else 1 + TrailingMet(s[..|s| - 1])
  }

  /**
   * `calculateStreakAndPoints`: totals the points, then counts met days on
   * a copy sorted newest first, stopping at the first miss.
   */
  method CalculateStreakAndPoints(data: seq<DayRecord>) returns (streak: nat, points: int)
    ensures points == SumPoints(data)
    ensures streak == LeadingMet(SortByDateDesc(data))
  {
    streak := 0;
    points := 0;

    var i := 0;
    while i < |data|
      invariant 0 <= i <= |data|
      invariant points == SumPoints(data[..i])
    {
      assert data[..i + 1][..i] == data[..i];
      points := points + data[i].points;
      i := i + 1;
    }
    assert data[..|data|] == data;

    var sortedData := SortByDateDesc(data);
    var j := 0;
    while j < |sortedData|
      invariant 0 <= j <= |sortedData|
      invariant streak == j
      invariant forall k :: 0 <= k < j ==> sortedData[k].goalMet
    {
      if sortedData[j].goalMet {
        streak := streak + 1;
      } else {
        break;
      }
      j := j + 1;
    }
  }

  function Reverse(s: seq<DayRecord>): (r: seq<DayRecord>)
    ensures |r| == |s|
    ensures forall k :: 0 <= k < |s| ==> r[k] == s[|s| - 1 - k]
  {
    if s == [] then [] else Reverse(s[1..]) + [s[0]]
  }

  lemma {:induction false} InsertOlderThanAll(r: DayRecord, s: seq<DayRecord>)
    requires forall k :: 0 <= k < |s| ==> s[k].date > r.date
    ensures InsertByDateDesc(r, s) == s + [r]
  {
    if s != [] {
      InsertOlderThanAll(r, s[1..]);
      assert s == [s[0]] + s[1..];
    }
  }

  /** For a week kept oldest first with distinct dates, sorting newest first is reversal. */
  lemma {:induction false} SortAscendingIsReverse(s: seq<DayRecord>)
    requires StrictlyAscending(s)
    ensures SortByDateDesc(s) == Reverse(s)
  {
    if s != [] {
      var tail := s[1..];
      assert StrictlyAscending(tail) by {
        forall i, j | 0 <= i < j < |tail| ensures tail[i].date < tail[j].date {
          assert tail[i] == s[i + 1] && tail[j] == s[j + 1];
        }
      }
      SortAscendingIsReverse(tail);
      var rt := Reverse(tail);
      forall k | 0 <= k < |rt| ensures rt[k].date > s[0].date {
        assert rt[k] == tail[|tail| - 1 - k] == s[|tail| - k];
      }
      InsertOlderThanAll(s[0], rt);
      assert SortByDateDesc(s) == InsertByDateDesc(s[0], SortByDateDesc(tail));
      assert Reverse(s) == rt + [s[0]];
    }
  }

  /**
   * For a week kept oldest first, the streak is the run of met days ending
   * at the newest record: 0 when the newest day is unmet, and no older met
   * day before a miss is counted.
   */
  lemma StreakOfAscendingWeek(s: seq<DayRecord>)
    requires StrictlyAscending(s)
    ensures LeadingMet(SortByDateDesc(s)) == TrailingMet(s)
  {
    SortAscendingIsReverse(s);
    var r, n := Reverse(s), TrailingMet(s);
    assert forall k :: 0 <= k < n ==> r[k] == s[|s| - 1 - k];
    LeadingMetUnique(r, n);
  }

  /** Counts [8, 8, 3] against goal 8: points 100, 100, 37, total 237, streak 0. */
  lemma WorkedExample()
    ensures var week := [MakeRecord(1, 8, 8), MakeRecord(2, 8, 8), MakeRecord(3, 3, 8)];
      && week[2].points == 37
      && SumPoints(week) == 237
      && LeadingMet(SortByDateDesc(week)) == 0
  {
    var week := [MakeRecord(1, 8, 8), MakeRecord(2, 8, 8), MakeRecord(3, 3, 8)];
    assert week[0].points == 100 && week[1].points == 100 && week[2].points == 37;
    assert week[..2] == [week[0], week[1]];
    assert week[..2][..1] == [week[0]];
    assert [week[0]][..0] == [];
    assert SumPoints([week[0]]) == 100;
    assert SumPoints(week[..2]) == 200;
    assert StrictlyAscending(week);
    StreakOfAscendingWeek(week);
  }
}
