/**
 * Dashboard aggregation over a user's workouts: lifetime totals, the current
 * streak of workout days, this week against last week, goal progress with
 * default goals, and the per-day breakdown of a date range.
 *
 * Instants are milliseconds since the epoch; a day is the number of whole
 * days since the epoch (`instant / DayMs`), and its weekday is counted from
 * Sunday = 0 (day 0, 1 January 1970, was a Thursday).
 */
module Dashboard {
  import opened Common
  import opened Workouts

  const DayMs: int := 24 * 60 * 60 * 1000

  /** A workout as the dashboard reads it: type, start, duration and the treadmill distance if any. */
  datatype WorkoutSummary = WorkoutSummary(kind: WorkoutType, startedAt: int, durationSeconds: int,
                                           distanceKm: Option<real>)

  function DayOf(t: int): int {
    t / DayMs
  }

  /** `getDay()`: 0 for Sunday up to 6 for Saturday. */
  function Weekday(day: int): (w: int)
    ensures 0 <= w < 7
  {
    (day + 4) % 7
  }

  // ---------------------------------------------------------------- totals

  /** The distance a workout adds to a total: a treadmill workout's truthy `distanceKm`, else nothing. */
  function CountedDistance(w: WorkoutSummary): real {
    if w.kind == Treadmill && w.distanceKm.Some? && w.distanceKm.value != 0.0 then w.distanceKm.value else 0.0
  }

  function TotalDistance(ws: seq<WorkoutSummary>): real {
    if ws == [] then 0.0 else TotalDistance(ws[..|ws| - 1]) + CountedDistance(ws[|ws| - 1])
  }

  function TotalDurationSeconds(ws: seq<WorkoutSummary>): int {
    if ws == [] then 0 else TotalDurationSeconds(ws[..|ws| - 1]) + ws[|ws| - 1].durationSeconds
  }

  /** Totals add up over a split of the workouts. */
  lemma {:induction false} TotalsAdd(a: seq<WorkoutSummary>, b: seq<WorkoutSummary>)
    ensures TotalDistance(a + b) == TotalDistance(a) + TotalDistance(b)
    ensures TotalDurationSeconds(a + b) == TotalDurationSeconds(a) + TotalDurationSeconds(b)
  {
    if b != [] {
      TotalsAdd(a, b[..|b| - 1]);
      assert (a + b)[..|a + b| - 1] == a + b[..|b| - 1];
    } else {
      assert a + b == a;
    }
  }

  /** A treadmill workout with a truthy `distanceKm`: the only kind the distance total adds up. */
  predicate HasDistance(w: WorkoutSummary) {
    w.kind == Treadmill && w.distanceKm.Some? && w.distanceKm.value != 0.0
  }

  /** Strength workouts and treadmill workouts without a distance contribute nothing to the distance total. */
  lemma {:induction false} DistanceCountsOnlyTreadmill(ws: seq<WorkoutSummary>)
    ensures TotalDistance(ws) == TotalDistance(Filter(ws, HasDistance))
  {
    if ws != [] {
      DistanceCountsOnlyTreadmill(ws[..|ws| - 1]);
      var last := ws[|ws| - 1];
      var f := Filter(ws[..|ws| - 1], HasDistance);
      assert TotalDistance(ws) == TotalDistance(ws[..|ws| - 1]) + CountedDistance(last);
      if HasDistance(last) {
        assert Filter(ws, HasDistance) == f + [last];
        assert (f + [last])[..|f|] == f;
        assert TotalDistance(f + [last]) == TotalDistance(f) + CountedDistance(last);
      } else {
        assert Filter(ws, HasDistance) == f;
        assert CountedDistance(last) == 0.0;
      }
    }
  }

  // ---------------------------------------------------------------- week windows

  /** `getStartOfWeek`: back to the most recent Sunday, at the same time of day. */
  function StartOfWeek(now: int): (r: int)
    ensures r <= now < r + 7 * DayMs
    ensures Weekday(DayOf(r)) == 0
    ensures r % DayMs == now % DayMs
  {
    now - Weekday(DayOf(now)) * DayMs
  }

  /** The start of the week as intended: midnight of the most recent Sunday. */
  function StartOfWeekMidnight(now: int): (r: int)
    ensures r <= now < r + 7 * DayMs
    ensures Weekday(DayOf(r)) == 0 && r % DayMs == 0
    ensures r <= StartOfWeek(now) && DayOf(r) == DayOf(StartOfWeek(now))
  {
    (DayOf(now) - Weekday(DayOf(now))) * DayMs
  }

  /** The workouts started at or after `weekStart`. */
  function ThisWeek(ws: seq<WorkoutSummary>, weekStart: int): (r: seq<WorkoutSummary>)
    ensures forall w :: w in r <==> w in ws && w.startedAt >= weekStart
  {
    Filter(ws, (w: WorkoutSummary) => w.startedAt >= weekStart)
  }

  /** The workouts of the seven days before `weekStart`. */
  function LastWeek(ws: seq<WorkoutSummary>, weekStart: int): (r: seq<WorkoutSummary>)
    ensures forall w :: w in r <==> w in ws && weekStart - 7 * DayMs <= w.startedAt < weekStart
  {
    Filter(ws, (w: WorkoutSummary) => weekStart - 7 * DayMs <= w.startedAt < weekStart)
  }

  /** No workout is in both weeks, and together they hold every workout of the last fourteen days. */
  lemma WeeksPartitionRecent(ws: seq<WorkoutSummary>, weekStart: int)
    ensures forall w :: w in ThisWeek(ws, weekStart) ==> w !in LastWeek(ws, weekStart)
    ensures forall i :: 0 <= i < |ws| && ws[i].startedAt >= weekStart - 7 * DayMs ==>
      ws[i] in ThisWeek(ws, weekStart) || ws[i] in LastWeek(ws, weekStart)
    ensures |ThisWeek(ws, weekStart)| + |LastWeek(ws, weekStart)| <= |ws|
  {
    WeekCounts(ws, weekStart);
    forall i | 0 <= i < |ws| && ws[i].startedAt >= weekStart - 7 * DayMs
      ensures ws[i] in ThisWeek(ws, weekStart) || ws[i] in LastWeek(ws, weekStart)
    {
      var inThis := (w: WorkoutSummary) => w.startedAt >= weekStart;
      var inLast := (w: WorkoutSummary) => weekStart - 7 * DayMs <= w.startedAt < weekStart;
      assert inThis(ws[i]) || inLast(ws[i]);
    }
  }

  lemma {:induction false} WeekCounts(ws: seq<WorkoutSummary>, weekStart: int)
    ensures |ThisWeek(ws, weekStart)| + |LastWeek(ws, weekStart)| <= |ws|
  {
    if ws != [] {
      WeekCounts(ws[..|ws| - 1], weekStart);
    }
  }

  /** The totals of one week: duration in seconds, distance and workout count. */
  datatype WeekTotals = WeekTotals(durationSeconds: int, distance: real, workoutCount: nat)

  function TotalsOf(ws: seq<WorkoutSummary>): WeekTotals {
    WeekTotals(TotalDurationSeconds(ws), TotalDistance(ws), |ws|)
  }

  datatype DashboardStats = DashboardStats(
    totalWorkouts: nat,
    totalDurationSeconds: int,
    totalDistance: real,
    currentStreak: nat,
    thisWeek: WeekTotals,
    lastWeek: WeekTotals)

  /**
   * `getDashboardStats` (before rounding): lifetime totals, the streak as of
   * `now`, and the totals of this week and last week. The week starts at
   * `StartOfWeek(now)` as written, or at `StartOfWeekMidnight(now)` as intended.
   */
  function Stats(ws: seq<WorkoutSummary>, now: int, weekStart: int): (r: DashboardStats)
    requires weekStart == StartOfWeek(now) || weekStart == StartOfWeekMidnight(now)
    ensures r.totalWorkouts == |ws| && r.thisWeek.workoutCount + r.lastWeek.workoutCount <= |ws|
    ensures r.currentStreak <= |ws|
  {
    WeekCounts(ws, weekStart);
    StreakBound(ws, now);
    DashboardStats(|ws|, TotalDurationSeconds(ws), TotalDistance(ws), StreakAsWritten(DescendingDays(ws), DayOf(now)),
                   TotalsOf(ThisWeek(ws, weekStart)), TotalsOf(LastWeek(ws, weekStart)))
  }

  /**
   * As written, a workout earlier on the current Sunday than the time of day
   * `now` falls outside this week and into last week.
   */
  lemma SundayMorningCountsAsLastWeek()
    ensures var now := 3 * DayMs + 15 * 3600000;
      var ws := [WorkoutSummary(Strength, 3 * DayMs + 9 * 3600000, 1800, None)];
      Weekday(DayOf(now)) == 0 &&
      Stats(ws, now, StartOfWeek(now)).thisWeek.workoutCount == 0 &&
      Stats(ws, now, StartOfWeek(now)).lastWeek.workoutCount == 1 &&
      Stats(ws, now, StartOfWeekMidnight(now)).thisWeek.workoutCount == 1
  {
    var now := 3 * DayMs + 15 * 3600000;
    var w := WorkoutSummary(Strength, 3 * DayMs + 9 * 3600000, 1800, None);
    assert [w][..0] == [];
  }

  /** With the week starting at midnight, every workout of the current calendar week counts as this week. */
  lemma MidnightWeekHoldsWholeDays(ws: seq<WorkoutSummary>, now: int)
    ensures forall i :: 0 <= i < |ws| && DayOf(StartOfWeekMidnight(now)) <= DayOf(ws[i].startedAt) ==>
      ws[i] in ThisWeek(ws, StartOfWeekMidnight(now))
  {
    var start := StartOfWeekMidnight(now);
    forall i | 0 <= i < |ws| && DayOf(start) <= DayOf(ws[i].startedAt)
      ensures ws[i] in ThisWeek(ws, start)
    {
      assert start == DayOf(start) * DayMs;
      assert ws[i].startedAt >= DayOf(ws[i].startedAt) * DayMs;
      assert ws[i].startedAt >= start;
    }
  }

  // ---------------------------------------------------------------- goals

  datatype GoalType = Daily | Weekly

  datatype Goal = Goal(durationMinutes: int, distanceKm: real, workoutCount: int)

  /** The goal used when the user has not set one. */
  function DefaultGoal(kind: GoalType): (g: Goal)
    ensures kind == Daily ==> g == Goal(30, 3.0, 1)
    ensures kind == Weekly ==> g == Goal(150, 20.0, 4)
  {
    match kind
    case Daily => Goal(30, 3.0, 1)
    case Weekly => Goal(150, 20.0, 4)
  }

  /** The first instant counted by a goal: midnight today, or the start of the week as written. */
  function GoalRangeStart(kind: GoalType, now: int): (r: int)
    ensures r <= now
    ensures kind == Daily ==> r % DayMs == 0 && DayOf(r) == DayOf(now)
  {
    match kind
    case Daily => DayOf(now) * DayMs
    case Weekly => StartOfWeek(now)
  }

  /** One goal's progress: what was done since the start of the range, and the goal. */
  datatype GoalProgress = GoalProgress(current: WeekTotals, goal: Goal)

  /** `getGoalProgress`: totals since the range start against the stored goal, or the default. */
  function Progress(ws: seq<WorkoutSummary>, stored: Option<Goal>, kind: GoalType, now: int): (r: GoalProgress)
    ensures stored.None? ==> r.goal == DefaultGoal(kind)
    ensures stored.Some? ==> r.goal == stored.value
    ensures r.current.workoutCount <= |ws|
  {
    GoalProgress(TotalsOf(ThisWeek(ws, GoalRangeStart(kind, now))), stored.GetOr(DefaultGoal(kind)))
  }

  /**
   * As written, on a Sunday afternoon the weekly range starts after a
   * workout done that morning, so the weekly count is below the daily one.
   */
  lemma WeeklyBelowDailyOnSunday()
    ensures var now := 3 * DayMs + 15 * 3600000;
      var ws := [WorkoutSummary(Strength, 3 * DayMs + 9 * 3600000, 1800, None)];
      Progress(ws, None, Daily, now).current.workoutCount == 1 &&
      Progress(ws, None, Weekly, now).current.workoutCount == 0
  {
    var w := WorkoutSummary(Strength, 3 * DayMs + 9 * 3600000, 1800, None);
    assert [w][..0] == [];
  }

  // ---------------------------------------------------------------- streak

  predicate StrictlyDescending(ds: seq<int>) {
    forall i, j :: 0 <= i < j < |ds| ==> ds[i] > ds[j]
  }

  ghost function DaySet(ws: seq<WorkoutSummary>): set<int> {
    set i | 0 <= i < |ws| :: DayOf(ws[i].startedAt)
  }

  /** `ds` with `d` added, kept strictly descending. */
  function InsertDescending(ds: seq<int>, d: int): (r: seq<int>)
    requires StrictlyDescending(ds)
    ensures StrictlyDescending(r)
    ensures forall x :: x in r <==> x in ds || x == d
    ensures |r| <= |ds| + 1
  {
    if ds == [] then [d]
    else if ds[0] == d then ds
    else if ds[0] < d then [d] + ds
    else
      var rest := InsertDescending(ds[1..], d);
      assert forall x :: x in rest ==> x < ds[0];
      var r := [ds[0]] + rest;
      assert forall i, j :: 0 <= i < j < |r| ==> r[i] > r[j] by {
        forall i, j | 0 <= i < j < |r| ensures r[i] > r[j] {
          if i == 0 {
            assert r[j] in rest;
          } else {
            assert r[i] == rest[i - 1] && r[j] == rest[j - 1];
          }
        }
      }
      r
  }

  /** The distinct workout days, newest first. */
  function DescendingDays(ws: seq<WorkoutSummary>): (r: seq<int>)
    ensures StrictlyDescending(r)
    ensures forall d :: d in r <==> d in DaySet(ws)
    ensures |r| <= |ws|
  {
    if ws == [] then []
    else
      var r := InsertDescending(DescendingDays(ws[..|ws| - 1]), DayOf(ws[|ws| - 1].startedAt));
      assert forall d :: d in DaySet(ws) <==> d in DaySet(ws[..|ws| - 1]) || d == DayOf(ws[|ws| - 1].startedAt) by {
        forall d ensures d in DaySet(ws) <==> d in DaySet(ws[..|ws| - 1]) || d == DayOf(ws[|ws| - 1].startedAt) {
          if d in DaySet(ws) {
            var i :| 0 <= i < |ws| && DayOf(ws[i].startedAt) == d;
            if i < |ws| - 1 {
              assert ws[..|ws| - 1][i] == ws[i];
            }
          }
          if d in DaySet(ws[..|ws| - 1]) {
            var i :| 0 <= i < |ws| - 1 && DayOf(ws[..|ws| - 1][i].startedAt) == d;
            assert ws[i] == ws[..|ws| - 1][i];
          }
        }
      }
      r
  }

  /**
   * The streak as `calculateStreak` counts it over the distinct days `ds`
   * (newest first), starting the check at day `check`: a day counts when it
   * is the checked day or the one before, and the check then moves to the
   * day before the counted one.
   */
  function StreakAsWritten(ds: seq<int>, check: int): (n: nat)
    ensures n <= |ds|
  {
    if ds == [] then 0
    else if check - ds[0] == 0 || check - ds[0] == 1 then 1 + StreakAsWritten(ds[1..], ds[0] - 1)
    else 0
  }

  /** The `j`-th day continues the streak as written: within one day of the check, which follows the previous day. */
  predicate LinksAsWritten(ds: seq<int>, check: int, j: nat)
    requires j < |ds|
  {
    var from := if j == 0 then check else ds[j - 1] - 1;
    from - ds[j] == 0 || from - ds[j] == 1
  }

  /** The streak as written is the longest run of linked days from the newest. */
  lemma {:induction false} StreakAsWrittenIsLongestRun(ds: seq<int>, check: int)
    ensures forall j :: 0 <= j < StreakAsWritten(ds, check) ==> LinksAsWritten(ds, check, j)
    ensures StreakAsWritten(ds, check) < |ds| ==> !LinksAsWritten(ds, check, StreakAsWritten(ds, check))
  {
    if ds != [] && (check - ds[0] == 0 || check - ds[0] == 1) {
      var tail := ds[1..];
      StreakAsWrittenIsLongestRun(tail, ds[0] - 1);
      forall j | 1 <= j < StreakAsWritten(ds, check) ensures LinksAsWritten(ds, check, j) {
        assert LinksAsWritten(tail, ds[0] - 1, j - 1);
        if j >= 2 {
          assert tail[j - 2] == ds[j - 1];
        }
      }
      var n := StreakAsWritten(ds, check);
      if n < |ds| {
        assert !LinksAsWritten(tail, ds[0] - 1, n - 1);
        if n >= 2 {
          assert tail[n - 2] == ds[n - 1];
        }
      }
    }
  }

  /** The streak never exceeds the number of distinct workout days, nor the number of workouts. */
  lemma StreakBound(ws: seq<WorkoutSummary>, now: int)
    ensures StreakAsWritten(DescendingDays(ws), DayOf(now)) <= |DaySet(ws)| <= |ws|
  {
    var ds := DescendingDays(ws);
    DistinctCardinality(ds);
    assert (set i | 0 <= i < |ds| :: ds[i]) == DaySet(ws) by {
      forall d | d in DaySet(ws) ensures d in (set i | 0 <= i < |ds| :: ds[i]) {
        assert d in ds;
      }
    }
    DaySetSize(ws);
  }

  lemma {:induction false} DistinctCardinality(ds: seq<int>)
    requires StrictlyDescending(ds)
    ensures |set i | 0 <= i < |ds| :: ds[i]| == |ds|
  {
    if ds != [] {
      var init := ds[..|ds| - 1];
      DistinctCardinality(init);
      var s := set i | 0 <= i < |ds| :: ds[i];
      var s' := set i | 0 <= i < |init| :: init[i];
      assert s == s' + {ds[|ds| - 1]};
      assert ds[|ds| - 1] !in s';
    }
  }

  lemma {:induction false} DaySetSize(ws: seq<WorkoutSummary>)
    ensures |DaySet(ws)| <= |ws|
  {
    if ws != [] {
      var init := ws[..|ws| - 1];
      DaySetSize(init);
      assert DaySet(ws) <= DaySet(init) + {DayOf(ws[|ws| - 1].startedAt)} by {
        forall d | d in DaySet(ws) ensures d in DaySet(init) + {DayOf(ws[|ws| - 1].startedAt)} {
          var i :| 0 <= i < |ws| && DayOf(ws[i].startedAt) == d;
          if i < |ws| - 1 {
            assert init[i] == ws[i];
          }
        }
      }
      SubsetSize(DaySet(ws), DaySet(init) + {DayOf(ws[|ws| - 1].startedAt)});
    }
  }

  lemma SubsetSize(a: set<int>, b: set<int>)
    requires a <= b
    ensures |a| <= |b|
  {
    assert b == a + (b - a);
  }

  /** `calculateStreak`: the number of workout days in the current streak as of `now`. */
  method CalculateStreak(ws: seq<WorkoutSummary>, now: int) returns (streak: nat)
    ensures streak == StreakAsWritten(DescendingDays(ws), DayOf(now))
  {
    if |ws| == 0 {
      return 0;
    }
    var today := DayOf(now);
    var workoutDates := WorkoutDays(ws);
    streak := 0;
    var checkDate := today;
    var i := 0;
    while i < |workoutDates|
      invariant 0 <= i <= |workoutDates|
      invariant streak + StreakAsWritten(workoutDates[i..], checkDate) == StreakAsWritten(workoutDates, today)
    {
      var diffDays := checkDate - workoutDates[i];
      if diffDays == 0 || diffDays == 1 {
        streak := streak + 1;
        checkDate := workoutDates[i] - 1;
      } else {
        break;
      }
      assert workoutDates[i..][1..] == workoutDates[i + 1..];
      i := i + 1;
    }
  }

  /** The distinct workout days, newest first, built one workout at a time. */
  method WorkoutDays(ws: seq<WorkoutSummary>) returns (days: seq<int>)
    ensures days == DescendingDays(ws)
  {
    days := [];
    var i := 0;
    while i < |ws|
      invariant 0 <= i <= |ws|
      invariant days == DescendingDays(ws[..i])
    {
      assert ws[..i + 1][..i] == ws[..i];
      days := InsertDescending(days, DayOf(ws[i].startedAt));
      i := i + 1;
    }
    assert ws[..i] == ws;
  }

  /**
   * The streak as intended: consecutive days. The newest day is today or
   * yesterday, and each further day is exactly the day before the previous.
   */
  function ConsecutiveStreak(ds: seq<int>, check: int): (n: nat)
    ensures n <= |ds|
  {
    if ds == [] then 0
    else if check - ds[0] == 0 || check - ds[0] == 1 then 1 + ConsecutiveRun(ds[1..], ds[0] - 1)
    else 0
  }

  /** How many of `ds` continue the run `expected`, `expected - 1`, … exactly. */
  function ConsecutiveRun(ds: seq<int>, expected: int): (n: nat)
    ensures n <= |ds|
  {
    if ds != [] && ds[0] == expected then 1 + ConsecutiveRun(ds[1..], expected - 1) else 0
  }

  /** A consecutive run of `k` days starting at `first` occupies the days `first`, `first - 1`, …, `first - k + 1`. */
  lemma {:induction false} ConsecutiveRunDays(ds: seq<int>, expected: int)
    ensures forall j :: 0 <= j < ConsecutiveRun(ds, expected) ==> ds[j] == expected - j
    ensures ConsecutiveRun(ds, expected) < |ds| ==> ds[ConsecutiveRun(ds, expected)] != expected - ConsecutiveRun(ds, expected)
  {
    if ds != [] && ds[0] == expected {
      ConsecutiveRunDays(ds[1..], expected - 1);
      var n := ConsecutiveRun(ds, expected);
      forall j | 1 <= j < n ensures ds[j] == expected - j {
        assert ds[1..][j - 1] == ds[j];
      }
      if n < |ds| {
        assert ds[1..][n - 1] == ds[n];
      }
    }
  }

  /**
   * The intended streak counts days with no gap: a streak of `n` covers the
   * `n` calendar days ending at the newest, which is today or yesterday.
   */
  lemma ConsecutiveStreakHasNoGaps(ds: seq<int>, check: int)
    ensures var n := ConsecutiveStreak(ds, check);
      n > 0 ==> (ds[0] == check || ds[0] == check - 1) && forall j :: 0 <= j < n ==> ds[j] == ds[0] - j
  {
    if ds != [] && (check - ds[0] == 0 || check - ds[0] == 1) {
      ConsecutiveRunDays(ds[1..], ds[0] - 1);
      forall j | 1 <= j < ConsecutiveStreak(ds, check) ensures ds[j] == ds[0] - j {
        assert ds[1..][j - 1] == ds[j];
      }
    }
  }

  /** On strictly descending days the intended streak never exceeds the one written. */
  lemma {:induction false} ConsecutiveAtMostAsWritten(ds: seq<int>, check: int)
    requires StrictlyDescending(ds)
    ensures ConsecutiveStreak(ds, check) <= StreakAsWritten(ds, check)
  {
    if ds != [] && (check - ds[0] == 0 || check - ds[0] == 1) {
      RunAtMostAsWritten(ds[1..], ds[0] - 1);
    }
  }

  lemma {:induction false} RunAtMostAsWritten(ds: seq<int>, expected: int)
    ensures ConsecutiveRun(ds, expected) <= StreakAsWritten(ds, expected)
  {
    if ds != [] && ds[0] == expected {
      RunAtMostAsWritten(ds[1..], expected - 1);
    }
  }

  /** As written, a workout today and one two days ago make a streak of 2, though yesterday had none. */
  lemma StreakBridgesOneDayGap(today: int)
    ensures StreakAsWritten([today, today - 2], today) == 2
    ensures ConsecutiveStreak([today, today - 2], today) == 1
  {
    assert [today, today - 2][1..] == [today - 2];
    assert [today - 2][1..] == [];
  }
  // ---------------------------------------------------------------- per-day breakdown

  /** One day of `getWeeklyData` (before rounding): minutes, distance and workouts of that day. */
  datatype DataPoint = DataPoint(day: int, durationMinutes: real, distance: real, workoutCount: nat)

  /** The point of day `d`, accumulated over `ws` as the grouping loop does. */
  function PointOf(ws: seq<WorkoutSummary>, d: int): (p: DataPoint)
    ensures p.day == d && p.workoutCount <= |ws|
  {
    if ws == [] then DataPoint(d, 0.0, 0.0, 0)
    else
      var p := PointOf(ws[..|ws| - 1], d);
      var w := ws[|ws| - 1];
      if DayOf(w.startedAt) == d then
        DataPoint(d, p.durationMinutes + w.durationSeconds as real / 60.0, p.distance + CountedDistance(w),
                  p.workoutCount + 1)
      else p
  }

  /** A day without workouts has an empty point. */
  lemma {:induction false} PointOfAbsentDay(ws: seq<WorkoutSummary>, d: int)
    requires d !in DaySet(ws)
    ensures PointOf(ws, d) == DataPoint(d, 0.0, 0.0, 0)
  {
    if ws != [] {
      var init := ws[..|ws| - 1];
      assert d !in DaySet(init) by {
        forall i | 0 <= i < |init| ensures DayOf(init[i].startedAt) != d {
          assert init[i] == ws[i];
        }
      }
      PointOfAbsentDay(init, d);
    }
  }

  predicate AscendingDays(ps: seq<DataPoint>) {
    forall i, j :: 0 <= i < j < |ps| ==> ps[i].day < ps[j].day
  }

  /** `ps` with `p` inserted by day, for a day not yet present. */
  function InsertByDay(ps: seq<DataPoint>, p: DataPoint): (r: seq<DataPoint>)
    requires AscendingDays(ps)
    requires forall i :: 0 <= i < |ps| ==> ps[i].day != p.day
    ensures AscendingDays(r) && |r| == |ps| + 1
    ensures forall q :: q in r <==> q in ps || q == p
  {
    if ps == [] then [p]
    else if p.day < ps[0].day then [p] + ps
    else
      var rest := InsertByDay(ps[1..], p);
      assert forall q :: q in rest ==> q.day > ps[0].day;
      [ps[0]] + rest
  }

  /** Sum of the workout counts of the points. */
  function CountSum(ps: seq<DataPoint>): nat {
    if ps == [] then 0 else CountSum(ps[..|ps| - 1]) + ps[|ps| - 1].workoutCount
  }

  /** Sum over the days `ds` of the workouts `ws` has on each. */
  function DayCountSum(ws: seq<WorkoutSummary>, ds: seq<int>): nat {
    if ds == [] then 0 else DayCountSum(ws, ds[..|ds| - 1]) + PointOf(ws, ds[|ds| - 1]).workoutCount
  }

  /** How many times `d` occurs in `ds`. */
  function Occurrences(ds: seq<int>, d: int): nat {
    if ds == [] then 0 else Occurrences(ds[..|ds| - 1], d) + if ds[|ds| - 1] == d then 1 else 0
  }

  lemma {:induction false} DayCountSumStep(ws: seq<WorkoutSummary>, w: WorkoutSummary, ds: seq<int>)
    ensures DayCountSum(ws + [w], ds) == DayCountSum(ws, ds) + Occurrences(ds, DayOf(w.startedAt))
  {
    assert (ws + [w])[..|ws|] == ws;
    if ds != [] {
      DayCountSumStep(ws, w, ds[..|ds| - 1]);
    }
  }

  lemma {:induction false} OccursOnce(ds: seq<int>, d: int)
    requires forall i, j :: 0 <= i < j < |ds| ==> ds[i] != ds[j]
    requires d in ds
    ensures Occurrences(ds, d) == 1
  {
    var init := ds[..|ds| - 1];
    if ds[|ds| - 1] == d {
      OccursNot(init, d);
    } else {
      assert d in init;
      OccursOnce(init, d);
    }
  }

  lemma {:induction false} OccursNot(ds: seq<int>, d: int)
    requires d !in ds
    ensures Occurrences(ds, d) == 0
  {
    if ds != [] {
      OccursNot(ds[..|ds| - 1], d);
    }
  }

  /** Summed over distinct days that include every workout day, the day counts give the number of workouts. */
  lemma {:induction false} DayCountsCoverAll(ws: seq<WorkoutSummary>, ds: seq<int>)
    requires forall i, j :: 0 <= i < j < |ds| ==> ds[i] != ds[j]
    requires forall d :: d in DaySet(ws) ==> d in ds
    ensures DayCountSum(ws, ds) == |ws|
  {
    if ws == [] {
      EmptyDayCounts(ds);
    } else {
      var init, w := ws[..|ws| - 1], ws[|ws| - 1];
      assert init + [w] == ws;
      forall d | d in DaySet(init) ensures d in ds {
        var i :| 0 <= i < |init| && DayOf(init[i].startedAt) == d;
        assert ws[i] == init[i];
        assert d in DaySet(ws);
      }
      DayCountsCoverAll(init, ds);
      DayCountSumStep(init, w, ds);
      assert DayOf(w.startedAt) in DaySet(ws);
      OccursOnce(ds, DayOf(w.startedAt));
    }
  }

  lemma {:induction false} EmptyDayCounts(ds: seq<int>)
    ensures DayCountSum([], ds) == 0
  {
    if ds != [] {
      EmptyDayCounts(ds[..|ds| - 1]);
    }
  }

  /** The days of the points. */
  function Days(ps: seq<DataPoint>): (ds: seq<int>)
    ensures |ds| == |ps| && forall i :: 0 <= i < |ps| ==> ds[i] == ps[i].day
  {
    if ps == [] then [] else Days(ps[..|ps| - 1]) + [ps[|ps| - 1].day]
  }

  lemma {:induction false} CountSumOfPoints(ws: seq<WorkoutSummary>, ps: seq<DataPoint>)
    requires forall i :: 0 <= i < |ps| ==> ps[i] == PointOf(ws, ps[i].day)
    ensures CountSum(ps) == DayCountSum(ws, Days(ps))
  {
    if ps != [] {
      CountSumOfPoints(ws, ps[..|ps| - 1]);
      assert Days(ps)[..|ps| - 1] == Days(ps[..|ps| - 1]);
    }
  }

  /** The result of `getWeeklyData`: one point per workout day, in date order, each with that day's totals. */
  ghost predicate GroupsByDay(ws: seq<WorkoutSummary>, ps: seq<DataPoint>) {
    && AscendingDays(ps)
    && (forall i :: 0 <= i < |ps| ==> ps[i] == PointOf(ws, ps[i].day) && ps[i].day in DaySet(ws))
    && (forall d :: d in DaySet(ws) ==> d in Days(ps))
  }

  /** The workout counts of the breakdown add up to the number of workouts in the range. */
  lemma BreakdownCountsAllWorkouts(ws: seq<WorkoutSummary>, ps: seq<DataPoint>)
    requires GroupsByDay(ws, ps)
    ensures CountSum(ps) == |ws|
  {
    var ds := Days(ps);
    CountSumOfPoints(ws, ps);
    DayCountsCoverAll(ws, ds);
  }

  lemma DaySetStep(ws: seq<WorkoutSummary>, i: nat)
    requires i < |ws|
    ensures DaySet(ws[..i + 1]) == DaySet(ws[..i]) + {DayOf(ws[i].startedAt)}
  {
    var a, b := ws[..i], ws[..i + 1];
    forall d | d in DaySet(b) ensures d in DaySet(a) + {DayOf(ws[i].startedAt)} {
      var k :| 0 <= k < i + 1 && DayOf(b[k].startedAt) == d;
      if k < i {
        assert b[k] == a[k];
      }
    }
    forall d | d in DaySet(a) ensures d in DaySet(b) {
      var k :| 0 <= k < i && DayOf(a[k].startedAt) == d;
      assert b[k] == a[k];
    }
  }

  /** Inserting a point adds exactly its day to the days listed. */
  lemma DaysOfInsert(ps: seq<DataPoint>, p: DataPoint)
    requires AscendingDays(ps)
    requires forall i :: 0 <= i < |ps| ==> ps[i].day != p.day
    ensures forall d :: d in Days(InsertByDay(ps, p)) <==> d in Days(ps) || d == p.day
  {
    var next := InsertByDay(ps, p);
    forall d ensures d in Days(next) <==> d in Days(ps) || d == p.day {
      if d in Days(next) {
        var k :| 0 <= k < |next| && Days(next)[k] == d;
        assert next[k] in ps || next[k] == p;
        if next[k] in ps {
          var m :| 0 <= m < |ps| && ps[m] == next[k];
          assert Days(ps)[m] == d;
        }
      }
      if d == p.day {
        assert p in next;
        var k :| 0 <= k < |next| && next[k] == p;
        assert Days(next)[k] == d;
      } else if d in Days(ps) {
        var m :| 0 <= m < |ps| && Days(ps)[m] == d;
        assert ps[m] in next;
        var k :| 0 <= k < |next| && next[k] == ps[m];
        assert Days(next)[k] == d;
      }
    }
  }

  /** The grouping loop: each workout day's point, keyed by day, and the days in first-seen order. */
  method GroupByDay(ws: seq<WorkoutSummary>) returns (dataByDate: map<int, DataPoint>, order: seq<int>)
    ensures dataByDate.Keys == DaySet(ws)
    ensures forall d :: d in dataByDate ==> dataByDate[d] == PointOf(ws, d)
    ensures forall d :: d in order <==> d in dataByDate
    ensures forall a, b :: 0 <= a < b < |order| ==> order[a] != order[b]
  {
    dataByDate, order := map[], [];
    var i := 0;
    while i < |ws|
      invariant 0 <= i <= |ws|
      invariant dataByDate.Keys == DaySet(ws[..i])
      invariant forall d :: d in dataByDate ==> dataByDate[d] == PointOf(ws[..i], d)
      invariant forall d :: d in order <==> d in dataByDate
      invariant forall a, b :: 0 <= a < b < |order| ==> order[a] != order[b]
    {
      var workout := ws[i];
      var dateKey := DayOf(workout.startedAt);
      assert ws[..i + 1][..i] == ws[..i];
      DaySetStep(ws, i);
      if dateKey !in dataByDate {
        PointOfAbsentDay(ws[..i], dateKey);
        dataByDate := dataByDate[dateKey := DataPoint(dateKey, 0.0, 0.0, 0)];
        order := order + [dateKey];
      }
      var entry := dataByDate[dateKey];
      entry := entry.(durationMinutes := entry.durationMinutes + workout.durationSeconds as real / 60.0,
                      workoutCount := entry.workoutCount + 1);
      if workout.kind == Treadmill && workout.distanceKm.Some? && workout.distanceKm.value != 0.0 {
        entry := entry.(distance := entry.distance + workout.distanceKm.value);
      }
      dataByDate := dataByDate[dateKey := entry];
      i := i + 1;
    }
    assert ws[..i] == ws;
  }

  /**
   * `getWeeklyData` after the range query: group the workouts by day in a
   * map, accumulating each day's minutes, distance and count, then list the
   * days in date order.
   */
  method GetWeeklyData(ws: seq<WorkoutSummary>) returns (points: seq<DataPoint>)
    ensures GroupsByDay(ws, points)
  {
    var dataByDate, order := GroupByDay(ws);
    points := [];
    var j := 0;
    while j < |order|
      invariant 0 <= j <= |order|
      invariant AscendingDays(points)
      invariant forall k :: 0 <= k < |points| ==> points[k].day in dataByDate && points[k] == dataByDate[points[k].day]
      invariant forall d :: d in Days(points) <==> d in order[..j]
    {
      assert order[j] in order;
      var p := dataByDate[order[j]];
      forall k | 0 <= k < |points| ensures points[k].day != p.day {
        assert Days(points)[k] == points[k].day;
        assert points[k].day in order[..j];
        var a :| 0 <= a < j && order[..j][a] == points[k].day;
        assert order[a] != order[j];
      }
      DaysOfInsert(points, p);
      var next := InsertByDay(points, p);
      assert order[..j + 1] == order[..j] + [order[j]];
      forall k | 0 <= k < |next| ensures next[k].day in dataByDate && next[k] == dataByDate[next[k].day] {
        assert next[k] in points || next[k] == p;
      }
      points := next;
      j := j + 1;
    }
    assert order[..j] == order;
  }
}
