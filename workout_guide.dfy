/**
 * The guided strength workout (`WorkoutGuide`): it walks through the
 * exercises of a plan set by set, marks each completed set, runs a rest
 * countdown between sets and a workout clock, and on the last set of the
 * last exercise reports the sets performed. The one-second timer interval
 * is modelled as explicit `Tick` calls.
 */
module WorkoutGuide {
  import opened Common
  import opened Decimal
  import opened Workouts
  import opened PlanExercises
  import WorkoutTimer

  /** The component's state object. */
  datatype ExerciseState = ExerciseState(
    currentIndex: int,
    currentSet: int,
    completedSets: seq<seq<bool>>,
    timerRunning: bool,
    timerSeconds: int,
    restMode: bool,
    restSeconds: int)

  /** The state the guide opens in: first set of the first exercise, nothing completed, clocks stopped. */
  function InitialState(exercises: seq<PlanExercise>): (s: ExerciseState)
    ensures s.currentIndex == 0 && s.currentSet == 0
    ensures !s.timerRunning && s.timerSeconds == 0 && !s.restMode && s.restSeconds == 0
    ensures |s.completedSets| == |exercises|
    ensures forall i :: 0 <= i < |exercises| ==>
      |s.completedSets[i]| == exercises[i].sets && forall j :: 0 <= j < |s.completedSets[i]| ==> !s.completedSets[i][j]
  {
    ExerciseState(0, 0, seq(|exercises|, i requires 0 <= i < |exercises| => seq(exercises[i].sets, _ => false)),
                  false, 0, false, 0)
  }

  /**
   * The states the component can render: a current exercise exists, one row
   * of marks per exercise with a cell for every set, and a current set that
   * is either the first or one the exercise has.
   */
  predicate WellFormed(exercises: seq<PlanExercise>, s: ExerciseState) {
    && |exercises| > 0
    && 0 <= s.currentIndex < |exercises|
    && |s.completedSets| == |exercises|
    && (forall i :: 0 <= i < |exercises| ==> |s.completedSets[i]| >= exercises[i].sets)
    && 0 <= s.currentSet
    && (s.currentSet == 0 || s.currentSet < exercises[s.currentIndex].sets)
  }

  lemma InitialIsWellFormed(exercises: seq<PlanExercise>)
    requires |exercises| > 0
    ensures WellFormed(exercises, InitialState(exercises))
  {
  }

  /** `ex.restSeconds || 60`: the exercise's rest, or a minute when it has none. */
  function RestFor(ex: PlanExercise): (r: int)
    ensures r != 0
    ensures ex.restSeconds == 0 ==> r == 60
    ensures ex.restSeconds != 0 ==> r == ex.restSeconds
  {
    if ex.restSeconds == 0 then 60 else ex.restSeconds
  }

  /**
   * `completedSets[i][j] = true` on rows with at least `j` cells: the cell
   * is set (appended when `j` is one past the end) and no other cell changes.
   */
  function Mark(rows: seq<seq<bool>>, i: int, j: int): (r: seq<seq<bool>>)
    requires 0 <= i < |rows| && 0 <= j <= |rows[i]|
    ensures |r| == |rows| && forall k :: 0 <= k < |rows| && k != i ==> r[k] == rows[k]
    ensures |r[i]| == if j < |rows[i]| then |rows[i]| else j + 1
    ensures r[i][j] && forall k :: 0 <= k < |rows[i]| && k != j ==> r[i][k] == rows[i][k]
  {
    rows[i := if j < |rows[i]| then rows[i][j := true] else rows[i] + [true]]
  }

  /** Whether `completeSet` in state `s` is the last set of the last exercise. */
  predicate Finishes(exercises: seq<PlanExercise>, s: ExerciseState)
    requires WellFormed(exercises, s)
  {
    !(s.currentSet < exercises[s.currentIndex].sets - 1) && !(s.currentIndex < |exercises| - 1)
  }

  /**
   * The state after `completeSet`. The current cell is marked in place in
   * every case, also when the workout finishes and no new state is set,
   * because the copied outer array shares its rows with the old state.
   * With sets left: next set, rest of the exercise's length started. On the
   * last set of an exercise that is not the last: next exercise, first set,
   * rest and timers stopped and the workout clock cleared.
   */
  function AfterComplete(exercises: seq<PlanExercise>, s: ExerciseState): (r: ExerciseState)
    requires WellFormed(exercises, s)
  {
    var marked := Mark(s.completedSets, s.currentIndex, s.currentSet);
    var ex := exercises[s.currentIndex];
    if s.currentSet < ex.sets - 1 then
      s.(completedSets := marked, currentSet := s.currentSet + 1, restMode := true,
         restSeconds := RestFor(ex), timerRunning := true)
    else if s.currentIndex < |exercises| - 1 then
      s.(completedSets := marked, currentIndex := s.currentIndex + 1, currentSet := 0,
         restMode := false, timerRunning := false, timerSeconds := 0)
    else
      s.(completedSets := marked)
  }

  /** `completeSet` keeps the state renderable and marks exactly the current cell. */
  lemma CompleteKeepsWellFormed(exercises: seq<PlanExercise>, s: ExerciseState)
    requires WellFormed(exercises, s)
    ensures WellFormed(exercises, AfterComplete(exercises, s))
    ensures AfterComplete(exercises, s).completedSets == Mark(s.completedSets, s.currentIndex, s.currentSet)
  {
  }

  /** `(exercise, set)` positions in the order the guide visits them. */
  predicate Before(i: int, j: int, i': int, j': int) {
    i < i' || (i == i' && j < j')
  }

  /** Unless it finishes the workout, `completeSet` always moves forward. */
  lemma CompleteMovesForward(exercises: seq<PlanExercise>, s: ExerciseState)
    requires WellFormed(exercises, s) && !Finishes(exercises, s)
    ensures var r := AfterComplete(exercises, s); Before(s.currentIndex, s.currentSet, r.currentIndex, r.currentSet)
  {
  }

  /**
   * Every set before the current position is marked: all sets of the earlier
   * exercises and the earlier sets of the current one.
   */
  predicate MarkedUpTo(exercises: seq<PlanExercise>, s: ExerciseState)
    requires WellFormed(exercises, s)
  {
    forall i, j :: 0 <= i < |exercises| && 0 <= j < exercises[i].sets && Before(i, j, s.currentIndex, s.currentSet) ==>
      s.completedSets[i][j]
  }

  /** `completeSet` keeps every set behind the current position marked. */
  lemma CompleteKeepsMarkedUpTo(exercises: seq<PlanExercise>, s: ExerciseState)
    requires WellFormed(exercises, s) && MarkedUpTo(exercises, s)
    ensures MarkedUpTo(exercises, AfterComplete(exercises, s))
  {
    var r := AfterComplete(exercises, s);
    forall i, j | 0 <= i < |exercises| && 0 <= j < exercises[i].sets && Before(i, j, r.currentIndex, r.currentSet)
      ensures r.completedSets[i][j]
    {
      if !(i == s.currentIndex && j == s.currentSet) {
        assert Before(i, j, s.currentIndex, s.currentSet);
      }
    }
  }

  /**
   * `finishWorkout`: for each exercise, in plan order, exactly `ex.sets`
   * sets with the plan's rep count, the weight logged for that set if any,
   * and `completed` true exactly where the set was marked.
   */
  function FinishedLogs(exercises: seq<PlanExercise>, rows: seq<seq<bool>>, weights: map<(int, int), real>)
    : (r: seq<ExerciseLog>)
    ensures |r| == |exercises|
    ensures forall k :: 0 <= k < |r| ==>
      && r[k].exerciseId == exercises[k].exerciseId && r[k].exerciseName == exercises[k].exerciseName
      && |r[k].sets| == exercises[k].sets
    ensures forall k, j :: 0 <= k < |r| && 0 <= j < |r[k].sets| ==>
      && r[k].sets[j].reps == RepsOf(exercises[k].reps)
      && (r[k].sets[j].weightKg.Some? <==> (k, j) in weights)
      && ((k, j) in weights ==> r[k].sets[j].weightKg.value == weights[(k, j)])
      && (r[k].sets[j].completed <==> k < |rows| && j < |rows[k]| && rows[k][j])
  {
    seq(|exercises|, k requires 0 <= k < |exercises| =>
      var ex := exercises[k];
      ExerciseLog(ex.exerciseId, ex.exerciseName,
        seq(ex.sets, j requires 0 <= j < ex.sets =>
          SetLog(RepsOf(ex.reps),
                 if (k, j) in weights then Some(weights[(k, j)]) else None,
                 k < |rows| && j < |rows[k]| && rows[k][j]))))
  }

  /**
   * Pressing only "Complete Set", from the opening state to the end, reports
   * every set of every exercise as completed.
   */
  lemma FinishAfterEverySetReportsAllCompleted(
    exercises: seq<PlanExercise>, s: ExerciseState, weights: map<(int, int), real>)
    requires WellFormed(exercises, s) && MarkedUpTo(exercises, s) && Finishes(exercises, s)
    ensures var logs := FinishedLogs(exercises, AfterComplete(exercises, s).completedSets, weights);
      forall k, j :: 0 <= k < |logs| && 0 <= j < |logs[k].sets| ==> logs[k].sets[j].completed
  {
    var r := AfterComplete(exercises, s);
    forall k, j | 0 <= k < |exercises| && 0 <= j < exercises[k].sets
      ensures r.completedSets[k][j]
    {
      if !(k == s.currentIndex && j == s.currentSet) {
        assert Before(k, j, s.currentIndex, s.currentSet);
      }
    }
  }

  /** One second of the interval while the timer runs: the rest counts down, otherwise the workout clock counts up. */
  function Ticked(s: ExerciseState): ExerciseState {
    if s.restMode then
      if s.restSeconds <= 1 then s.(restMode := false, timerRunning := false, restSeconds := 0)
      else s.(restSeconds := s.restSeconds - 1)
    else s.(timerSeconds := s.timerSeconds + 1)
  }

  /** A second passing: the interval exists only while the timer runs. */
  function SecondPasses(s: ExerciseState): ExerciseState {
    if s.timerRunning then Ticked(s) else s
  }

  /** `n` seconds passing. */
  function SecondsPass(s: ExerciseState, n: nat): ExerciseState {
    if n == 0 then s else SecondPasses(SecondsPass(s, n - 1))
  }

  /** During a rest of `r` seconds, each of the first `r - 1` seconds takes one off. */
  lemma {:induction false} RestCountsDown(s: ExerciseState, k: nat)
    requires s.timerRunning && s.restMode && k < s.restSeconds
    ensures SecondsPass(s, k) == s.(restSeconds := s.restSeconds - k)
  {
    if k > 0 {
      RestCountsDown(s, k - 1);
    }
  }

  /**
   * A rest of `r >= 1` seconds ends after exactly `r` seconds, with the timer
   * stopped, so the workout clock does not resume by itself; it did not
   * advance during the rest.
   */
  lemma RestEndsOnTime(s: ExerciseState)
    requires s.timerRunning && s.restMode && s.restSeconds >= 1
    ensures SecondsPass(s, s.restSeconds) == s.(restMode := false, timerRunning := false, restSeconds := 0)
    ensures SecondPasses(SecondsPass(s, s.restSeconds)) == SecondsPass(s, s.restSeconds)
  {
    RestCountsDown(s, s.restSeconds - 1);
  }

  /** Outside a rest, the running workout clock gains one second per second. */
  lemma {:induction false} ClockCountsUp(s: ExerciseState, k: nat)
    requires s.timerRunning && !s.restMode
    ensures SecondsPass(s, k) == s.(timerSeconds := s.timerSeconds + k)
  {
    if k > 0 {
      ClockCountsUp(s, k - 1);
    }
  }

  /** `previousExercise`: one exercise back, unless at the first; back to its first set, rest and timer stopped. */
  function Previous(s: ExerciseState): (r: ExerciseState)
    ensures s.currentIndex > 0 ==> r.currentIndex == s.currentIndex - 1 && r.currentSet == 0 && !r.restMode && !r.timerRunning
    ensures s.currentIndex <= 0 ==> r == s
    ensures r.completedSets == s.completedSets && r.timerSeconds == s.timerSeconds
  {
    if s.currentIndex > 0 then
      s.(currentIndex := s.currentIndex - 1, currentSet := 0, restMode := false, timerRunning := false)
    else s
  }

  /** `nextExercise`: one exercise on, unless at the last; first set, rest and timer stopped. */
  function Next(s: ExerciseState, count: nat): (r: ExerciseState)
    ensures s.currentIndex < count - 1 ==> r.currentIndex == s.currentIndex + 1 && r.currentSet == 0 && !r.restMode && !r.timerRunning
    ensures s.currentIndex >= count - 1 ==> r == s
    ensures r.completedSets == s.completedSets && r.timerSeconds == s.timerSeconds
  {
    if s.currentIndex < count - 1 then
      s.(currentIndex := s.currentIndex + 1, currentSet := 0, restMode := false, timerRunning := false)
    else s
  }

  /** Navigation never leaves the list of exercises. */
  lemma NavigationKeepsWellFormed(exercises: seq<PlanExercise>, s: ExerciseState)
    requires WellFormed(exercises, s)
    ensures WellFormed(exercises, Previous(s)) && WellFormed(exercises, Next(s, |exercises|))
  {
  }

  /** Going on and then back returns to the same exercise, at its first set, with the timer stopped. */
  lemma NextThenPrevious(exercises: seq<PlanExercise>, s: ExerciseState)
    requires WellFormed(exercises, s) && s.currentIndex < |exercises| - 1
    ensures Previous(Next(s, |exercises|)) == s.(currentSet := 0, restMode := false, timerRunning := false)
  {
  }

  /** `formatTime` of the guide: minutes without padding, seconds as two digits. */
  function FormatTime(seconds: nat): string {
    NatToString(seconds / 60) + ":" + Pad2(NatToString(seconds % 60))
  }

  /** The printed minutes and seconds read back as the number formatted, seconds below 60. */
  lemma FormatTimeReadsBack(seconds: nat)
    ensures var t := FormatTime(seconds);
      && |t| >= 4 && t[|t| - 3] == ':'
      && AllDigits(t[..|t| - 3]) && AllDigits(t[|t| - 2..])
      && Value(t[|t| - 2..]) < 60
      && Value(t[..|t| - 3]) * 60 + Value(t[|t| - 2..]) == seconds
  {
    var m, s := NatToString(seconds / 60), Pad2(NatToString(seconds % 60));
    NatToStringValue(seconds / 60);
    TwoDigits(seconds % 60);
    var t := FormatTime(seconds);
    assert t == m + ":" + s;
    assert t[..|t| - 3] == m && t[|t| - 2..] == s;
  }

  /**
   * The guide's clock and the stopwatch's print the same text from ten
   * minutes on; below that the guide prints one minute digit where the
   * stopwatch pads to two.
   */
  lemma FormatTimeAgainstStopwatch(seconds: nat)
    ensures seconds >= 600 ==> FormatTime(seconds) == WorkoutTimer.FormatTime(seconds)
    ensures seconds < 600 ==> "0" + FormatTime(seconds) == WorkoutTimer.FormatTime(seconds)
  {
    if seconds < 600 {
      assert Pad2(NatToString(seconds / 60)) == "0" + NatToString(seconds / 60);
    }
  }

  /**
   * The "Finish Workout" button is shown on the last exercise once as many of
   * its set cells are marked as it has sets.
   */
  predicate FinishShown(exercises: seq<PlanExercise>, s: ExerciseState)
    requires WellFormed(exercises, s)
  {
    s.currentIndex == |exercises| - 1
    && CountWhere(s.completedSets[s.currentIndex], (b: bool) => b) == exercises[s.currentIndex].sets
  }

  /** A row whose every cell is marked counts all its cells. */
  lemma {:induction false} AllMarkedCountsAll(row: seq<bool>)
    requires forall j :: 0 <= j < |row| ==> row[j]
    ensures CountWhere(row, (b: bool) => b) == |row|
  {
    if row != [] {
      AllMarkedCountsAll(row[..|row| - 1]);
    }
  }

  /**
   * On the last exercise, once every one of its sets is marked (and no cell
   * beyond them), the "Finish Workout" button is shown.
   */
  lemma FinishShownWhenLastRowComplete(exercises: seq<PlanExercise>, s: ExerciseState)
    requires WellFormed(exercises, s) && s.currentIndex == |exercises| - 1
    requires |s.completedSets[s.currentIndex]| == exercises[s.currentIndex].sets
    requires forall j :: 0 <= j < exercises[s.currentIndex].sets ==> s.completedSets[s.currentIndex][j]
    ensures FinishShown(exercises, s)
  {
    AllMarkedCountsAll(s.completedSets[s.currentIndex]);
  }

  /** The guided workout: the plan's exercises, the component state and the weights typed in per set. */
  class Guide {
    const exercises: seq<PlanExercise>
    var state: ExerciseState
    /** `loggedWeights`, keyed by `${exIndex}-${setIndex}`, here the pair itself. */
    var loggedWeights: map<(int, int), real>

    ghost predicate Valid()
      reads this
    {
      WellFormed(exercises, state)
    }

    /** The guide opens on a plan with at least one exercise; with none there is no current exercise to render. */
    constructor (exercises: seq<PlanExercise>)
      requires |exercises| > 0
      ensures Valid() && this.exercises == exercises
      ensures state == InitialState(exercises) && loggedWeights == map[]
    {
      this.exercises := exercises;
      state := InitialState(exercises);
      loggedWeights := map[];
    }

    /**
     * `completeSet`: marks the current set and moves on; on the last set of
     * the last exercise it returns what `finishWorkout` reports.
     */
    method CompleteSet() returns (finished: Option<seq<ExerciseLog>>)
      requires Valid()
      modifies this
      ensures Valid()
      ensures state == AfterComplete(exercises, old(state)) && loggedWeights == old(loggedWeights)
      ensures finished.Some? <==> Finishes(exercises, old(state))
      ensures finished.Some? ==> finished.value == FinishedLogs(exercises, state.completedSets, loggedWeights)
    {
      var newCompletedSets := Mark(state.completedSets, state.currentIndex, state.currentSet);
      state := state.(completedSets := newCompletedSets);
      var currentExercise := exercises[state.currentIndex];
      if state.currentSet < currentExercise.sets - 1 {
        state := state.(currentSet := state.currentSet + 1, restMode := true,
                        restSeconds := RestFor(currentExercise), timerRunning := true);
        finished := None;
      } else if state.currentIndex < |exercises| - 1 {
        state := state.(currentIndex := state.currentIndex + 1, currentSet := 0,
                        restMode := false, timerRunning := false, timerSeconds := 0);
        finished := None;
      } else {
        finished := Some(FinishedLogs(exercises, newCompletedSets, loggedWeights));
      }
    }

    /**
     * The "Finish Workout" button: while it is shown, pressing it reports
     * what `finishWorkout` reports for the marks as they stand; otherwise
     * there is no button to press. The guide's state is not changed.
     */
    method Finish() returns (finished: Option<seq<ExerciseLog>>)
      requires Valid()
      ensures finished.Some? <==> FinishShown(exercises, state)
      ensures finished.Some? ==> finished.value == FinishedLogs(exercises, state.completedSets, loggedWeights)
    {
      if state.currentIndex == |exercises| - 1
         && CountWhere(state.completedSets[state.currentIndex], (b: bool) => b) == exercises[state.currentIndex].sets
      {
        finished := Some(FinishedLogs(exercises, state.completedSets, loggedWeights));
      } else {
        finished := None;
      }
    }

    /** One second of the timer interval. */
    method Tick()
      requires Valid()
      modifies this
      ensures Valid() && state == SecondPasses(old(state)) && loggedWeights == old(loggedWeights)
    {
      if state.timerRunning {
        state := Ticked(state);
      }
    }

    /** `toggleTimer`. */
    method ToggleTimer()
      requires Valid()
      modifies this
      ensures Valid() && state == old(state).(timerRunning := !old(state).timerRunning)
      ensures loggedWeights == old(loggedWeights)
    {
      state := state.(timerRunning := !state.timerRunning);
    }

    /** `resetTimer`: the workout clock back to zero and stopped. */
    method ResetTimer()
      requires Valid()
      modifies this
      ensures Valid() && state == old(state).(timerSeconds := 0, timerRunning := false)
      ensures loggedWeights == old(loggedWeights)
    {
      state := state.(timerSeconds := 0, timerRunning := false);
    }

    /** `startRest`: a rest of the current exercise's length, with the timer running. */
    method StartRest()
      requires Valid()
      modifies this
      ensures Valid()
      ensures state == old(state).(restMode := true, restSeconds := RestFor(exercises[old(state).currentIndex]), timerRunning := true)
      ensures loggedWeights == old(loggedWeights)
    {
      var restTime := RestFor(exercises[state.currentIndex]);
      state := state.(restMode := true, restSeconds := restTime, timerRunning := true);
    }

    /** "Skip Rest": rest over and timer stopped, the countdown left where it was. */
    method SkipRest()
      requires Valid()
      modifies this
      ensures Valid() && state == old(state).(restMode := false, timerRunning := false)
      ensures loggedWeights == old(loggedWeights)
    {
      state := state.(restMode := false, timerRunning := false);
    }

    /** `previousExercise`. */
    method PreviousExercise()
      requires Valid()
      modifies this
      ensures Valid() && state == Previous(old(state)) && loggedWeights == old(loggedWeights)
    {
      if state.currentIndex > 0 {
        state := state.(currentIndex := state.currentIndex - 1, currentSet := 0, restMode := false, timerRunning := false);
      }
    }

    /** `nextExercise`. */
    method NextExercise()
      requires Valid()
      modifies this
      ensures Valid() && state == Next(old(state), |exercises|) && loggedWeights == old(loggedWeights)
    {
      if state.currentIndex < |exercises| - 1 {
        state := state.(currentIndex := state.currentIndex + 1, currentSet := 0, restMode := false, timerRunning := false);
      }
    }

    /**
     * The weight field of the current set: `parseFloat(value) || 0`, where
     * `parsed` is `None` for `NaN`.
     */
    method LogWeight(parsed: Option<real>)
      requires Valid()
      modifies this
      ensures Valid() && state == old(state)
      ensures loggedWeights == old(loggedWeights)[(state.currentIndex, state.currentSet) := parsed.GetOr(0.0)]
    {
      loggedWeights := loggedWeights[(state.currentIndex, state.currentSet) := parsed.GetOr(0.0)];
    }
  }
}
