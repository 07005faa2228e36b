/**
 * The strength log form (`StrengthLogForm`): the sets of each exercise of a
 * plan, edited one set at a time and submitted as exercise logs. The logs
 * are a record from exercise index to that exercise's list of sets; every
 * edit builds the next record from the previous one.
 */
module StrengthLogForm {
  import opened Common
  import opened Workouts
  import opened PlanExercises

  /** `Record<number, SetLog[]>`. */
  type Logs = map<int, seq<SetLog>>

  /** The sets an exercise opens with: `ex.sets` sets with the plan's rep count, no weight, marked completed. */
  function InitialSets(ex: PlanExercise): (r: seq<SetLog>)
    ensures |r| == ex.sets
    ensures forall j :: 0 <= j < |r| ==> r[j] == SetLog(RepsOf(ex.reps), None, true)
  {
    seq(ex.sets, _ => SetLog(RepsOf(ex.reps), None, true))
  }

  /** The logs the form opens with: one entry per exercise of the plan, holding its opening sets. */
  ghost predicate InitialFor(exercises: seq<PlanExercise>, logs: Logs) {
    && (forall idx :: idx in logs <==> 0 <= idx < |exercises|)
    && (forall idx :: 0 <= idx < |exercises| ==> logs[idx] == InitialSets(exercises[idx]))
  }

  /** The initializer: fills a fresh record exercise by exercise. */
  method InitialLogs(exercises: seq<PlanExercise>) returns (initial: Logs)
    ensures InitialFor(exercises, initial)
  {
    initial := map[];
    var idx := 0;
    while idx < |exercises|
      invariant 0 <= idx <= |exercises|
      invariant forall k :: k in initial <==> 0 <= k < idx
      invariant forall k :: 0 <= k < idx ==> initial[k] == InitialSets(exercises[k])
    {
      var ex := exercises[idx];
      var repCount := RepsOf(ex.reps);
      initial := initial[idx := seq(ex.sets, _ => SetLog(repCount, None, true))];
      idx := idx + 1;
    }
  }

  /**
   * `Partial<SetLog>`: for each field, whether the update names it and with
   * what value; a named field set to `undefined` clears it.
   */
  datatype Patch = Patch(reps: Option<Option<real>>, weightKg: Option<Option<real>>, completed: Option<bool>)

  /** `{ ...set, ...updates }` on the set `log`. */
  function Apply(log: SetLog, updates: Patch): (r: SetLog)
    ensures updates.reps.None? ==> r.reps == log.reps
    ensures updates.reps.Some? ==> r.reps == updates.reps.value
    ensures updates.weightKg.None? ==> r.weightKg == log.weightKg
    ensures updates.weightKg.Some? ==> r.weightKg == updates.weightKg.value
    ensures updates.completed.None? ==> r.completed == log.completed
    ensures updates.completed.Some? ==> r.completed == updates.completed.value
  {
    SetLog(
      match updates.reps case Some(v) => v case None => log.reps,
      match updates.weightKg case Some(v) => v case None => log.weightKg,
      match updates.completed case Some(v) => v case None => log.completed)
  }

  /** `updateSet`: the set at `setIndex` of exercise `exerciseIndex` takes the named fields of `updates`. */
  function UpdateSet(logs: Logs, exerciseIndex: int, setIndex: int, updates: Patch): (r: Logs)
    requires exerciseIndex in logs
    ensures r.Keys == logs.Keys
    ensures forall k :: k in logs && k != exerciseIndex ==> r[k] == logs[k]
    ensures |r[exerciseIndex]| == |logs[exerciseIndex]|
    ensures forall i :: 0 <= i < |logs[exerciseIndex]| ==>
      r[exerciseIndex][i] == if i == setIndex then Apply(logs[exerciseIndex][i], updates) else logs[exerciseIndex][i]
  {
    var sets := logs[exerciseIndex];
    logs[exerciseIndex := seq(|sets|, i requires 0 <= i < |sets| => if i == setIndex then Apply(sets[i], updates) else sets[i])]
  }

  /**
   * `addSet`: a copy of the exercise's last set is appended. With no set to
   * copy, the spread of `undefined` appends a set with no fields: no reps,
   * no weight, and a `completed` that reads as false.
   */
  function AddSet(logs: Logs, exerciseIndex: int): (r: Logs)
    requires exerciseIndex in logs
    ensures r.Keys == logs.Keys
    ensures forall k :: k in logs && k != exerciseIndex ==> r[k] == logs[k]
    ensures |r[exerciseIndex]| == |logs[exerciseIndex]| + 1
    ensures r[exerciseIndex][..|logs[exerciseIndex]|] == logs[exerciseIndex]
    ensures var sets := logs[exerciseIndex];
      r[exerciseIndex][|sets|] == if sets == [] then SetLog(None, None, false) else sets[|sets| - 1]
  {
    var sets := logs[exerciseIndex];
    var lastSet := if sets == [] then SetLog(None, None, false) else sets[|sets| - 1];
    logs[exerciseIndex := sets + [lastSet]]
  }

  /** `removeSet`: the sets of the exercise whose index is not `setIndex`, in order. */
  function RemoveSet(logs: Logs, exerciseIndex: int, setIndex: int): (r: Logs)
    requires exerciseIndex in logs
    ensures r.Keys == logs.Keys
    ensures forall k :: k in logs && k != exerciseIndex ==> r[k] == logs[k]
    ensures 0 <= setIndex < |logs[exerciseIndex]| ==>
      r[exerciseIndex] == logs[exerciseIndex][..setIndex] + logs[exerciseIndex][setIndex + 1..]
    ensures !(0 <= setIndex < |logs[exerciseIndex]|) ==> r == logs
  {
    var sets := logs[exerciseIndex];
    if 0 <= setIndex < |sets| then logs[exerciseIndex := sets[..setIndex] + sets[setIndex + 1..]]
    else logs
  }

  /** `toggleSetComplete`: flips `completed` of the one set at `setIndex`. */
  function ToggleSetComplete(logs: Logs, exerciseIndex: int, setIndex: int): (r: Logs)
    requires exerciseIndex in logs
  {
    UpdateSet(logs, exerciseIndex, setIndex,
              Patch(None, None, Some(!(0 <= setIndex < |logs[exerciseIndex]| && logs[exerciseIndex][setIndex].completed))))
  }

  /** `isFormValid`: every exercise of the plan has at least one set logged. */
  predicate IsFormValid(exercises: seq<PlanExercise>, logs: Logs) {
    forall idx :: 0 <= idx < |exercises| ==> idx in logs && |logs[idx]| > 0
  }

  /** The remove button is shown only while the exercise has more than one set. */
  predicate RemoveOffered(logs: Logs, exerciseIndex: int) {
    exerciseIndex in logs && |logs[exerciseIndex]| > 1
  }

  /** `handleSubmit`: the plan's exercises in order, each with its id, name and logged sets, or none. */
  function HandleSubmit(exercises: seq<PlanExercise>, logs: Logs): (r: seq<ExerciseLog>)
    ensures |r| == |exercises|
    ensures forall k :: 0 <= k < |r| ==>
      && r[k].exerciseId == exercises[k].exerciseId && r[k].exerciseName == exercises[k].exerciseName
      && r[k].sets == (if k in logs then logs[k] else [])
  {
    seq(|exercises|, k requires 0 <= k < |exercises| =>
      ExerciseLog(exercises[k].exerciseId, exercises[k].exerciseName, if k in logs then logs[k] else []))
  }

  /** The opening form can be submitted exactly when every exercise of the plan has at least one set. */
  lemma InitialValidIffEverySetCountPositive(exercises: seq<PlanExercise>, logs: Logs)
    requires InitialFor(exercises, logs)
    ensures IsFormValid(exercises, logs) <==> forall idx :: 0 <= idx < |exercises| ==> exercises[idx].sets > 0
  {
  }

  /** Removing a set where removal is offered never makes a valid form invalid. */
  lemma OfferedRemovalKeepsFormValid(exercises: seq<PlanExercise>, logs: Logs, exerciseIndex: int, setIndex: int)
    requires IsFormValid(exercises, logs) && RemoveOffered(logs, exerciseIndex)
    ensures IsFormValid(exercises, RemoveSet(logs, exerciseIndex, setIndex))
  {
    var r := RemoveSet(logs, exerciseIndex, setIndex);
    forall idx | 0 <= idx < |exercises|
      ensures idx in r && |r[idx]| > 0
    {
      if idx == exerciseIndex && 0 <= setIndex < |logs[exerciseIndex]| {
        assert |r[idx]| == |logs[idx]| - 1;
      }
    }
  }

  /** Adding a set and removing the new last one restores the logs. */
  lemma RemoveUndoesAdd(logs: Logs, exerciseIndex: int)
    requires exerciseIndex in logs
    ensures RemoveSet(AddSet(logs, exerciseIndex), exerciseIndex, |logs[exerciseIndex]|) == logs
  {
    var sets := logs[exerciseIndex];
    var added := AddSet(logs, exerciseIndex);
    assert added[exerciseIndex][..|sets|] + added[exerciseIndex][|sets| + 1..] == sets;
  }

  /** Toggling the same set twice restores the logs. */
  lemma ToggleTwiceRestores(logs: Logs, exerciseIndex: int, setIndex: int)
    requires exerciseIndex in logs
    ensures ToggleSetComplete(ToggleSetComplete(logs, exerciseIndex, setIndex), exerciseIndex, setIndex) == logs
  {
    var once := ToggleSetComplete(logs, exerciseIndex, setIndex);
    var twice := ToggleSetComplete(once, exerciseIndex, setIndex);
    assert twice[exerciseIndex] == logs[exerciseIndex];
  }

  /** Toggling flips `completed` of the one set named and changes nothing else of it. */
  lemma ToggleFlipsOneSet(logs: Logs, exerciseIndex: int, setIndex: int)
    requires exerciseIndex in logs && 0 <= setIndex < |logs[exerciseIndex]|
    ensures var r := ToggleSetComplete(logs, exerciseIndex, setIndex);
      var before := logs[exerciseIndex][setIndex];
      r[exerciseIndex][setIndex] == before.(completed := !before.completed)
  {
  }

  /** An update that names no field changes nothing. */
  lemma EmptyUpdateChangesNothing(logs: Logs, exerciseIndex: int, setIndex: int)
    requires exerciseIndex in logs
    ensures UpdateSet(logs, exerciseIndex, setIndex, Patch(None, None, None)) == logs
  {
    assert UpdateSet(logs, exerciseIndex, setIndex, Patch(None, None, None))[exerciseIndex] == logs[exerciseIndex];
  }

  /** Applying the same update twice is the same as applying it once. */
  lemma UpdateIsIdempotent(logs: Logs, exerciseIndex: int, setIndex: int, updates: Patch)
    requires exerciseIndex in logs
    ensures var once := UpdateSet(logs, exerciseIndex, setIndex, updates);
      UpdateSet(once, exerciseIndex, setIndex, updates) == once
  {
    var once := UpdateSet(logs, exerciseIndex, setIndex, updates);
    assert UpdateSet(once, exerciseIndex, setIndex, updates)[exerciseIndex] == once[exerciseIndex];
  }

  /** A valid form submits at least one set for every exercise, and a set list for each exactly as logged. */
  lemma SubmittedValidFormHasSets(exercises: seq<PlanExercise>, logs: Logs)
    requires IsFormValid(exercises, logs)
    ensures var r := HandleSubmit(exercises, logs);
      forall k :: 0 <= k < |r| ==> |r[k].sets| > 0 && r[k].sets == logs[k]
  {
  }
}
