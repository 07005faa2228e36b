/**
 * The request schemas the application validates input against, as
 * predicates and parsing functions. Numbers arrive as `real` (a JSON number
 * that is not `NaN`), reps included; `.int()` is "has no fractional part"; an optional field
 * is an `Option`; a `.default(v)` takes `v` when the field is absent.
 * Whether a string is an ISO date-time is a parameter.
 */
module Validations {
  import opened Common
  import opened Decimal
  import opened Workouts
  import Equipment
  import Dashboard
  import SyncRoute
  import opened PlanExercises
  import StrengthLogForm

  const MaxNotesLength: nat := 500
  const MaxDurationSeconds: real := 86400.0

  /** `z.number().int()`. */
  predicate IsInteger(x: real) {
    x.Floor as real == x
  }

  /**
   * The length JavaScript reports for a string: its UTF-16 code units, two
   * for a character outside the Basic Multilingual Plane and one otherwise.
   */
  function Utf16Length(s: string): (r: nat)
    ensures |s| <= r <= 2 * |s|
    ensures (forall i :: 0 <= i < |s| ==> s[i] as int <= 0xFFFF) ==> r == |s|
  {
    if s == [] then 0
    else Utf16Length(s[..|s| - 1]) + (if s[|s| - 1] as int > 0xFFFF then 2 else 1)
  }

  /** Code units add up over concatenation. */
  lemma {:induction false} Utf16LengthAppend(s: string, t: string)
    ensures Utf16Length(s + t) == Utf16Length(s) + Utf16Length(t)
    decreases |t|
  {
    if t == [] {
      assert s + t == s;
    } else {
      assert (s + t)[..|s + t| - 1] == s + t[..|t| - 1];
      Utf16LengthAppend(s, t[..|t| - 1]);
    }
  }

  /** A string of characters outside the Basic Multilingual Plane counts each of them twice. */
  lemma {:induction false} Utf16LengthAstral(s: string)
    requires forall i :: 0 <= i < |s| ==> s[i] as int > 0xFFFF
    ensures Utf16Length(s) == 2 * |s|
  {
    if s != [] {
      Utf16LengthAstral(s[..|s| - 1]);
    }
  }

  /** The notes field: absent, null, or at most 500 UTF-16 code units (`.max(500)` on a JavaScript string). */
  predicate ValidNotes(notes: Option<string>) {
    notes.None? || Utf16Length(notes.value) <= MaxNotesLength
  }

  /** 300 emoji are only 300 characters, yet 600 code units: the notes field refuses them. */
  lemma AstralNotesRefused(s: string)
    requires |s| == 300 && forall i :: 0 <= i < |s| ==> s[i] == '\U{1F600}'
    ensures !ValidNotes(Some(s))
  {
    Utf16LengthAstral(s);
  }

  /** Notes are accepted exactly when they fit: any 500 characters of the Basic Multilingual Plane pass. */
  lemma BmpNotesAccepted(s: string)
    requires |s| <= MaxNotesLength && forall i :: 0 <= i < |s| ==> s[i] as int <= 0xFFFF
    ensures ValidNotes(Some(s))
  {
  }

  /** An optional ISO date-time field. */
  predicate ValidStartedAt(startedAt: Option<string>, isDateTime: string -> bool) {
    startedAt.None? || isDateTime(startedAt.value)
  }

  /** A workout duration: from one second to 24 hours. */
  predicate ValidDuration(durationSeconds: real) {
    1.0 <= durationSeconds <= MaxDurationSeconds
  }

  datatype TreadmillWorkoutInput = TreadmillWorkoutInput(
    distanceKm: real, durationSeconds: real, startedAt: Option<string>, notes: Option<string>)

  /** `treadmillWorkoutSchema`. */
  predicate ValidTreadmillWorkout(w: TreadmillWorkoutInput, isDateTime: string -> bool) {
    && 0.01 <= w.distanceKm <= 100.0
    && ValidDuration(w.durationSeconds)
    && ValidStartedAt(w.startedAt, isDateTime)
    && ValidNotes(w.notes)
  }

  /** `strengthExerciseSetSchema`: a positive whole number of reps and, if given, a positive weight. */
  predicate ValidSet(s: SetLog) {
    && s.reps.Some? && s.reps.value > 0.0 && IsInteger(s.reps.value)
    && (s.weightKg.None? || s.weightKg.value > 0.0)
  }

  /**
   * Reps read from a plan's text are always whole, so only a numeric plan
   * entry can carry a fraction into the form.
   */
  lemma TextRepsAreWhole(s: string)
    requires RepsOf(Text(s)).Some?
    ensures IsInteger(RepsOf(Text(s)).value)
  {
  }

  /**
   * A plan entry with fractional numeric reps, such as 8.5, opens the strength
   * log form with sets the schema refuses: exactly those whose reps are not whole.
   */
  lemma FractionalPlanRepsRefused(ex: PlanExercise, j: nat)
    requires ex.reps.Count? && j < ex.sets
    ensures ValidSet(StrengthLogForm.InitialSets(ex)[j]) <==> ex.reps.n > 0.0 && IsInteger(ex.reps.n)
  {
  }

  /** `strengthExerciseLogSchema`: an id, a name and at least one valid set. */
  predicate ValidExerciseLog(log: ExerciseLog) {
    && |log.exerciseId| >= 1
    && |log.exerciseName| >= 1
    && |log.sets| >= 1
    && forall i :: 0 <= i < |log.sets| ==> ValidSet(log.sets[i])
  }

  datatype StrengthWorkoutInput = StrengthWorkoutInput(
    exercises: seq<ExerciseLog>, planId: Option<string>, durationSeconds: real,
    startedAt: Option<string>, notes: Option<string>)

  /** `strengthWorkoutSchema`. */
  predicate ValidStrengthWorkout(w: StrengthWorkoutInput, isDateTime: string -> bool) {
    && |w.exercises| >= 1
    && (forall i :: 0 <= i < |w.exercises| ==> ValidExerciseLog(w.exercises[i]))
    && ValidDuration(w.durationSeconds)
    && ValidStartedAt(w.startedAt, isDateTime)
    && ValidNotes(w.notes)
  }

  /**
   * A strength workout that passes the schema also passes the batch-sync
   * endpoint's strength check, which asks only for a non-empty exercise list.
   */
  lemma StrengthSchemaImpliesSyncCheck(w: StrengthWorkoutInput, isDateTime: string -> bool, localId: string, startedAt: string)
    requires ValidStrengthWorkout(w, isDateTime)
    ensures SyncRoute.HasTypeFields(SyncInput(localId, Strength, startedAt, None, w.durationSeconds.Floor,
                                              w.notes, None, None, None, Some(w.exercises), w.planId))
  {
  }

  /**
   * The strength log form submits only what the schema accepts when its
   * entries are sound: a valid form over a plan whose exercises have ids and
   * names, with every logged set holding positive reps and, if any, a
   * positive weight.
   */
  lemma SubmittedFormPassesSchema(exercises: seq<PlanExercise>, logs: StrengthLogForm.Logs)
    requires StrengthLogForm.IsFormValid(exercises, logs)
    requires forall k :: 0 <= k < |exercises| ==> |exercises[k].exerciseId| >= 1 && |exercises[k].exerciseName| >= 1
    requires forall k, i :: 0 <= k < |exercises| && 0 <= i < |logs[k]| ==> ValidSet(logs[k][i])
    ensures var r := StrengthLogForm.HandleSubmit(exercises, logs);
      forall k :: 0 <= k < |r| ==> ValidExerciseLog(r[k])
  {
    var r := StrengthLogForm.HandleSubmit(exercises, logs);
    forall k | 0 <= k < |r|
      ensures ValidExerciseLog(r[k])
    {
      assert r[k].sets == logs[k];
    }
  }

  /**
   * `equipmentProfileSchema`: absent flags default to false, except
   * bodyweight which defaults to true; a profile with no equipment at all
   * is rejected.
   */
  function ParseEquipmentProfile(input: Equipment.ProfileData): (r: Option<Equipment.EquipmentProfile>)
    ensures r.Some? <==>
      input.dumbbells.GetOr(false) || input.barbells.GetOr(false) || input.kettlebells.GetOr(false) || input.bodyweight.GetOr(true)
    ensures r.Some? ==> r.value.bodyweight == input.bodyweight.GetOr(true) && r.value.dumbbells == input.dumbbells.GetOr(false)
    ensures r.Some? ==> r.value.barbells == input.barbells.GetOr(false) && r.value.kettlebells == input.kettlebells.GetOr(false)
  {
    var p := Equipment.EquipmentProfile(input.dumbbells.GetOr(false), input.barbells.GetOr(false),
                                        input.kettlebells.GetOr(false), input.bodyweight.GetOr(true));
    if p.dumbbells || p.barbells || p.kettlebells || p.bodyweight then Some(p) else None
  }

  /** A profile that leaves bodyweight out is accepted, with bodyweight available. */
  lemma BodyweightDefaultsToTrue(input: Equipment.ProfileData)
    requires input.bodyweight.None?
    ensures ParseEquipmentProfile(input).Some? && ParseEquipmentProfile(input).value.bodyweight
  {
  }

  /** Every accepted profile is what the table would create from the same data, and lists some equipment. */
  lemma AcceptedProfileHasEquipment(input: Equipment.ProfileData)
    requires ParseEquipmentProfile(input).Some?
    ensures ParseEquipmentProfile(input).value == Equipment.Created(input)
    ensures Equipment.FlagCount(ParseEquipmentProfile(input).value) > 0
  {
  }

  datatype ActivityGoalInput = ActivityGoalInput(kind: string, durationMinutes: real, distanceKm: real, workoutCount: real)

  /** `activityGoalSchema`: a daily or weekly goal with positive whole minutes and workouts and a positive distance. */
  function ParseActivityGoal(input: ActivityGoalInput): (r: Option<(Dashboard.GoalType, Dashboard.Goal)>)
    ensures r.Some? <==>
      && (input.kind == "daily" || input.kind == "weekly")
      && IsInteger(input.durationMinutes) && input.durationMinutes > 0.0
      && input.distanceKm > 0.0
      && IsInteger(input.workoutCount) && input.workoutCount > 0.0
    ensures r.Some? ==>
      && r.value.1.durationMinutes as real == input.durationMinutes
      && r.value.1.distanceKm == input.distanceKm
      && r.value.1.workoutCount as real == input.workoutCount
    ensures r.Some? ==> (r.value.0 == Dashboard.Daily <==> input.kind == "daily")
  {
    if (input.kind == "daily" || input.kind == "weekly")
       && IsInteger(input.durationMinutes) && input.durationMinutes > 0.0
       && input.distanceKm > 0.0
       && IsInteger(input.workoutCount) && input.workoutCount > 0.0
    then
      var kind := if input.kind == "daily" then Dashboard.Daily else Dashboard.Weekly;
      Some((kind, Dashboard.Goal(input.durationMinutes.Floor, input.distanceKm, input.workoutCount.Floor)))
    else None
  }

  /** The goals the dashboard falls back on are goals the schema accepts. */
  lemma DefaultGoalsPassSchema(kind: Dashboard.GoalType)
    ensures var g := Dashboard.DefaultGoal(kind);
      var name := if kind == Dashboard.Daily then "daily" else "weekly";
      ParseActivityGoal(ActivityGoalInput(name, g.durationMinutes as real, g.distanceKm, g.workoutCount as real))
        == Some((kind, g))
  {
  }

  /** The equipment names the plan generator knows. */
  predicate IsEquipmentName(name: string) {
    name == "bodyweight" || name == "dumbbells" || name == "barbells" || name == "kettlebells"
  }

  datatype GeneratePlanInput = GeneratePlanInput(
    goal: string, durationMinutes: string, equipment: seq<string>, fitnessLevel: string)

  datatype GeneratePlanRequest = GeneratePlanRequest(
    goal: string, durationMinutes: nat, equipment: seq<string>, fitnessLevel: string)

  /** The session lengths offered, `z.enum(['15', '30', '45', '60']).transform(Number)`. */
  function ParseDuration(s: string): (r: Option<nat>)
    ensures r.Some? <==> s == "15" || s == "30" || s == "45" || s == "60"
    ensures r.Some? ==> NatToString(r.value) == s
  {
    if s == "15" then Some(15) else if s == "30" then Some(30)
    else if s == "45" then Some(45) else if s == "60" then Some(60) else None
  }

  /** `generateWorkoutPlanSchema`. */
  function ParseGeneratePlan(input: GeneratePlanInput): (r: Option<GeneratePlanRequest>)
    ensures r.Some? <==>
      && (input.goal == "build_muscle" || input.goal == "lose_weight" || input.goal == "general_fitness")
      && ParseDuration(input.durationMinutes).Some?
      && |input.equipment| >= 1 && (forall i :: 0 <= i < |input.equipment| ==> IsEquipmentName(input.equipment[i]))
      && (input.fitnessLevel == "beginner" || input.fitnessLevel == "intermediate" || input.fitnessLevel == "advanced")
    ensures r.Some? ==> r.value == GeneratePlanRequest(input.goal, ParseDuration(input.durationMinutes).value,
                                                       input.equipment, input.fitnessLevel)
  {
    var duration := ParseDuration(input.durationMinutes);
    if && (input.goal == "build_muscle" || input.goal == "lose_weight" || input.goal == "general_fitness")
       && duration.Some?
       && |input.equipment| >= 1 && (forall i :: 0 <= i < |input.equipment| ==> IsEquipmentName(input.equipment[i]))
       && (input.fitnessLevel == "beginner" || input.fitnessLevel == "intermediate" || input.fitnessLevel == "advanced")
    then Some(GeneratePlanRequest(input.goal, duration.value, input.equipment, input.fitnessLevel))
    else None
  }

  /** The accepted durations are the printed numbers 15, 30, 45 and 60, and each reads back as itself. */
  lemma DurationRoundTrip(d: nat)
    requires d == 15 || d == 30 || d == 45 || d == 60
    ensures ParseDuration(NatToString(d)) == Some(d)
  {
    NatToStringValue(d);
    var s := NatToString(d);
    assert |s| == 2;
    assert s[..1] == [s[0]];
    assert Value(s) == (s[0] as int - '0' as int) * 10 + (s[1] as int - '0' as int);
  }

  /**
   * The equipment a profile lists, in the application's order, is an
   * equipment list the plan generator accepts whenever the profile has any.
   */
  lemma AvailableEquipmentIsAcceptedList(p: Equipment.EquipmentProfile, names: seq<string>)
    requires forall name :: name in names <==> Equipment.Has(p, name)
    requires Equipment.FlagCount(p) > 0
    ensures |names| >= 1 && forall i :: 0 <= i < |names| ==> IsEquipmentName(names[i])
  {
    var some := if p.bodyweight then "bodyweight" else if p.dumbbells then "dumbbells"
                else if p.barbells then "barbells" else "kettlebells";
    assert Equipment.Has(p, some);
    assert some in names;
    forall i | 0 <= i < |names|
      ensures IsEquipmentName(names[i])
    {
      assert names[i] in names;
    }
  }

  datatype PaginationInput = PaginationInput(page: Option<real>, limit: Option<real>,
                                             sortBy: Option<string>, sortOrder: Option<string>)

  datatype Pagination = Pagination(page: int, limit: int, sortBy: Option<string>, sortOrder: string)

  /**
   * `paginationSchema`: a positive whole page, default 1; a positive whole
   * limit up to 100, default 20; ascending or descending, default descending.
   */
  function ParsePagination(input: PaginationInput): (r: Option<Pagination>)
    ensures r.Some? ==> r.value.page >= 1 && 1 <= r.value.limit <= 100
    ensures r.Some? ==> r.value.sortOrder == "asc" || r.value.sortOrder == "desc"
    ensures r.Some? ==> r.value.sortBy == input.sortBy
    ensures input.page.Some? && (!IsInteger(input.page.value) || input.page.value <= 0.0) ==> r.None?
    ensures input.limit.Some? && (!IsInteger(input.limit.value) || input.limit.value <= 0.0 || input.limit.value > 100.0) ==> r.None?
    ensures input.sortOrder.Some? && input.sortOrder.value != "asc" && input.sortOrder.value != "desc" ==> r.None?
    ensures r.Some? <==>
      && (input.page.None? || (IsInteger(input.page.value) && input.page.value > 0.0))
      && (input.limit.None? || (IsInteger(input.limit.value) && 0.0 < input.limit.value <= 100.0))
      && (input.sortOrder.None? || input.sortOrder.value in {"asc", "desc"})
    ensures r.Some? ==> r.value.page as real == input.page.GetOr(1.0) && r.value.limit as real == input.limit.GetOr(20.0)
    ensures r.Some? ==> r.value.sortOrder == input.sortOrder.GetOr("desc")
  {
    var page := input.page.GetOr(1.0);
    var limit := input.limit.GetOr(20.0);
    var order := input.sortOrder.GetOr("desc");
    if IsInteger(page) && page > 0.0 && IsInteger(limit) && limit > 0.0 && limit <= 100.0
       && (order == "asc" || order == "desc")
    then Some(Pagination(page.Floor, limit.Floor, input.sortBy, order))
    else None
  }

  /** With nothing given: page 1, twenty per page, newest first. */
  lemma PaginationDefaults(sortBy: Option<string>)
    ensures ParsePagination(PaginationInput(None, None, sortBy, None)) == Some(Pagination(1, 20, sortBy, "desc"))
  {
  }

  /** A request that states the defaults is read as one that leaves them out. */
  lemma ExplicitDefaultsAreDefaults(sortBy: Option<string>)
    ensures ParsePagination(PaginationInput(Some(1.0), Some(20.0), sortBy, Some("desc")))
         == ParsePagination(PaginationInput(None, None, sortBy, None))
  {
  }
}
