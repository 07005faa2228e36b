/**
 * The batch-sync endpoint (`POST /api/workouts/sync`): reconciles a batch of
 * workouts captured offline with the server's `workouts` table, using each
 * record's client-generated `localId` as an idempotency key.
 *
 * The database is the value `Db`: the `workouts` rows and the type-specific
 * rows (`treadmill_data`, `strength_workout_data`), the latter pointing at
 * their workout row by position. Parsing a date (`new Date(s)` giving a valid
 * time) is the parameter `validDate`.
 */
module SyncRoute {
  import opened Common
  import opened Workouts

  const MaxBatchSize: nat := 50

  const InvalidDateFormat := "Invalid date format"
  const MissingTreadmillFields := "Missing required treadmill fields"
  const MissingStrengthFields := "Missing required strength fields"
  const ArrayRequired := "Invalid request: workouts array required"
  const TooManyWorkouts := "Too many workouts. Maximum 50 per request."

  datatype WorkoutRow = WorkoutRow(
    userId: string,
    kind: WorkoutType,
    startedAt: string,
    endedAt: string,
    durationSeconds: int,
    notes: Option<string>,
    synced: bool,
    localId: Option<string>)

  datatype DetailRow =
    | TreadmillRow(workout: nat, distanceKm: real, avgSpeedKmh: real, caloriesBurned: Option<int>)
    | StrengthRow(workout: nat, planId: Option<string>, exercises: seq<ExerciseLog>)

  datatype Db = Db(workouts: seq<WorkoutRow>, details: seq<DetailRow>)

  datatype ItemError = ItemError(localId: string, error: string)

  /** The request body: unreadable JSON, or an object whose `workouts` may be missing or not an array. */
  datatype RequestBody = Malformed | Body(workouts: Option<seq<SyncInput>>)

  datatype SyncResponse =
    | Unauthorized                                   // 401
    | BadRequest(message: string)                    // 400
    | Processed(synced: nat, failed: nat, errors: Option<seq<ItemError>>)   // 200
    | InternalError                                  // 500

  /** What happened to one input of the batch. */
  datatype ItemOutcome = AlreadySynced | Inserted | Failed(error: string)

  /** The loop's running state: the database, the two counters and the `errors` array. */
  datatype BatchState = BatchState(db: Db, synced: nat, failed: nat, errors: seq<ItemError>)

  /** JavaScript truthiness of an optional number (NaN is not modelled). */
  predicate Truthy(x: Option<real>) {
    x.Some? && x.value != 0.0
  }

  /** Some row of the table already carries this `localId`, whoever owns it. */
  predicate HasLocalId(rows: seq<WorkoutRow>, id: string) {
    exists i :: 0 <= i < |rows| && rows[i].localId == Some(id)
  }

  /** No two rows carry the same `localId`. */
  ghost predicate UniqueLocalIds(rows: seq<WorkoutRow>) {
    forall i, j :: 0 <= i < j < |rows| && rows[i].localId.Some? ==> rows[i].localId != rows[j].localId
  }

  /** `endedAt` when given and non-empty, `startedAt` otherwise. */
  function EndedAtOrStart(w: SyncInput): string {
    if w.endedAt.Some? && w.endedAt.value != "" then w.endedAt.value else w.startedAt
  }

  /** The base `workouts` row inserted for a new input. */
  function BaseRow(userId: string, w: SyncInput): WorkoutRow {
    WorkoutRow(userId, w.kind, w.startedAt, EndedAtOrStart(w), w.durationSeconds, w.notes, true, Some(w.localId))
  }

  /** The body of the loop, for one input, as the handler runs it. */
  function ProcessOne(db: Db, userId: string, w: SyncInput, validDate: string -> bool): (r: (Db, ItemOutcome))
    ensures HasLocalId(db.workouts, w.localId) ==> r == (db, AlreadySynced)
    ensures r.1.Failed? || HasLocalId(db.workouts, w.localId) ==> r.0.details == db.details
    ensures r.0.workouts == db.workouts ||
      (!HasLocalId(db.workouts, w.localId) && r.0.workouts == db.workouts + [BaseRow(userId, w)])
    ensures r.1 != AlreadySynced ==> HasLocalId(r.0.workouts, w.localId) || r.1 == Failed(InvalidDateFormat)
  {
    if HasLocalId(db.workouts, w.localId) then
      (db, AlreadySynced)
    else if !validDate(w.startedAt) || !validDate(EndedAtOrStart(w)) then
      (db, Failed(InvalidDateFormat))
    else
      var workoutId := |db.workouts|;
      var withBase := db.(workouts := db.workouts + [BaseRow(userId, w)]);
      assert withBase.workouts[workoutId].localId == Some(w.localId);
      match w.kind
      case Treadmill =>
        if !Truthy(w.distanceKm) || !Truthy(w.avgSpeedKmh) then
          (withBase, Failed(MissingTreadmillFields))
        else
          var row := TreadmillRow(workoutId, w.distanceKm.value, w.avgSpeedKmh.value, w.caloriesBurned);
          (withBase.(details := withBase.details + [row]), Inserted)
      case Strength =>
        if w.exercises.None? || |w.exercises.value| == 0 then
          (withBase, Failed(MissingStrengthFields))
        else
          var planId := if w.planId == Some("") then None else w.planId;
          var row := StrengthRow(workoutId, planId, w.exercises.value);
          (withBase.(details := withBase.details + [row]), Inserted)
  }

  /** The state after the loop has processed `inputs`, in order. */
  function ProcessAll(db: Db, userId: string, inputs: seq<SyncInput>, validDate: string -> bool): BatchState
  {
    if inputs == [] then BatchState(db, 0, 0, [])
    else
      var prev := ProcessAll(db, userId, inputs[..|inputs| - 1], validDate);
      var w := inputs[|inputs| - 1];
      var (db', outcome) := ProcessOne(prev.db, userId, w, validDate);
      match outcome
      case Failed(msg) => BatchState(db', prev.synced, prev.failed + 1, prev.errors + [ItemError(w.localId, msg)])
      case _ => BatchState(db', prev.synced + 1, prev.failed, prev.errors)
  }

  /** The whole handler: the database afterwards and the response. */
  function Respond(db: Db, userId: Option<string>, body: RequestBody, validDate: string -> bool): (r: (Db, SyncResponse))
    ensures userId.None? || userId == Some("") ==> r == (db, Unauthorized)
    ensures r.1 != Unauthorized && body.Malformed? ==> r == (db, InternalError)
    ensures r.1.BadRequest? ==> r.0 == db
    ensures (userId.Some? && userId.value != "" && body.Body? && (body.workouts.None? || |body.workouts.value| == 0))
      ==> r == (db, BadRequest(ArrayRequired))
    ensures (userId.Some? && userId.value != "" && body.Body? && body.workouts.Some? && |body.workouts.value| > MaxBatchSize)
      ==> r == (db, BadRequest(TooManyWorkouts))
    ensures (userId.Some? && userId.value != "" && body.Body? && body.workouts.Some? && 1 <= |body.workouts.value| <= MaxBatchSize)
      ==> r.1.Processed?
    ensures r.1.Processed? ==> body.Body? && body.workouts.Some? && 1 <= |body.workouts.value| <= MaxBatchSize
    ensures r.1.Processed? ==> r.1.synced + r.1.failed == |body.workouts.value|
  {
    if userId.None? || userId.value == "" then (db, Unauthorized)
    else if body.Malformed? then (db, InternalError)
    else if body.workouts.None? || |body.workouts.value| == 0 then (db, BadRequest(ArrayRequired))
    else if |body.workouts.value| > MaxBatchSize then (db, BadRequest(TooManyWorkouts))
    else
      var st := ProcessAll(db, userId.value, body.workouts.value, validDate);
      CountsAddUp(db, userId.value, body.workouts.value, validDate);
      (st.db, Processed(st.synced, st.failed, if st.errors == [] then None else Some(st.errors)))
  }

  /** Every input is counted exactly once, as synced or as failed. */
  lemma {:induction false} CountsAddUp(db: Db, userId: string, inputs: seq<SyncInput>, validDate: string -> bool)
    ensures ProcessAll(db, userId, inputs, validDate).synced + ProcessAll(db, userId, inputs, validDate).failed == |inputs|
    ensures |ProcessAll(db, userId, inputs, validDate).errors| == ProcessAll(db, userId, inputs, validDate).failed
  {
    if inputs != [] {
      CountsAddUp(db, userId, inputs[..|inputs| - 1], validDate);
    }
  }

  /**
   * What the loop decided for each input, in input order: input `i` is
   * handled against the database the first `i` inputs left behind.
   */
  function Outcomes(db: Db, userId: string, inputs: seq<SyncInput>, validDate: string -> bool): (r: seq<ItemOutcome>)
    ensures |r| == |inputs|
  {
    if inputs == [] then []
    else
      var prefix := inputs[..|inputs| - 1];
      Outcomes(db, userId, prefix, validDate)
        + [ProcessOne(ProcessAll(db, userId, prefix, validDate).db, userId, inputs[|inputs| - 1], validDate).1]
  }

  /** The `errors` entries the failed inputs call for: one per failure, in input order. */
  function FailedItems(inputs: seq<SyncInput>, outcomes: seq<ItemOutcome>): (r: seq<ItemError>)
    requires |inputs| == |outcomes|
    ensures |r| <= |inputs|
    ensures forall i :: 0 <= i < |inputs| && outcomes[i].Failed? ==>
      ItemError(inputs[i].localId, outcomes[i].error) in r
    ensures forall e :: e in r ==>
      exists i :: 0 <= i < |inputs| && outcomes[i].Failed? && e == ItemError(inputs[i].localId, outcomes[i].error)
  {
    if inputs == [] then []
    else
      var n := |inputs| - 1;
      var prev := FailedItems(inputs[..n], outcomes[..n]);
      assert forall i :: 0 <= i < n ==> inputs[..n][i] == inputs[i] && outcomes[..n][i] == outcomes[i];
      prev + (if outcomes[n].Failed? then [ItemError(inputs[n].localId, outcomes[n].error)] else [])
  }

  /** Input `i`'s outcome is `ProcessOne` run on the database the inputs before it left. */
  lemma {:induction false} OutcomeIsProcessOne(db: Db, userId: string, inputs: seq<SyncInput>, validDate: string -> bool, i: nat)
    requires i < |inputs|
    ensures Outcomes(db, userId, inputs, validDate)[i]
      == ProcessOne(ProcessAll(db, userId, inputs[..i], validDate).db, userId, inputs[i], validDate).1
  {
    var n := |inputs| - 1;
    if i < n {
      OutcomeIsProcessOne(db, userId, inputs[..n], validDate, i);
      assert inputs[..n][..i] == inputs[..i];
    }
  }

  /**
   * The `errors` array holds exactly one entry per failed input, in input
   * order, with that input's `localId` and failure message; the inputs not
   * named there were counted as synced.
   */
  lemma {:induction false} ErrorsNameFailedInputs(db: Db, userId: string, inputs: seq<SyncInput>, validDate: string -> bool)
    ensures ProcessAll(db, userId, inputs, validDate).errors
      == FailedItems(inputs, Outcomes(db, userId, inputs, validDate))
  {
    if inputs != [] {
      var n := |inputs| - 1;
      ErrorsNameFailedInputs(db, userId, inputs[..n], validDate);
      var outs := Outcomes(db, userId, inputs, validDate);
      assert outs[..n] == Outcomes(db, userId, inputs[..n], validDate);
    }
  }

  /** So a failed input is reported under its own `localId` with its own message, and nothing else is. */
  lemma FailedInputReported(db: Db, userId: string, inputs: seq<SyncInput>, validDate: string -> bool, i: nat)
    requires i < |inputs|
    ensures var outs := Outcomes(db, userId, inputs, validDate);
      outs[i].Failed? ==> ItemError(inputs[i].localId, outs[i].error) in ProcessAll(db, userId, inputs, validDate).errors
    ensures var outs := Outcomes(db, userId, inputs, validDate);
      forall e :: e in ProcessAll(db, userId, inputs, validDate).errors ==>
        exists j :: 0 <= j < |inputs| && outs[j].Failed? && e == ItemError(inputs[j].localId, outs[j].error)
  {
    ErrorsNameFailedInputs(db, userId, inputs, validDate);
  }

  /** Rows are only ever appended: the rows present before the batch stay as they were. */
  lemma {:induction false} RowsOnlyAppended(db: Db, userId: string, inputs: seq<SyncInput>, validDate: string -> bool)
    ensures var st := ProcessAll(db, userId, inputs, validDate);
      |db.workouts| <= |st.db.workouts| && st.db.workouts[..|db.workouts|] == db.workouts
  {
    if inputs != [] {
      RowsOnlyAppended(db, userId, inputs[..|inputs| - 1], validDate);
      var prev := ProcessAll(db, userId, inputs[..|inputs| - 1], validDate);
      var w := inputs[|inputs| - 1];
      var next := ProcessOne(prev.db, userId, w, validDate).0;
      assert next.workouts[..|prev.db.workouts|] == prev.db.workouts;
      assert next.workouts[..|db.workouts|] == prev.db.workouts[..|db.workouts|];
    }
  }

  /** A processed input leaves no fewer rows carrying its `localId`. */
  lemma HasLocalIdKept(rows: seq<WorkoutRow>, more: seq<WorkoutRow>, id: string)
    requires HasLocalId(rows, id)
    ensures HasLocalId(rows + more, id)
  {
    var i :| 0 <= i < |rows| && rows[i].localId == Some(id);
    assert (rows + more)[i] == rows[i];
  }

  /** One input never gives a `localId` a second row. */
  lemma ProcessOneKeepsUnique(db: Db, userId: string, w: SyncInput, validDate: string -> bool)
    requires UniqueLocalIds(db.workouts)
    ensures UniqueLocalIds(ProcessOne(db, userId, w, validDate).0.workouts)
  {
    var rows := ProcessOne(db, userId, w, validDate).0.workouts;
    if rows != db.workouts {
      forall i, j | 0 <= i < j < |rows| && rows[i].localId.Some?
        ensures rows[i].localId != rows[j].localId
      {
        if j == |db.workouts| {
          assert rows[i] == db.workouts[i];
          assert !HasLocalId(db.workouts, w.localId);
        }
      }
    }
  }

  /**
   * Idempotency by `localId`: processing a batch, however many of its inputs
   * repeat each other or rows already stored, never stores two rows with the
   * same `localId`.
   */
  lemma {:induction false} BatchKeepsUnique(db: Db, userId: string, inputs: seq<SyncInput>, validDate: string -> bool)
    requires UniqueLocalIds(db.workouts)
    ensures UniqueLocalIds(ProcessAll(db, userId, inputs, validDate).db.workouts)
  {
    if inputs != [] {
      BatchKeepsUnique(db, userId, inputs[..|inputs| - 1], validDate);
      var prev := ProcessAll(db, userId, inputs[..|inputs| - 1], validDate);
      ProcessOneKeepsUnique(prev.db, userId, inputs[|inputs| - 1], validDate);
    }
  }

  /** Repeated requests, by any users, keep `localId`s unique too. */
  lemma RequestsKeepUnique(db: Db, userId: Option<string>, body: RequestBody, validDate: string -> bool)
    requires UniqueLocalIds(db.workouts)
    ensures UniqueLocalIds(Respond(db, userId, body, validDate).0.workouts)
  {
    if Respond(db, userId, body, validDate).1.Processed? {
      BatchKeepsUnique(db, userId.value, body.workouts.value, validDate);
    }
  }

  /**
   * An input not reported in `errors` is stored on the server: a row with its
   * `localId` exists once the batch is processed (it was already there, or it
   * was inserted).
   */
  lemma {:induction false} UnreportedInputsArePersisted(db: Db, userId: string, inputs: seq<SyncInput>,
                                                        validDate: string -> bool, id: string)
    requires exists w :: w in inputs && w.localId == id
    requires forall e :: e in ProcessAll(db, userId, inputs, validDate).errors ==> e.localId != id
    ensures HasLocalId(ProcessAll(db, userId, inputs, validDate).db.workouts, id)
  {
    var prefix := inputs[..|inputs| - 1];
    var prev := ProcessAll(db, userId, prefix, validDate);
    var w := inputs[|inputs| - 1];
    var (db', outcome) := ProcessOne(prev.db, userId, w, validDate);
    RowsOnlyAppended(prev.db, userId, [w], validDate);
    assert ProcessAll(prev.db, userId, [w], validDate).db == db' by {
      assert [w][..0] == [];
    }
    if exists v :: v in prefix && v.localId == id {
      UnreportedInputsArePersisted(db, userId, prefix, validDate, id);
      HasLocalIdKept(prev.db.workouts, db'.workouts[|prev.db.workouts|..], id);
      assert prev.db.workouts + db'.workouts[|prev.db.workouts|..] == db'.workouts;
    } else {
      assert w.localId == id;
      assert !outcome.Failed?;
    }
  }

  /** The duplicate check ignores the owner: another user's row with the same `localId` absorbs the input. */
  lemma DuplicateCheckIgnoresUser(db: Db, userId: string, w: SyncInput, validDate: string -> bool, i: nat)
    requires i < |db.workouts| && db.workouts[i].localId == Some(w.localId) && db.workouts[i].userId != userId
    ensures ProcessOne(db, userId, w, validDate) == (db, AlreadySynced)
  {
  }

  /** An unparseable date fails the input before anything is inserted. */
  lemma InvalidDateInsertsNothing(db: Db, userId: string, w: SyncInput, validDate: string -> bool)
    requires !HasLocalId(db.workouts, w.localId)
    requires !validDate(w.startedAt)
    ensures ProcessOne(db, userId, w, validDate) == (db, Failed(InvalidDateFormat))
  {
  }

  /** A stored new workout ends when it started unless `endedAt` is given. */
  lemma EndedAtDefaultsToStart(db: Db, userId: string, w: SyncInput, validDate: string -> bool)
    requires !HasLocalId(db.workouts, w.localId) && validDate(w.startedAt)
    requires w.endedAt.None?
    ensures var r := ProcessOne(db, userId, w, validDate);
      r.0.workouts == db.workouts + [BaseRow(userId, w)] && r.0.workouts[|db.workouts|].endedAt == w.startedAt
  {
  }

  /** `validateWorkoutInput`: the shape check that the handler defines but never calls. */
  predicate ValidateWorkoutInput(w: SyncInput) {
    w.durationSeconds > 0
  }

  /** An input that `validateWorkoutInput` rejects is still stored by the handler. */
  lemma ValidationIsNotApplied(db: Db, userId: string, validDate: string -> bool)
    requires !HasLocalId(db.workouts, "x") && validDate("t")
    ensures var w := SyncInput("x", Treadmill, "t", None, 0, None, Some(1.0), Some(1.0), None, None, None);
      !ValidateWorkoutInput(w) && ProcessOne(db, userId, w, validDate).1 == Inserted
  {
  }

  /** The `workouts` row at position `i` has its type-specific row. */
  predicate HasDetail(details: seq<DetailRow>, i: nat) {
    exists j :: 0 <= j < |details| && details[j].workout == i
  }

  /** Every workout row has its type-specific row. */
  ghost predicate DetailsComplete(db: Db) {
    forall i :: 0 <= i < |db.workouts| ==> HasDetail(db.details, i)
  }

  /**
   * As written, a treadmill input without a distance leaves its base row
   * behind without a `treadmill_data` row, and the client's retry of the
   * same input is then counted as synced.
   */
  lemma FailedInputLeavesOrphanRow(userId: string, validDate: string -> bool)
    requires validDate("t")
    ensures var w := SyncInput("x", Treadmill, "t", None, 60, None, None, Some(5.0), None, None, None);
      var first := ProcessOne(Db([], []), userId, w, validDate);
      first.1 == Failed(MissingTreadmillFields) && |first.0.workouts| == 1 && !DetailsComplete(first.0)
      && ProcessOne(first.0, userId, w, validDate).1 == AlreadySynced
  {
    var w := SyncInput("x", Treadmill, "t", None, 60, None, None, Some(5.0), None, None, None);
    var first := ProcessOne(Db([], []), userId, w, validDate);
    assert first.0.workouts[0].localId == Some("x");
    assert !HasDetail(first.0.details, 0);
  }

  /** The type-specific fields an input must carry: a truthy distance and speed, or a non-empty exercise list. */
  predicate HasTypeFields(w: SyncInput) {
    match w.kind
    case Treadmill => Truthy(w.distanceKm) && Truthy(w.avgSpeedKmh)
    case Strength => w.exercises.Some? && |w.exercises.value| > 0
  }

  /** The type-specific row of a new input that carries its type's fields. */
  function DetailOf(workoutId: nat, w: SyncInput): DetailRow
    requires HasTypeFields(w)
  {
    match w.kind
    case Treadmill => TreadmillRow(workoutId, w.distanceKm.value, w.avgSpeedKmh.value, w.caloriesBurned)
    case Strength => StrengthRow(workoutId, if w.planId == Some("") then None else w.planId, w.exercises.value)
  }

  /**
   * The loop body with the type-specific check moved before the base insert:
   * an input that fails inserts nothing, so a retry is processed afresh.
   */
  function ProcessOneChecked(db: Db, userId: string, w: SyncInput, validDate: string -> bool): (r: (Db, ItemOutcome))
    ensures r.1.Failed? || r.1 == AlreadySynced ==> r.0 == db
    ensures r.1 == Inserted <==>
      !HasLocalId(db.workouts, w.localId) && validDate(w.startedAt) && validDate(EndedAtOrStart(w)) && HasTypeFields(w)
    ensures DetailsComplete(db) ==> DetailsComplete(r.0)
  {
    if HasLocalId(db.workouts, w.localId) then
      (db, AlreadySynced)
    else if !validDate(w.startedAt) || !validDate(EndedAtOrStart(w)) then
      (db, Failed(InvalidDateFormat))
    else if !HasTypeFields(w) then
      (db, Failed(if w.kind.Treadmill? then MissingTreadmillFields else MissingStrengthFields))
    else
      var workoutId := |db.workouts|;
      var db' := Db(db.workouts + [BaseRow(userId, w)], db.details + [DetailOf(workoutId, w)]);
      assert HasDetail(db'.details, workoutId) by {
        assert db'.details[|db.details|].workout == workoutId;
      }
      assert DetailsComplete(db) ==> DetailsComplete(db') by {
        if DetailsComplete(db) {
          forall i | 0 <= i < |db.workouts| ensures HasDetail(db'.details, i) {
            assert HasDetail(db.details, i);
            var j :| 0 <= j < |db.details| && db.details[j].workout == i;
            assert db'.details[j] == db.details[j];
          }
        }
      }
      (db', Inserted)
  }

  /** On every input the checked body agrees with the handler's outcome, and differs only in not leaving a failed row. */
  lemma CheckedAgreesOnOutcome(db: Db, userId: string, w: SyncInput, validDate: string -> bool)
    ensures ProcessOneChecked(db, userId, w, validDate).1 == ProcessOne(db, userId, w, validDate).1
    ensures ProcessOne(db, userId, w, validDate).1 == Inserted ==>
      ProcessOneChecked(db, userId, w, validDate).0 == ProcessOne(db, userId, w, validDate).0
  {
  }

  class WorkoutTables {
    var workouts: seq<WorkoutRow>
    var details: seq<DetailRow>

    constructor (db: Db)
      ensures workouts == db.workouts && details == db.details
    {
      workouts, details := db.workouts, db.details;
    }

    /** `POST /api/workouts/sync`. */
    method Post(userId: Option<string>, body: RequestBody, validDate: string -> bool) returns (resp: SyncResponse)
      modifies this
      ensures (Db(workouts, details), resp) == Respond(old(Db(workouts, details)), userId, body, validDate)
    {
      if userId.None? || userId.value == "" {
        return Unauthorized;
      }
      if body.Malformed? {
        return InternalError;
      }
      var workoutsToSync := body.workouts;
      if workoutsToSync.None? || |workoutsToSync.value| == 0 {
        return BadRequest(ArrayRequired);
      }
      if |workoutsToSync.value| > MaxBatchSize {
        return BadRequest(TooManyWorkouts);
      }
      var inputs := workoutsToSync.value;
      var user := userId.value;
      ghost var db0 := Db(workouts, details);
      var syncedCount: nat := 0;
      var failedCount: nat := 0;
      var errors: seq<ItemError> := [];
      var i := 0;
      while i < |inputs|
        invariant 0 <= i <= |inputs|
        invariant BatchState(Db(workouts, details), syncedCount, failedCount, errors)
          == ProcessAll(db0, user, inputs[..i], validDate)
      {
        var w := inputs[i];
        assert inputs[..i + 1][..i] == inputs[..i];
        var existing := exists j | 0 <= j < |workouts| :: workouts[j].localId == Some(w.localId);
        if existing {
          syncedCount := syncedCount + 1;
        } else {
          var endedAt := if w.endedAt.Some? && w.endedAt.value != "" then w.endedAt.value else w.startedAt;
          if !validDate(w.startedAt) || !validDate(endedAt) {
            failedCount := failedCount + 1;
            errors := errors + [ItemError(w.localId, InvalidDateFormat)];
          } else {
            var workoutId := |workouts|;
            workouts := workouts + [WorkoutRow(user, w.kind, w.startedAt, endedAt, w.durationSeconds,
                                               w.notes, true, Some(w.localId))];
            var failure: Option<string> := None;
            match w.kind {
              case Treadmill =>
                if !Truthy(w.distanceKm) || !Truthy(w.avgSpeedKmh) {
                  failure := Some(MissingTreadmillFields);
                } else {
                  details := details + [TreadmillRow(workoutId, w.distanceKm.value, w.avgSpeedKmh.value,
                                                     w.caloriesBurned)];
                }
              case Strength =>
                if w.exercises.None? || |w.exercises.value| == 0 {
                  failure := Some(MissingStrengthFields);
                } else {
                  var planId := if w.planId == Some("") then None else w.planId;
                  details := details + [StrengthRow(workoutId, planId, w.exercises.value)];
                }
            }
            if failure.Some? {
              failedCount := failedCount + 1;
              errors := errors + [ItemError(w.localId, failure.value)];
            } else {
              syncedCount := syncedCount + 1;
            }
          }
        }
        i := i + 1;
      }
      assert inputs[..i] == inputs;
      resp := Processed(syncedCount, failedCount, if errors == [] then None else Some(errors));
    }
  }
}
