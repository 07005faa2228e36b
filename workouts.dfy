/**
 * The workout records that travel from the device's pending queue to the
 * batch-sync endpoint: the queued record, its payload, and the element of
 * the sync request that the client builds from it.
 */
module Workouts {
  import opened Common

  datatype WorkoutType = Treadmill | Strength

  /** One set of a strength exercise. `reps` is `None` when the number is NaN or missing. */
  datatype SetLog = SetLog(reps: Option<real>, weightKg: Option<real>, completed: bool)

  /** The sets logged for one exercise of a strength workout. */
  datatype ExerciseLog = ExerciseLog(exerciseId: string, exerciseName: string, sets: seq<SetLog>)

  /** The payload of a queued workout: treadmill data or strength data. */
  datatype WorkoutData =
    | TreadmillData(startedAt: string, endedAt: Option<string>, durationSeconds: int,
                    distanceKm: real, avgSpeedKmh: real, caloriesBurned: Option<int>,
                    notes: Option<string>)
    | StrengthData(startedAt: string, endedAt: Option<string>, durationSeconds: int,
                   exercises: seq<ExerciseLog>, planId: Option<string>, notes: Option<string>)

  /** A workout captured on the device and not yet confirmed by the server. */
  datatype PendingWorkout = PendingWorkout(
    localId: string,
    kind: WorkoutType,
    data: WorkoutData,
    timestamp: int,    // milliseconds since the epoch, when it was queued
    retryCount: nat)

  /** One element of the `workouts` array of a batch-sync request. */
  datatype SyncInput = SyncInput(
    localId: string,
    kind: WorkoutType,
    startedAt: string,
    endedAt: Option<string>,
    durationSeconds: int,
    notes: Option<string>,
    distanceKm: Option<real>,
    avgSpeedKmh: Option<real>,
    caloriesBurned: Option<int>,
    exercises: Option<seq<ExerciseLog>>,
    planId: Option<string>)

  /**
   * The request element the client builds for a queued workout sent in the
   * batch of type `kind`: its `localId`, the batch's type and the payload's
   * fields spread beside them.
   */
  function ToSyncInput(w: PendingWorkout, kind: WorkoutType): (r: SyncInput)
    ensures r.localId == w.localId && r.kind == kind
    ensures r.startedAt == w.data.startedAt && r.durationSeconds == w.data.durationSeconds
    ensures w.data.TreadmillData? <==> r.distanceKm.Some?
    ensures w.data.StrengthData? <==> r.exercises.Some?
  {
    match w.data
    case TreadmillData(s, e, d, dist, speed, cal, n) =>
      SyncInput(w.localId, kind, s, e, d, n, Some(dist), Some(speed), cal, None, None)
    case StrengthData(s, e, d, exs, plan, n) =>
      SyncInput(w.localId, kind, s, e, d, n, None, None, None, Some(exs), plan)
  }
}
