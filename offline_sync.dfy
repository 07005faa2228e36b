/**
 * The client's offline-sync controller (`useOfflineSync`): it tracks whether
 * the device is online, how many workouts wait in the pending queue, whether
 * a sync is running and the last sync error, and it drains the queue by
 * sending one batch per workout type to the batch-sync endpoint.
 *
 * Each storage call's success is a parameter (`readOk`, `writeOk(localId)`,
 * `countOk`), and so is what each `fetch` gave back (`FetchOutcome`); the
 * function `ClientSees` says which outcome a response of the endpoint yields.
 */
module OfflineSync {
  import opened Common
  import opened Workouts
  import opened OfflineStorage
  import SyncRoute

  /** What the client learned from one `fetch` of a batch. */
  datatype FetchOutcome =
    | Accepted(synced: nat, failed: nat, errorIds: Option<seq<string>>)   // `response.ok`, body parsed
    | Rejected                                                            // a non-2xx status
    | Threw                                                               // network failure or unreadable body

  datatype SyncError = FailedToSync(count: nat)   // "<count> workout(s) failed to sync. Will retry automatically."

  /** The `localId`s of the endpoint's `errors` entries. */
  function ErrorIds(errs: seq<SyncRoute.ItemError>): (r: seq<string>)
    ensures |r| == |errs| && forall i :: 0 <= i < |errs| ==> r[i] == errs[i].localId
  {
    if errs == [] then [] else ErrorIds(errs[..|errs| - 1]) + [errs[|errs| - 1].localId]
  }

  /** The outcome a response of the batch-sync endpoint gives the client. */
  function ClientSees(resp: SyncRoute.SyncResponse): (r: FetchOutcome)
    ensures r.Accepted? <==> resp.Processed?
    ensures r.Accepted? ==> r.synced == resp.synced && r.failed == resp.failed
    ensures !r.Threw?
  {
    match resp
    case Processed(s, f, errs) => Accepted(s, f, if errs.None? then None else Some(ErrorIds(errs.value)))
    case _ => Rejected
  }

  /** `result.errors?.some(e => e.localId === id)`. */
  predicate Errored(errorIds: Option<seq<string>>, id: string) {
    errorIds.Some? && id in errorIds.value
  }


  /** The queued workouts of one type, in queue order. */
  function Batch(ws: seq<PendingWorkout>, kind: WorkoutType): seq<PendingWorkout> {
    if ws == [] then []
    else Batch(ws[..|ws| - 1], kind) + (if ws[|ws| - 1].kind == kind then [ws[|ws| - 1]] else [])
  }

  /** The `workouts` array of the request sent for a batch. */
  function Inputs(batch: seq<PendingWorkout>, kind: WorkoutType): (r: seq<SyncInput>)
    ensures |r| == |batch| && forall i :: 0 <= i < |batch| ==> r[i] == ToSyncInput(batch[i], kind)
  {
    if batch == [] then [] else Inputs(batch[..|batch| - 1], kind) + [ToSyncInput(batch[|batch| - 1], kind)]
  }

  /** Some record of the batch has this key. */
  predicate InBatch(batch: seq<PendingWorkout>, id: string) {
    exists i :: 0 <= i < |batch| && batch[i].localId == id
  }

  ghost predicate DistinctIds(ws: seq<PendingWorkout>) {
    forall i, j :: 0 <= i < j < |ws| ==> ws[i].localId != ws[j].localId
  }

  /** The queue after the client has settled a batch with the outcome of its request. */
  function Settle(m: map<string, PendingWorkout>, batch: seq<PendingWorkout>, outcome: FetchOutcome,
                  writeOk: string -> bool): map<string, PendingWorkout>
  {
    if batch == [] then m
    else
      var prev := Settle(m, batch[..|batch| - 1], outcome, writeOk);
      var id := batch[|batch| - 1].localId;
      if !writeOk(id) then prev
      else match outcome
        case Accepted(_, _, errs) => if Errored(errs, id) then prev else Remove(prev, id)
        case Rejected => prev
        case Threw => Bump(prev, id)
  }

  /** The record under `id` is deleted when this batch settles: the server reported no error for it. */
  predicate Acknowledged(batch: seq<PendingWorkout>, outcome: FetchOutcome, writeOk: string -> bool, id: string) {
    outcome.Accepted? && InBatch(batch, id) && !Errored(outcome.errorIds, id) && writeOk(id)
  }

  /** Workouts the client counts as synced for a batch. */
  function SyncedOf(batch: seq<PendingWorkout>, outcome: FetchOutcome): nat {
    if batch != [] && outcome.Accepted? then outcome.synced else 0
  }

  /** Workouts the client counts as failed for a batch: the server's count, or the whole batch. */
  function FailedOf(batch: seq<PendingWorkout>, outcome: FetchOutcome): nat {
    if batch == [] then 0 else if outcome.Accepted? then outcome.failed else |batch|
  }

  /** The queue after both batches of the listing `ws` have settled, treadmill first. */
  function AfterSync(m: map<string, PendingWorkout>, ws: seq<PendingWorkout>, treadmillOutcome: FetchOutcome,
                     strengthOutcome: FetchOutcome, writeOk: string -> bool): map<string, PendingWorkout>
  {
    Settle(Settle(m, Batch(ws, Treadmill), treadmillOutcome, writeOk), Batch(ws, Strength), strengthOutcome, writeOk)
  }

  /** The `synced` total a sync of the listing `ws` reports. */
  function SyncedTotal(ws: seq<PendingWorkout>, treadmillOutcome: FetchOutcome, strengthOutcome: FetchOutcome): nat {
    SyncedOf(Batch(ws, Treadmill), treadmillOutcome) + SyncedOf(Batch(ws, Strength), strengthOutcome)
  }

  /** The `failed` total a sync of the listing `ws` reports. */
  function FailedTotal(ws: seq<PendingWorkout>, treadmillOutcome: FetchOutcome, strengthOutcome: FetchOutcome): nat {
    FailedOf(Batch(ws, Treadmill), treadmillOutcome) + FailedOf(Batch(ws, Strength), strengthOutcome)
  }

  /** The requests a sync sends for the queue listing `ws`: one per non-empty batch, treadmill first. */
  function Requests(ws: seq<PendingWorkout>): seq<seq<SyncInput>> {
    RequestFor(Batch(ws, Treadmill), Treadmill) + RequestFor(Batch(ws, Strength), Strength)
  }

  /** The request sent for one batch: none when the batch is empty. */
  function RequestFor(batch: seq<PendingWorkout>, kind: WorkoutType): seq<seq<SyncInput>> {
    if batch != [] then [Inputs(batch, kind)] else []
  }

  /** A sync of the listing `ws` is the sync of its two batches. */
  lemma SyncOfBatches(m: map<string, PendingWorkout>, ws: seq<PendingWorkout>, treadmillOutcome: FetchOutcome,
                      strengthOutcome: FetchOutcome, writeOk: string -> bool)
    ensures var tb, sb := Batch(ws, Treadmill), Batch(ws, Strength);
      && AfterSync(m, ws, treadmillOutcome, strengthOutcome, writeOk)
         == Settle(Settle(m, tb, treadmillOutcome, writeOk), sb, strengthOutcome, writeOk)
      && SyncedTotal(ws, treadmillOutcome, strengthOutcome) == SyncedOf(tb, treadmillOutcome) + SyncedOf(sb, strengthOutcome)
      && FailedTotal(ws, treadmillOutcome, strengthOutcome) == FailedOf(tb, treadmillOutcome) + FailedOf(sb, strengthOutcome)
      && Requests(ws) == RequestFor(tb, Treadmill) + RequestFor(sb, Strength)
  {
  }

  /** A batch holds exactly the queued records of its type. */
  lemma {:induction false} BatchMembers(ws: seq<PendingWorkout>, kind: WorkoutType)
    ensures forall w :: w in Batch(ws, kind) <==> w in ws && w.kind == kind
  {
    if ws != [] {
      var init := ws[..|ws| - 1];
      BatchMembers(init, kind);
      assert ws == init + [ws[|ws| - 1]];
    }
  }

  /** The two batches split the queue: every record is in the batch of its own type and no other. */
  lemma {:induction false} PartitionIsExact(ws: seq<PendingWorkout>)
    ensures |Batch(ws, Treadmill)| + |Batch(ws, Strength)| == |ws|
    ensures forall w :: w in Batch(ws, Treadmill) <==> w in ws && w.kind == Treadmill
    ensures forall w :: w in Batch(ws, Strength) <==> w in ws && w.kind == Strength
  {
    BatchMembers(ws, Treadmill);
    BatchMembers(ws, Strength);
    if ws != [] {
      PartitionIsExact(ws[..|ws| - 1]);
    }
  }

  /** A batch carries distinct keys when the queue listing does. */
  lemma {:induction false} BatchKeepsDistinct(ws: seq<PendingWorkout>, kind: WorkoutType)
    requires DistinctIds(ws)
    ensures DistinctIds(Batch(ws, kind))
  {
    if ws != [] {
      var init := ws[..|ws| - 1];
      var last := ws[|ws| - 1];
      assert DistinctIds(init);
      BatchKeepsDistinct(init, kind);
      BatchMembers(init, kind);
      var b := Batch(init, kind);
      forall i | 0 <= i < |b| ensures b[i].localId != last.localId {
        var j :| 0 <= j < |init| && init[j] == b[i];
        assert ws[j] == init[j];
      }
    }
  }

  /** Which keys survive a batch: exactly those not acknowledged by the server. */
  lemma {:induction false} SettleKeys(m: map<string, PendingWorkout>, batch: seq<PendingWorkout>,
                                      outcome: FetchOutcome, writeOk: string -> bool)
    ensures forall k :: k in Settle(m, batch, outcome, writeOk) <==>
      k in m && !Acknowledged(batch, outcome, writeOk, k)
  {
    if batch != [] {
      var init := batch[..|batch| - 1];
      SettleKeys(m, init, outcome, writeOk);
      forall k ensures InBatch(batch, k) <==> InBatch(init, k) || batch[|batch| - 1].localId == k {
        if InBatch(batch, k) {
          var i :| 0 <= i < |batch| && batch[i].localId == k;
          if i < |batch| - 1 {
            assert init[i] == batch[i];
          }
        }
        if InBatch(init, k) {
          var i :| 0 <= i < |init| && init[i].localId == k;
          assert batch[i] == init[i];
        }
      }
    }
  }

  /** A record outside the batch is left exactly as it was. */
  lemma {:induction false} SettleKeepsOthers(m: map<string, PendingWorkout>, batch: seq<PendingWorkout>,
                                             outcome: FetchOutcome, writeOk: string -> bool, k: string)
    requires k in m && !InBatch(batch, k)
    ensures k in Settle(m, batch, outcome, writeOk) && Settle(m, batch, outcome, writeOk)[k] == m[k]
  {
    if batch != [] {
      var init := batch[..|batch| - 1];
      assert !InBatch(init, k) by {
        forall i | 0 <= i < |init| ensures init[i].localId != k {
          assert batch[i] == init[i];
        }
      }
      SettleKeepsOthers(m, init, outcome, writeOk, k);
    }
  }

  /** A rejected request leaves the queue unchanged. */
  lemma {:induction false} RejectedChangesNothing(m: map<string, PendingWorkout>, batch: seq<PendingWorkout>,
                                                  writeOk: string -> bool)
    ensures Settle(m, batch, Rejected, writeOk) == m
  {
    if batch != [] {
      RejectedChangesNothing(m, batch[..|batch| - 1], writeOk);
    }
  }

  /**
   * A request that threw keeps every record queued and counts one more
   * attempt on each record of the batch whose write succeeded.
   */
  lemma {:induction false} ThrewCountsRetries(m: map<string, PendingWorkout>, batch: seq<PendingWorkout>,
                                              writeOk: string -> bool)
    requires DistinctIds(batch)
    ensures var r := Settle(m, batch, Threw, writeOk);
      r.Keys == m.Keys &&
      forall k :: k in m ==>
        r[k] == if InBatch(batch, k) && writeOk(k) then m[k].(retryCount := m[k].retryCount + 1) else m[k]
  {
    if batch != [] {
      var init := batch[..|batch| - 1];
      var id := batch[|batch| - 1].localId;
      assert DistinctIds(init);
      ThrewCountsRetries(m, init, writeOk);
      assert !InBatch(init, id) by {
        forall i | 0 <= i < |init| ensures init[i].localId != id {
          assert batch[i] == init[i];
        }
      }
      forall k ensures InBatch(batch, k) <==> InBatch(init, k) || id == k {
        if InBatch(batch, k) {
          var i :| 0 <= i < |batch| && batch[i].localId == k;
          if i < |batch| - 1 {
            assert init[i] == batch[i];
          }
        }
        if InBatch(init, k) {
          var i :| 0 <= i < |init| && init[i].localId == k;
          assert batch[i] == init[i];
        }
      }
    }
  }

  /** A processed batch answers with the loop's final state. */
  lemma RespondProcessed(db: SyncRoute.Db, userId: Option<string>, inputs: seq<SyncInput>, validDate: string -> bool)
    requires SyncRoute.Respond(db, userId, SyncRoute.Body(Some(inputs)), validDate).1.Processed?
    ensures userId.Some? && var st := SyncRoute.ProcessAll(db, userId.value, inputs, validDate);
      SyncRoute.Respond(db, userId, SyncRoute.Body(Some(inputs)), validDate)
        == (st.db, SyncRoute.Processed(st.synced, st.failed, if st.errors == [] then None else Some(st.errors)))
  {
  }

  /**
   * End to end: when the client settles a batch with the endpoint's actual
   * response, every record it deletes from the queue is stored on the server.
   */
  lemma DeletedOnlyIfPersisted(m: map<string, PendingWorkout>, batch: seq<PendingWorkout>, kind: WorkoutType,
                               db: SyncRoute.Db, userId: Option<string>, validDate: string -> bool,
                               writeOk: string -> bool, k: string)
    requires k in m
    requires var resp := SyncRoute.Respond(db, userId, SyncRoute.Body(Some(Inputs(batch, kind))), validDate);
      k !in Settle(m, batch, ClientSees(resp.1), writeOk)
    ensures var resp := SyncRoute.Respond(db, userId, SyncRoute.Body(Some(Inputs(batch, kind))), validDate);
      SyncRoute.HasLocalId(resp.0.workouts, k)
  {
    var inputs := Inputs(batch, kind);
    var resp := SyncRoute.Respond(db, userId, SyncRoute.Body(Some(inputs)), validDate);
    var outcome := ClientSees(resp.1);
    SettleKeys(m, batch, outcome, writeOk);
    assert Acknowledged(batch, outcome, writeOk, k);
    var st := SyncRoute.ProcessAll(db, userId.value, inputs, validDate);
    RespondProcessed(db, userId, inputs, validDate);
    var i :| 0 <= i < |batch| && batch[i].localId == k;
    assert inputs[i].localId == k;
    forall e | e in st.errors ensures e.localId != k {
      var j :| 0 <= j < |st.errors| && st.errors[j] == e;
      assert ErrorIds(st.errors)[j] == e.localId;
    }
    SyncRoute.UnreportedInputsArePersisted(db, userId.value, inputs, validDate, k);
  }

  /**
   * A batch of more than 50 workouts of one type is refused by the endpoint,
   * so the client keeps all of them queued and counts them all as failed,
   * on every attempt.
   */
  lemma OversizedBatchStaysQueued(m: map<string, PendingWorkout>, batch: seq<PendingWorkout>, kind: WorkoutType,
                                  db: SyncRoute.Db, userId: string, validDate: string -> bool,
                                  writeOk: string -> bool)
    requires |batch| > SyncRoute.MaxBatchSize && userId != ""
    ensures var resp := SyncRoute.Respond(db, Some(userId), SyncRoute.Body(Some(Inputs(batch, kind))), validDate);
      resp.0 == db && ClientSees(resp.1) == Rejected &&
      Settle(m, batch, ClientSees(resp.1), writeOk) == m && FailedOf(batch, ClientSees(resp.1)) == |batch|
  {
    RejectedChangesNothing(m, batch, writeOk);
  }

  class OfflineSyncController {
    const store: PendingStore
    const enableAutoSync: bool
    const hasCompletionCallback: bool
    var isOnline: bool
    var pendingCount: nat
    var isSyncing: bool
    var syncError: Option<SyncError>
    /** The `(synced, failed)` pairs passed to `onSyncComplete`, oldest first. */
    var completions: seq<(nat, nat)>
    /** The `workouts` arrays of the requests sent, oldest first. */
    var requests: seq<seq<SyncInput>>

    ghost predicate Valid()
      reads this, store
    {
      store.Valid()
    }

    constructor (store: PendingStore, online: bool, enableAutoSync: bool, hasCompletionCallback: bool)
      requires store.Valid()
      ensures Valid() && this.store == store
      ensures this.enableAutoSync == enableAutoSync && this.hasCompletionCallback == hasCompletionCallback
      ensures isOnline == online && pendingCount == 0 && !isSyncing && syncError == None
      ensures completions == [] && requests == []
    {
      this.store := store;
      this.enableAutoSync := enableAutoSync;
      this.hasCompletionCallback := hasCompletionCallback;
      isOnline := online;
      pendingCount := 0;
      isSyncing := false;
      syncError := None;
      completions := [];
      requests := [];
    }

    /** `updatePendingCount`: the store's count, which reads as 0 when the store fails. */
    method UpdatePendingCount(countOk: bool)
      modifies this
      ensures pendingCount == if countOk then |store.records| else 0
      ensures isOnline == old(isOnline) && isSyncing == old(isSyncing) && syncError == old(syncError)
      ensures completions == old(completions) && requests == old(requests)
    {
      pendingCount := store.GetPendingWorkoutCount(countOk);
    }

    /** Deletes the acknowledged records of a batch, or counts a retry on each when the request threw. */
    method SettleBatch(batch: seq<PendingWorkout>, outcome: FetchOutcome, writeOk: string -> bool)
      requires Valid()
      modifies store
      ensures Valid()
      ensures store.records == Settle(old(store.records), batch, outcome, writeOk)
    {
      ghost var m0 := store.records;
      var i := 0;
      while i < |batch|
        invariant 0 <= i <= |batch|
        invariant Valid()
        invariant store.records == Settle(m0, batch[..i], outcome, writeOk)
      {
        var id := batch[i].localId;
        assert batch[..i + 1][..i] == batch[..i];
        match outcome {
          case Accepted(_, _, errs) =>
            if !Errored(errs, id) {
              store.DeletePendingWorkout(id, writeOk(id));
            }
          case Rejected =>
          case Threw =>
            store.IncrementRetryCount(id, writeOk(id));
        }
        i := i + 1;
      }
      assert batch[..i] == batch;
    }

    /** Sends one batch, unless it is empty, and settles it. */
    method SyncBatch(batch: seq<PendingWorkout>, kind: WorkoutType, outcome: FetchOutcome, writeOk: string -> bool)
      returns (synced: nat, failed: nat)
      requires Valid()
      modifies this, store
      ensures Valid()
      ensures requests == old(requests) + RequestFor(batch, kind)
      ensures store.records == Settle(old(store.records), batch, outcome, writeOk)
      ensures synced == SyncedOf(batch, outcome) && failed == FailedOf(batch, outcome)
      ensures isOnline == old(isOnline) && pendingCount == old(pendingCount) && isSyncing == old(isSyncing)
      ensures syncError == old(syncError) && completions == old(completions)
    {
      synced, failed := 0, 0;
      if |batch| > 0 {
        requests := requests + [Inputs(batch, kind)];
        match outcome {
          case Accepted(s, f, _) =>
            synced, failed := s, f;
          case Rejected =>
            failed := |batch|;
          case Threw =>
            failed := |batch|;
        }
        SettleBatch(batch, outcome, writeOk);
      }
    }

    /** Sends the treadmill batch and then the strength batch, settling each. */
    method SendBatches(treadmillBatch: seq<PendingWorkout>, strengthBatch: seq<PendingWorkout>,
                       treadmillOutcome: FetchOutcome, strengthOutcome: FetchOutcome, writeOk: string -> bool)
      returns (synced: nat, failed: nat)
      requires Valid()
      modifies this, store
      ensures Valid()
      ensures requests == old(requests) + RequestFor(treadmillBatch, Treadmill) + RequestFor(strengthBatch, Strength)
      ensures store.records ==
        Settle(Settle(old(store.records), treadmillBatch, treadmillOutcome, writeOk), strengthBatch, strengthOutcome, writeOk)
      ensures synced == SyncedOf(treadmillBatch, treadmillOutcome) + SyncedOf(strengthBatch, strengthOutcome)
      ensures failed == FailedOf(treadmillBatch, treadmillOutcome) + FailedOf(strengthBatch, strengthOutcome)
      ensures isOnline == old(isOnline) && isSyncing == old(isSyncing) && pendingCount == old(pendingCount)
      ensures syncError == old(syncError) && completions == old(completions)
    {
      var tSynced, tFailed := SyncBatch(treadmillBatch, Treadmill, treadmillOutcome, writeOk);
      var sSynced, sFailed := SyncBatch(strengthBatch, Strength, strengthOutcome, writeOk);
      synced := tSynced + sSynced;
      failed := tFailed + sFailed;
    }

    /** The part of a sync after a non-empty queue was read: both batches, the count, the report. */
    method SyncQueue(pending: seq<PendingWorkout>, treadmillOutcome: FetchOutcome, strengthOutcome: FetchOutcome,
                     writeOk: string -> bool, countOk: bool)
      requires Valid()
      modifies this, store
      ensures Valid()
      ensures requests == old(requests) + Requests(pending)
      ensures store.records == AfterSync(old(store.records), pending, treadmillOutcome, strengthOutcome, writeOk)
      ensures pendingCount == (if countOk then |store.records| else 0)
      ensures completions == old(completions) +
        (if hasCompletionCallback
         then [(SyncedTotal(pending, treadmillOutcome, strengthOutcome),
                FailedTotal(pending, treadmillOutcome, strengthOutcome))]
         else [])
      ensures syncError == if FailedTotal(pending, treadmillOutcome, strengthOutcome) > 0
        then Some(FailedToSync(FailedTotal(pending, treadmillOutcome, strengthOutcome))) else old(syncError)
      ensures isOnline == old(isOnline) && isSyncing == old(isSyncing)
    {
      ghost var m0 := store.records;
      SyncOfBatches(m0, pending, treadmillOutcome, strengthOutcome, writeOk);
      var treadmillBatch, strengthBatch := Batch(pending, Treadmill), Batch(pending, Strength);
      var synced, failed := SendBatches(treadmillBatch, strengthBatch, treadmillOutcome, strengthOutcome, writeOk);
      ghost var m1 := store.records;
      assert m1 == AfterSync(m0, pending, treadmillOutcome, strengthOutcome, writeOk);
      Report(synced, failed, countOk);
      assert store.records == m1;
    }

    /** The end of a pass over a non-empty queue: refresh the count, call `onSyncComplete`, record a failure. */
    method Report(synced: nat, failed: nat, countOk: bool)
      modifies this
      ensures pendingCount == (if countOk then |store.records| else 0)
      ensures completions == old(completions) + (if hasCompletionCallback then [(synced, failed)] else [])
      ensures syncError == if failed > 0 then Some(FailedToSync(failed)) else old(syncError)
      ensures isOnline == old(isOnline) && isSyncing == old(isSyncing) && requests == old(requests)
    {
      UpdatePendingCount(countOk);
      if hasCompletionCallback {
        completions := completions + [(synced, failed)];
      }
      if failed > 0 {
        syncError := Some(FailedToSync(failed));
      }
    }

    /**
     * `syncPendingWorkouts`: when online and idle, read the queue, send the
     * treadmill batch and then the strength batch, delete what the server
     * acknowledged, refresh the count, report `(synced, failed)` and record an
     * error when anything failed. `pending` is the queue as read.
     */
    method SyncPendingWorkouts(readOk: bool, treadmillOutcome: FetchOutcome, strengthOutcome: FetchOutcome,
                               writeOk: string -> bool, countOk: bool)
      returns (pending: seq<PendingWorkout>)
      requires Valid()
      modifies this, store
      ensures Valid()
      ensures old(!isOnline || isSyncing) ==>
        pending == [] && unchanged(this) && store.records == old(store.records)
      ensures old(isOnline && !isSyncing) ==>
        && (readOk ==> Lists(pending, old(store.records)) && SortedByTime(pending))
        && (!readOk ==> pending == [])
        && requests == old(requests) + Requests(pending)
        && isOnline && !isSyncing
      ensures old(isOnline && !isSyncing) && pending == [] ==>
        store.records == old(store.records) && pendingCount == old(pendingCount) && syncError == None
        && completions == old(completions)
      ensures old(isOnline && !isSyncing) && pending != [] ==>
        && store.records == AfterSync(old(store.records), pending, treadmillOutcome, strengthOutcome, writeOk)
        && pendingCount == (if countOk then |store.records| else 0)
        && completions == old(completions) +
             (if hasCompletionCallback
              then [(SyncedTotal(pending, treadmillOutcome, strengthOutcome),
                     FailedTotal(pending, treadmillOutcome, strengthOutcome))]
              else [])
        && syncError == (if FailedTotal(pending, treadmillOutcome, strengthOutcome) > 0
                         then Some(FailedToSync(FailedTotal(pending, treadmillOutcome, strengthOutcome))) else None)
    {
      pending := [];
      if !isOnline || isSyncing {
        return;
      }
      isSyncing, syncError := true, None;
      pending := store.GetPendingWorkouts(readOk);
      if |pending| == 0 {
        assert Requests(pending) == [];
        isSyncing := false;
        return;
      }
      SyncQueue(pending, treadmillOutcome, strengthOutcome, writeOk, countOk);
      isSyncing := false;
    }

    /** The `online` event: mark online, clear the error and, with auto-sync on, sync. */
    method HandleOnline(readOk: bool, treadmillOutcome: FetchOutcome, strengthOutcome: FetchOutcome,
                        writeOk: string -> bool, countOk: bool)
      returns (pending: seq<PendingWorkout>)
      requires Valid()
      modifies this, store
      ensures Valid() && isOnline
      ensures !enableAutoSync ==>
        pending == [] && syncError == None && store.records == old(store.records)
        && isSyncing == old(isSyncing) && pendingCount == old(pendingCount)
        && completions == old(completions) && requests == old(requests)
      ensures enableAutoSync && old(isSyncing) ==>
        pending == [] && syncError == None && store.records == old(store.records)
        && isSyncing && pendingCount == old(pendingCount)
        && completions == old(completions) && requests == old(requests)
      ensures enableAutoSync && !old(isSyncing) ==>
        && (readOk ==> Lists(pending, old(store.records)) && SortedByTime(pending))
        && (!readOk ==> pending == [])
        && requests == old(requests) + Requests(pending) && !isSyncing
      ensures enableAutoSync && !old(isSyncing) && pending == [] ==>
        store.records == old(store.records) && pendingCount == old(pendingCount) && syncError == None
        && completions == old(completions)
      ensures enableAutoSync && !old(isSyncing) && pending != [] ==>
        && store.records == AfterSync(old(store.records), pending, treadmillOutcome, strengthOutcome, writeOk)
        && pendingCount == (if countOk then |store.records| else 0)
        && completions == old(completions) +
             (if hasCompletionCallback
              then [(SyncedTotal(pending, treadmillOutcome, strengthOutcome),
                     FailedTotal(pending, treadmillOutcome, strengthOutcome))]
              else [])
        && syncError == (if FailedTotal(pending, treadmillOutcome, strengthOutcome) > 0
                         then Some(FailedToSync(FailedTotal(pending, treadmillOutcome, strengthOutcome))) else None)
    {
      isOnline, syncError := true, None;
      pending := [];
      if enableAutoSync {
        pending := SyncPendingWorkouts(readOk, treadmillOutcome, strengthOutcome, writeOk, countOk);
      }
    }

    /** The `offline` event. */
    method HandleOffline()
      modifies this
      ensures !isOnline
      ensures pendingCount == old(pendingCount) && isSyncing == old(isSyncing) && syncError == old(syncError)
      ensures completions == old(completions) && requests == old(requests)
    {
      isOnline := false;
    }

    /** Whether the periodic timer runs and, on a tick, starts a sync. */
    predicate TickSyncs()
      reads this
    {
      enableAutoSync && isOnline && pendingCount > 0
    }

    /** One tick of the periodic timer: sync when auto-sync is on, online, and something is pending. */
    method IntervalTick(readOk: bool, treadmillOutcome: FetchOutcome, strengthOutcome: FetchOutcome,
                        writeOk: string -> bool, countOk: bool)
      returns (pending: seq<PendingWorkout>)
      requires Valid()
      modifies this, store
      ensures Valid()
      ensures !old(TickSyncs()) ==> pending == [] && unchanged(this) && store.records == old(store.records)
      ensures old(TickSyncs()) && old(isSyncing) ==>
        pending == [] && unchanged(this) && store.records == old(store.records)
      ensures old(TickSyncs()) && !old(isSyncing) ==>
        && (readOk ==> Lists(pending, old(store.records)) && SortedByTime(pending))
        && (!readOk ==> pending == [])
        && requests == old(requests) + Requests(pending) && isOnline && !isSyncing
      ensures old(TickSyncs()) && !old(isSyncing) && pending == [] ==>
        store.records == old(store.records) && pendingCount == old(pendingCount) && syncError == None
        && completions == old(completions)
      ensures old(TickSyncs()) && !old(isSyncing) && pending != [] ==>
        && store.records == AfterSync(old(store.records), pending, treadmillOutcome, strengthOutcome, writeOk)
        && pendingCount == (if countOk then |store.records| else 0)
        && completions == old(completions) +
             (if hasCompletionCallback
              then [(SyncedTotal(pending, treadmillOutcome, strengthOutcome),
                     FailedTotal(pending, treadmillOutcome, strengthOutcome))]
              else [])
        && syncError == (if FailedTotal(pending, treadmillOutcome, strengthOutcome) > 0
                         then Some(FailedToSync(FailedTotal(pending, treadmillOutcome, strengthOutcome))) else None)
    {
      pending := [];
      if enableAutoSync && isOnline && pendingCount > 0 {
        pending := SyncPendingWorkouts(readOk, treadmillOutcome, strengthOutcome, writeOk, countOk);
      }
    }

    /** Going online with auto-sync on refreshes the count before the timer starts. */
    method StartAutoSync(countOk: bool)
      modifies this
      ensures enableAutoSync && isOnline ==> pendingCount == if countOk then |store.records| else 0
      ensures !(enableAutoSync && isOnline) ==> pendingCount == old(pendingCount)
      ensures isOnline == old(isOnline) && isSyncing == old(isSyncing) && syncError == old(syncError)
      ensures completions == old(completions) && requests == old(requests)
    {
      if enableAutoSync && isOnline {
        UpdatePendingCount(countOk);
      }
    }
  }
}
