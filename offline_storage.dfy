/**
 * The device's durable queue of workouts awaiting sync: the `pendingWorkouts`
 * object store, keyed by `localId`, with an index on `timestamp`.
 *
 * The store is a map from key to record held by a `PendingStore` object. A
 * failing storage request (quota, unavailable database) is the `ok == false`
 * parameter of each operation: a failed save is reported to the caller, every
 * other failure is swallowed and leaves the store as it was.
 */
module OfflineStorage {
  import opened Common
  import opened Workouts

  /** Age after which a queued workout is swept: seven days in milliseconds. */
  const RetentionMs: int := 7 * 24 * 60 * 60 * 1000

  datatype StorageError = StorageUnavailable

  /** Every record is stored under its own `localId` (the store's key path). */
  ghost predicate KeyedBy(m: map<string, PendingWorkout>) {
    forall k :: k in m ==> m[k].localId == k
  }

  /** The store after `put(w)`: the record under `w.localId` is replaced or created. */
  function Put(m: map<string, PendingWorkout>, w: PendingWorkout): (r: map<string, PendingWorkout>)
    ensures r.Keys == m.Keys + {w.localId} && r[w.localId] == w
    ensures forall k :: k in m && k != w.localId ==> r[k] == m[k]
    ensures |r| == |m| + (if w.localId in m then 0 else 1)
    ensures KeyedBy(m) ==> KeyedBy(r)
  {
    m[w.localId := w]
  }

  /** The store after `delete(id)`. */
  function Remove(m: map<string, PendingWorkout>, id: string): (r: map<string, PendingWorkout>)
    ensures r.Keys == m.Keys - {id}
    ensures forall k :: k in r ==> r[k] == m[k]
    ensures id !in m ==> r == m
    ensures KeyedBy(m) ==> KeyedBy(r)
  {
    m - {id}
  }

  /** The store after the read-modify-write of `incrementRetryCount(id)`. */
  function Bump(m: map<string, PendingWorkout>, id: string): (r: map<string, PendingWorkout>)
    ensures r.Keys == m.Keys
    ensures id in m ==> r[id] == m[id].(retryCount := m[id].retryCount + 1)
    ensures forall k :: k in m && k != id ==> r[k] == m[k]
    ensures id !in m ==> r == m
    ensures KeyedBy(m) ==> KeyedBy(r)
  {
    if id in m then m[id := m[id].(retryCount := m[id].retryCount + 1)] else m
  }

  /** The store after the age sweep: the records queued at or after `threshold`. */
  function Sweep(m: map<string, PendingWorkout>, threshold: int): (r: map<string, PendingWorkout>)
    ensures forall k :: k in r <==> k in m && m[k].timestamp >= threshold
    ensures forall k :: k in r ==> r[k] == m[k]
    ensures KeyedBy(m) ==> KeyedBy(r)
  {
    map k | k in m && m[k].timestamp >= threshold :: m[k]
  }

  /** `ws` lists the records of `m`: each once, each as stored. */
  ghost predicate Lists(ws: seq<PendingWorkout>, m: map<string, PendingWorkout>) {
    ListsPart(ws, m, m.Keys)
  }

  /** `ws` lists, once each and as stored, the records of `m` under the keys `done`. */
  ghost predicate ListsPart(ws: seq<PendingWorkout>, m: map<string, PendingWorkout>, done: set<string>) {
    && (forall i :: 0 <= i < |ws| ==> ws[i].localId in m && m[ws[i].localId] == ws[i])
    && (forall i, j :: 0 <= i < j < |ws| ==> ws[i].localId != ws[j].localId)
    && KeysOf(ws) == done
  }

  /** The keys of the listed records. */
  ghost function KeysOf(ws: seq<PendingWorkout>): set<string> {
    set i | 0 <= i < |ws| :: ws[i].localId
  }

  ghost predicate SortedByTime(ws: seq<PendingWorkout>) {
    forall i, j :: 0 <= i < j < |ws| ==> ws[i].timestamp <= ws[j].timestamp
  }

  /** Where a record stamped `t` goes in `s`: after every record stamped no later than `t`. */
  function InsertPos(s: seq<PendingWorkout>, t: int): (p: nat)
    ensures p <= |s|
    ensures forall i :: 0 <= i < p ==> s[i].timestamp <= t
    ensures p < |s| ==> s[p].timestamp > t
  {
    if s == [] || s[0].timestamp > t then 0 else 1 + InsertPos(s[1..], t)
  }

  /** Where each element of `s[..p] + [x] + s[p..]` comes from. */
  lemma InsertAt(s: seq<PendingWorkout>, p: nat, x: PendingWorkout)
    requires p <= |s|
    ensures var n := s[..p] + [x] + s[p..];
      && |n| == |s| + 1
      && (forall i :: 0 <= i < p ==> n[i] == s[i])
      && n[p] == x
      && (forall i :: p < i < |n| ==> n[i] == s[i - 1])
  {
  }

  lemma KeysOfInsert(s: seq<PendingWorkout>, p: nat, x: PendingWorkout)
    requires p <= |s|
    ensures KeysOf(s[..p] + [x] + s[p..]) == KeysOf(s) + {x.localId}
  {
    var n := s[..p] + [x] + s[p..];
    InsertAt(s, p, x);
    forall k | k in KeysOf(s) ensures k in KeysOf(n) {
      var i :| 0 <= i < |s| && s[i].localId == k;
      if i < p { assert n[i].localId == k; } else { assert n[i + 1].localId == k; }
    }
    assert n[p].localId == x.localId;
  }

  /** Inserting a stored record not yet listed extends the listing by its key. */
  lemma InsertKeepsListing(ws: seq<PendingWorkout>, m: map<string, PendingWorkout>, done: set<string>,
                           x: PendingWorkout, p: nat)
    requires ListsPart(ws, m, done) && p <= |ws|
    requires x.localId in m && m[x.localId] == x && x.localId !in done
    ensures ListsPart(ws[..p] + [x] + ws[p..], m, done + {x.localId})
  {
    var n := ws[..p] + [x] + ws[p..];
    InsertAt(ws, p, x);
    KeysOfInsert(ws, p, x);
    forall i, j | 0 <= i < j < |n| ensures n[i].localId != n[j].localId {
      if i == p {
        assert n[j].localId in KeysOf(ws);
      } else if j == p {
        assert n[i].localId in KeysOf(ws);
      }
    }
  }

  /** Inserting at `InsertPos` keeps a listing ordered by time. */
  lemma {:induction false} InsertKeepsSorted(ws: seq<PendingWorkout>, x: PendingWorkout)
    requires SortedByTime(ws)
    ensures SortedByTime(ws[..InsertPos(ws, x.timestamp)] + [x] + ws[InsertPos(ws, x.timestamp)..])
  {
    var p := InsertPos(ws, x.timestamp);
    InsertAt(ws, p, x);
    var n := ws[..p] + [x] + ws[p..];
    forall i, j | 0 <= i < j < |n|
      ensures n[i].timestamp <= n[j].timestamp
    {
      if p < |ws| {
        assert ws[p].timestamp > x.timestamp;
      }
    }
  }

  /** The sweep applied only to the records whose keys are in `seen`. */
  ghost function SweepSeen(m: map<string, PendingWorkout>, seen: set<string>, t: int): map<string, PendingWorkout> {
    map k | k in m && (k !in seen || m[k].timestamp >= t) :: m[k]
  }

  /** One step of the sweep loop: looking at the stored record `w`. */
  lemma SweepSeenStep(m: map<string, PendingWorkout>, seen: set<string>, t: int, w: PendingWorkout)
    requires w.localId in m && m[w.localId] == w && w.localId !in seen
    ensures SweepSeen(m, seen + {w.localId}, t) ==
      if w.timestamp < t then SweepSeen(m, seen, t) - {w.localId} else SweepSeen(m, seen, t)
  {
  }

  lemma SweepSeenAll(m: map<string, PendingWorkout>, t: int)
    ensures SweepSeen(m, m.Keys, t) == Sweep(m, t)
  {
  }

  /** One pass of the sweep loop over the listing `ws` of `m`: look at `ws[i]`, delete it if too old. */
  lemma SweepAdvance(ws: seq<PendingWorkout>, m: map<string, PendingWorkout>, i: nat, t: int,
                     swept: map<string, PendingWorkout>)
    requires Lists(ws, m) && i < |ws|
    requires swept == SweepSeen(m, KeysOf(ws[..i]), t)
    ensures SweepSeen(m, KeysOf(ws[..i + 1]), t) == if ws[i].timestamp < t then swept - {ws[i].localId} else swept
    ensures ws[i].timestamp < t ==> |swept - {ws[i].localId}| == |swept| - 1
  {
    var w := ws[i];
    KeysOfInsert(ws[..i], i, w);
    assert ws[..i][..i] + [w] + ws[..i][i..] == ws[..i + 1];
    assert w.localId !in KeysOf(ws[..i]);
    SweepSeenStep(m, KeysOf(ws[..i]), t, w);
    if w.timestamp < t {
      RemoveOneSize(swept, w.localId);
    }
  }

  lemma RemoveOneSize(m: map<string, PendingWorkout>, k: string)
    requires k in m
    ensures |m - {k}| == |m| - 1
  {
    assert (m - {k}).Keys == m.Keys - {k};
  }

  class PendingStore {
    var records: map<string, PendingWorkout>

    ghost predicate Valid()
      reads this
    {
      KeyedBy(records)
    }

    constructor ()
      ensures Valid() && records == map[]
    {
      records := map[];
    }

    /** `savePendingWorkout`: put by key; a failure is rethrown to the caller. */
    method SavePendingWorkout(w: PendingWorkout, ok: bool) returns (r: Result<(), StorageError>)
      requires Valid()
      modifies this
      ensures Valid()
      ensures ok ==> r.Ok? && records == Put(old(records), w)
      ensures !ok ==> r == Err(StorageUnavailable) && records == old(records)
      ensures |records| == |old(records)| + (if ok && w.localId !in old(records) then 1 else 0)
    {
      if !ok {
        return Err(StorageUnavailable);
      }
      records := records[w.localId := w];
      r := Ok(());
    }

    /** `getPendingWorkouts`: every record, oldest `timestamp` first; `[]` on failure. */
    method GetPendingWorkouts(ok: bool) returns (ws: seq<PendingWorkout>)
      requires Valid()
      ensures ok ==> Lists(ws, records) && SortedByTime(ws)
      ensures !ok ==> ws == []
    {
      ws := [];
      if !ok {
        return;
      }
      var todo := records.Keys;
      while todo != {}
        invariant todo <= records.Keys
        invariant ListsPart(ws, records, records.Keys - todo)
        invariant SortedByTime(ws)
        decreases todo
      {
        var k :| k in todo;
        var x := records[k];
        var p := InsertPos(ws, x.timestamp);
        InsertKeepsListing(ws, records, records.Keys - todo, x, p);
        InsertKeepsSorted(ws, x);
        ws := ws[..p] + [x] + ws[p..];
        todo := todo - {k};
      }
      assert records.Keys - {} == records.Keys;
    }

    /** `db.getAll`: every record, in no particular order. */
    method ReadAll() returns (ws: seq<PendingWorkout>)
      requires Valid()
      ensures Lists(ws, records)
    {
      ws := [];
      var todo := records.Keys;
      while todo != {}
        invariant todo <= records.Keys
        invariant ListsPart(ws, records, records.Keys - todo)
        decreases todo
      {
        var k :| k in todo;
        InsertKeepsListing(ws, records, records.Keys - todo, records[k], |ws|);
        assert ws[..|ws|] + [records[k]] + ws[|ws|..] == ws + [records[k]];
        ws := ws + [records[k]];
        todo := todo - {k};
      }
      assert records.Keys - {} == records.Keys;
    }

    /** `deletePendingWorkout`: removes the record if present; never fails loudly. */
    method DeletePendingWorkout(localId: string, ok: bool)
      requires Valid()
      modifies this
      ensures Valid()
      ensures records == if ok then Remove(old(records), localId) else old(records)
    {
      if ok {
        records := records - {localId};
      }
    }

    /** `clearPendingWorkouts`. */
    method ClearPendingWorkouts(ok: bool)
      requires Valid()
      modifies this
      ensures Valid()
      ensures ok ==> records == map[]
      ensures !ok ==> records == old(records)
    {
      if ok {
        records := map[];
      }
    }

    /** `incrementRetryCount`: read the record, add one to `retryCount`, write it back. */
    method IncrementRetryCount(localId: string, ok: bool)
      requires Valid()
      modifies this
      ensures Valid()
      ensures records == if ok then Bump(old(records), localId) else old(records)
    {
      if !ok {
        return;
      }
      if localId in records {
        var workout := records[localId];
        workout := workout.(retryCount := workout.retryCount + 1);
        records := records[localId := workout];
      }
    }

    /** `getPendingWorkoutCount`: the number of queued records, 0 on failure. */
    method GetPendingWorkoutCount(ok: bool) returns (n: nat)
      ensures n == if ok then |records| else 0
    {
      n := if ok then |records| else 0;
    }

    /**
     * `cleanupOldPendingWorkouts`: within one transaction, delete every record
     * queued before `now - RetentionMs`. A failure aborts the transaction.
     */
    method CleanupOldPendingWorkouts(now: int, ok: bool) returns (deletedCount: nat)
      requires Valid()
      modifies this
      ensures Valid()
      ensures records == if ok then Sweep(old(records), now - RetentionMs) else old(records)
      ensures deletedCount == |old(records)| - |records|
    {
      deletedCount := 0;
      if !ok {
        return;
      }
      var sevenDaysAgo := now - RetentionMs;
      var workouts := ReadAll();
      ghost var m0 := records;
      var i := 0;
      while i < |workouts|
        invariant 0 <= i <= |workouts|
        invariant records == SweepSeen(m0, KeysOf(workouts[..i]), sevenDaysAgo)
        invariant deletedCount + |records| == |m0|
      {
        var workout := workouts[i];
        SweepAdvance(workouts, m0, i, sevenDaysAgo, records);
        if workout.timestamp < sevenDaysAgo {
          records := records - {workout.localId};
          deletedCount := deletedCount + 1;
        }
        i := i + 1;
      }
      assert workouts[..i] == workouts;
      SweepSeenAll(m0, sevenDaysAgo);
    }
  }
}
