/**
 * The per-user fixed-window rate limiter of the AI plan-generation endpoint
 * (`/api/ai/generate`): at most 10 generations per user per 24-hour window,
 * kept in an in-memory map from user id to `{count, resetTime}`. The clock
 * reading `now` (milliseconds) is a parameter.
 */
module AiGenerate {
  import opened Common

  const RateLimit: nat := 10
  const RateLimitWindow: int := 24 * 60 * 60 * 1000

  /** A user's window: calls counted so far and the instant after which the window restarts. */
  datatype Entry = Entry(count: nat, resetTime: int)

  /** The answer of `checkRateLimit`. */
  datatype Decision = Decision(allowed: bool, remaining: Option<int>)

  /** `checkRateLimit` on one user's entry: the entry stored afterwards and the decision. */
  function Check(entry: Option<Entry>, now: int): (r: (Entry, Decision))
    ensures r.1.allowed <==> entry.None? || now > entry.value.resetTime || entry.value.count < RateLimit
    ensures r.1.allowed ==> r.1.remaining == Some(RateLimit - r.0.count)
    ensures !r.1.allowed ==> r.1.remaining.None? && r.0 == entry.value
    ensures entry.None? || now > entry.value.resetTime ==> r.0 == Entry(1, now + RateLimitWindow)
    ensures entry.Some? && now <= entry.value.resetTime && entry.value.count < RateLimit ==>
              r.0 == entry.value.(count := entry.value.count + 1)
  {
    if entry.None? || now > entry.value.resetTime then
      (Entry(1, now + RateLimitWindow), Decision(true, Some(RateLimit - 1)))
    else if entry.value.count >= RateLimit then
      (entry.value, Decision(false, None))
    else
      var e := entry.value.(count := entry.value.count + 1);
      (e, Decision(true, Some(RateLimit - e.count)))
  }

  /** A stored entry: at least one call counted and no more than the limit. */
  predicate WellFormed(e: Entry) {
    1 <= e.count <= RateLimit
  }

  /** Every check keeps the entry well formed, so `remaining` is never negative. */
  lemma CheckKeepsWellFormed(entry: Option<Entry>, now: int)
    requires entry.Some? ==> WellFormed(entry.value)
    ensures WellFormed(Check(entry, now).0)
    ensures Check(entry, now).1.allowed ==> 0 <= Check(entry, now).1.remaining.value < RateLimit
  {
  }

  /** A new window starts only strictly after `resetTime`: at `now == resetTime` the old window still counts. */
  lemma NoResetAtResetTime(e: Entry)
    requires e.count >= RateLimit
    ensures Check(Some(e), e.resetTime) == (e, Decision(false, None))
    ensures Check(Some(e), e.resetTime + 1) == (Entry(1, e.resetTime + 1 + RateLimitWindow), Decision(true, Some(9)))
  {
  }

  /** The entry after a sequence of checks at the instants `times`, and how many of them were allowed. */
  function Replay(entry: Option<Entry>, times: seq<int>): (Option<Entry>, nat)
  {
    if times == [] then (entry, 0)
    else
      var (e, n) := Replay(entry, times[..|times| - 1]);
      var (e', d) := Check(e, times[|times| - 1]);
      (Some(e'), n + if d.allowed then 1 else 0)
  }

  /**
   * Within one window the allowances are bounded by what is left of it: the
   * window's end stays put and the count grows by the number allowed.
   */
  lemma {:induction false} ReplayWithinWindow(e: Entry, times: seq<int>)
    requires e.count <= RateLimit
    requires forall i :: 0 <= i < |times| ==> times[i] <= e.resetTime
    ensures var (e', n) := Replay(Some(e), times);
      e'.Some? && e'.value.resetTime == e.resetTime && e'.value.count == e.count + n && e'.value.count <= RateLimit
  {
    if times != [] {
      ReplayWithinWindow(e, times[..|times| - 1]);
    }
  }

  /**
   * At most 10 calls are allowed in a window: of all the checks made from the
   * one that opens a window at `start` up to its end `start + 24h`, no more
   * than `RateLimit` are allowed.
   */
  lemma AtMostLimitPerWindow(entry: Option<Entry>, start: int, times: seq<int>)
    requires entry.None? || start > entry.value.resetTime
    requires forall i :: 0 <= i < |times| ==> times[i] <= start + RateLimitWindow
    ensures Replay(entry, [start] + times).1 <= RateLimit
  {
    var window := Entry(1, start + RateLimitWindow);
    assert Replay(entry, [start]) == (Some(window), 1) by {
      assert [start][..0] == [];
    }
    ReplayWithinWindow(window, times);
    ReplayPrefix(entry, [start], times);
  }

  /** Replaying `a + b` replays `a` and then `b` from where `a` left off. */
  lemma {:induction false} ReplayPrefix(entry: Option<Entry>, a: seq<int>, b: seq<int>)
    ensures var (e, n) := Replay(entry, a);
      Replay(entry, a + b) == (Replay(e, b).0, n + Replay(e, b).1)
  {
    if b != [] {
      ReplayPrefix(entry, a, b[..|b| - 1]);
      assert (a + b)[..|a + b| - 1] == a + b[..|b| - 1];
    } else {
      assert a + b == a;
    }
  }

  /** What `req.json()` and the request schema made of the body. */
  datatype Body = Unreadable | Invalid | Valid

  datatype GenerateResponse =
    | Unauthorized                           // 401
    | ServiceUnavailable                     // 503
    | RateLimited                            // 429
    | InvalidRequest                         // 400
    | Generated(remainingHeader: int)        // 200, `X-RateLimit-Remaining`
    | GenerationFailed                       // 500

  /** The answer of `GET /api/ai/generate`. */
  datatype Availability = NotSignedIn | Availability(available: bool, remaining: int, limit: nat)

  class RateLimitStore {
    var entries: map<string, Entry>

    ghost predicate Valid()
      reads this
    {
      forall u :: u in entries ==> WellFormed(entries[u])
    }

    constructor ()
      ensures Valid() && entries == map[]
    {
      entries := map[];
    }

    function Lookup(userId: string): (r: Option<Entry>)
      reads this
      ensures r.Some? <==> userId in entries
      ensures r.Some? ==> r.value == entries[userId]
    {
      if userId in entries then Some(entries[userId]) else None
    }

    /** `checkRateLimit`: only the caller's entry may change. */
    method CheckRateLimit(userId: string, now: int) returns (d: Decision)
      requires Valid()
      modifies this
      ensures Valid()
      ensures var (e, d') := Check(old(Lookup(userId)), now); entries == old(entries)[userId := e] && d == d'
    {
      var userLimit := Lookup(userId);
      CheckKeepsWellFormed(userLimit, now);
      if userLimit.None? || now > userLimit.value.resetTime {
        entries := entries[userId := Entry(1, now + RateLimitWindow)];
        return Decision(true, Some(RateLimit - 1));
      }
      if userLimit.value.count >= RateLimit {
        return Decision(false, None);
      }
      var e := userLimit.value.(count := userLimit.value.count + 1);
      entries := entries[userId := e];
      d := Decision(true, Some(RateLimit - e.count));
    }

    /**
     * `POST /api/ai/generate`: authentication, service availability, then the
     * rate limit, and only then the body; a call that passes the limit has
     * used up quota whatever its body. `generated` says whether the
     * generation call returned.
     */
    method Post(userId: Option<string>, aiAvailable: bool, now: int, body: Body, generated: bool)
      returns (resp: GenerateResponse)
      requires Valid()
      modifies this
      ensures Valid()
      ensures userId.None? || userId == Some("") || !aiAvailable ==> entries == old(entries)
      ensures userId.None? || userId == Some("") ==> resp == Unauthorized
      ensures userId.Some? && userId != Some("") && !aiAvailable ==> resp == ServiceUnavailable
      ensures userId.Some? && userId != Some("") && aiAvailable ==>
        var (e, d) := Check(old(Lookup(userId.value)), now);
        && entries == old(entries)[userId.value := e]
        && resp == (if !d.allowed then RateLimited
                    else if body.Unreadable? then GenerationFailed
                    else if body.Invalid? then InvalidRequest
                    else if !generated then GenerationFailed
                    else Generated(d.remaining.GetOr(0)))
    {
      if userId.None? || userId.value == "" {
        return Unauthorized;
      }
      if !aiAvailable {
        return ServiceUnavailable;
      }
      var rateLimit := CheckRateLimit(userId.value, now);
      if !rateLimit.allowed {
        return RateLimited;
      }
      match body {
        case Unreadable => resp := GenerationFailed;
        case Invalid => resp := InvalidRequest;
        case Valid => resp := if generated then Generated(rateLimit.remaining.GetOr(0)) else GenerationFailed;
      }
    }

    /** `GET /api/ai/generate`: reports availability, and consumes quota like a generation. */
    method Get(userId: Option<string>, aiAvailable: bool, now: int) returns (resp: Availability)
      requires Valid()
      modifies this
      ensures Valid()
      ensures userId.None? || userId == Some("") ==> resp == NotSignedIn && entries == old(entries)
      ensures userId.Some? && userId != Some("") ==>
        var (e, d) := Check(old(Lookup(userId.value)), now);
        entries == old(entries)[userId.value := e] &&
        resp == Availability(aiAvailable, d.remaining.GetOr(0), RateLimit)
    {
      if userId.None? || userId.value == "" {
        return NotSignedIn;
      }
      var rateLimit := CheckRateLimit(userId.value, now);
      resp := Availability(aiAvailable, rateLimit.remaining.GetOr(0), RateLimit);
    }
  }
}
