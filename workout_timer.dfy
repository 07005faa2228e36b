/**
 * The workout stopwatch (`useWorkoutTimer`): idle, running or paused, with
 * the elapsed whole seconds recomputed on every tick from a start reference,
 * and the `MM:SS` / `H:MM:SS` formatters. Clock readings are milliseconds
 * passed in as `now`.
 */
module WorkoutTimer {
  import opened Common
  import opened Decimal

  datatype TimerState = Idle | Running | Paused

  /** The whole seconds elapsed at `now` since the reference `start`: `Math.floor((now - start) / 1000)`. */
  function ElapsedAt(start: int, now: int): (r: int)
    ensures r * 1000 <= now - start < r * 1000 + 1000
  {
    (now - start) / 1000
  }

  /** Resuming from `elapsed` seconds at `resumedAt` continues the count where it stopped. */
  lemma ResumeContinues(elapsed: int, resumedAt: int, now: int)
    ensures ElapsedAt(resumedAt - elapsed * 1000, now) == elapsed + ElapsedAt(resumedAt, now)
  {
    var k := ElapsedAt(resumedAt, now);
    var r := ElapsedAt(resumedAt - elapsed * 1000, now);
    assert r * 1000 <= now - resumedAt + elapsed * 1000 < r * 1000 + 1000;
    assert k * 1000 <= now - resumedAt < k * 1000 + 1000;
    assert (r - elapsed - k) * 1000 < 1000 && (r - elapsed - k) * 1000 > -1000;
  }

  /** Later ticks never show fewer seconds. */
  lemma ElapsedMonotone(start: int, now: int, later: int)
    requires now <= later
    ensures ElapsedAt(start, now) <= ElapsedAt(start, later)
  {
    var a, b := ElapsedAt(start, now), ElapsedAt(start, later);
    assert a * 1000 < b * 1000 + 1000;
  }

  class Stopwatch {
    var state: TimerState
    var elapsedSeconds: int
    /** `startTimeRef`: the instant the count started from, shifted back by the time already counted. */
    var startTime: Option<int>

    constructor ()
      ensures state == Idle && elapsedSeconds == 0 && startTime == None
    {
      state, elapsedSeconds, startTime := Idle, 0, None;
    }

    /** `start`: count from zero, from now. */
    method Start(now: int)
      modifies this
      ensures state == Running && elapsedSeconds == 0 && startTime == Some(now)
    {
      state, elapsedSeconds, startTime := Running, 0, Some(now);
    }

    /** `pause`: only a running timer pauses; the count is kept. */
    method Pause()
      modifies this
      ensures state == if old(state) == Running then Paused else old(state)
      ensures elapsedSeconds == old(elapsedSeconds) && startTime == old(startTime)
    {
      if state == Running {
        state := Paused;
      }
    }

    /** `resume`: only a paused timer resumes, with the reference moved back by the time already counted. */
    method Resume(now: int)
      modifies this
      ensures old(state) == Paused ==> state == Running && startTime == Some(now - old(elapsedSeconds) * 1000)
      ensures old(state) != Paused ==> state == old(state) && startTime == old(startTime)
      ensures elapsedSeconds == old(elapsedSeconds)
    {
      if state == Paused {
        state := Running;
        startTime := Some(now - elapsedSeconds * 1000);
      }
    }

    /** `stop`: back to idle, keeping the count. */
    method Stop()
      modifies this
      ensures state == Idle && startTime == None && elapsedSeconds == old(elapsedSeconds)
    {
      state, startTime := Idle, None;
    }

    /** `reset`: back to idle with the count cleared. */
    method Reset()
      modifies this
      ensures state == Idle && startTime == None && elapsedSeconds == 0
    {
      state, elapsedSeconds, startTime := Idle, 0, None;
    }

    /**
     * One tick of the 100 ms interval, which runs only while the timer is
     * running from a (truthy, so non-zero) start reference.
     */
    method Tick(now: int)
      modifies this
      ensures state == old(state) && startTime == old(startTime)
      ensures old(state) == Running && startTime.Some? && startTime.value != 0 ==>
        elapsedSeconds == ElapsedAt(startTime.value, now)
      ensures !(old(state) == Running && startTime.Some? && startTime.value != 0) ==>
        elapsedSeconds == old(elapsedSeconds)
    {
      if state == Running && startTime.Some? && startTime.value != 0 {
        elapsedSeconds := (now - startTime.value) / 1000;
      }
    }
  }

  /** `formatTime`: whole minutes and seconds, each padded to two digits. */
  function FormatTime(seconds: nat): string {
    Pad2(NatToString(seconds / 60)) + ":" + Pad2(NatToString(seconds % 60))
  }

  /** `formatTimeWithHours`: `H:MM:SS` from one hour up, `MM:SS` below. */
  function FormatTimeWithHours(seconds: nat): string {
    var hours := seconds / 3600;
    var mins := (seconds % 3600) / 60;
    var secs := seconds % 60;
    if hours > 0 then NatToString(hours) + ":" + Pad2(NatToString(mins)) + ":" + Pad2(NatToString(secs))
    else Pad2(NatToString(mins)) + ":" + Pad2(NatToString(secs))
  }

  /** A padded field holds at least two digits and reads back as its number. */
  lemma PaddedValue(n: nat)
    ensures var t := Pad2(NatToString(n)); |t| >= 2 && AllDigits(t) && Value(t) == n
  {
    NatToStringValue(n);
    if n < 10 {
      TwoDigits(n);
    }
  }

  /**
   * `formatTime` prints minutes, a colon and two digits of seconds below 60;
   * the minutes field has at least two digits, and reading both back gives
   * the number formatted.
   */
  lemma FormatTimeReadsBack(seconds: nat)
    ensures var t := FormatTime(seconds);
      && |t| >= 5 && t[|t| - 3] == ':'
      && AllDigits(t[..|t| - 3]) && AllDigits(t[|t| - 2..])
      && Value(t[|t| - 2..]) < 60
      && Value(t[..|t| - 3]) * 60 + Value(t[|t| - 2..]) == seconds
  {
    var m, s := Pad2(NatToString(seconds / 60)), Pad2(NatToString(seconds % 60));
    PaddedValue(seconds / 60);
    TwoDigits(seconds % 60);
    var t := FormatTime(seconds);
    assert t == m + ":" + s;
    assert t[..|t| - 3] == m && t[|t| - 2..] == s;
  }

  /** Below one hour `formatTimeWithHours` prints what `formatTime` prints. */
  lemma WithHoursBelowAnHour(seconds: nat)
    requires seconds < 3600
    ensures FormatTimeWithHours(seconds) == FormatTime(seconds)
    ensures |FormatTimeWithHours(seconds)| == 5
  {
    TwoDigits(seconds / 60);
    TwoDigits(seconds % 60);
  }

  /**
   * From one hour up `formatTimeWithHours` prints hours, then minutes and
   * seconds as two digits each, both below 60, and they read back as the
   * number formatted.
   */
  lemma WithHoursFromAnHour(seconds: nat)
    requires seconds >= 3600
    ensures var t := FormatTimeWithHours(seconds);
      && |t| >= 7 && t[|t| - 6] == ':' && t[|t| - 3] == ':'
      && AllDigits(t[..|t| - 6]) && AllDigits(t[|t| - 5..|t| - 3]) && AllDigits(t[|t| - 2..])
      && Value(t[|t| - 5..|t| - 3]) < 60 && Value(t[|t| - 2..]) < 60
      && Value(t[..|t| - 6]) * 3600 + Value(t[|t| - 5..|t| - 3]) * 60 + Value(t[|t| - 2..]) == seconds
  {
    var hours, mins, secs := seconds / 3600, (seconds % 3600) / 60, seconds % 60;
    var h, m, s := NatToString(hours), Pad2(NatToString(mins)), Pad2(NatToString(secs));
    NatToStringValue(hours);
    TwoDigits(mins);
    TwoDigits(secs);
    FieldsOf(h, m, s);
    var t := FormatTimeWithHours(seconds);
    assert t == h + ":" + m + ":" + s;
    assert Value(t[..|t| - 6]) == hours && Value(t[|t| - 5..|t| - 3]) == mins && Value(t[|t| - 2..]) == secs;
    ClockArithmetic(seconds);
  }

  /** Where the fields sit in `h:mm:ss`. */
  lemma FieldsOf(h: string, m: string, s: string)
    requires |h| >= 1 && |m| == 2 && |s| == 2
    ensures var t := h + ":" + m + ":" + s;
      |t| >= 7 && t[|t| - 6] == ':' && t[|t| - 3] == ':' &&
      t[..|t| - 6] == h && t[|t| - 5..|t| - 3] == m && t[|t| - 2..] == s
  {
  }

  lemma ClockArithmetic(seconds: nat)
    ensures (seconds / 3600) * 3600 + ((seconds % 3600) / 60) * 60 + seconds % 60 == seconds
    ensures (seconds % 3600) / 60 < 60
  {
    var q, r := seconds / 3600, seconds % 3600;
    var a, b := r / 60, r % 60;
    DivMod60(seconds, q * 60 + a, b);
  }

  /** Division by 60 with a known quotient and remainder. */
  lemma DivMod60(n: int, q: int, r: int)
    requires 0 <= r < 60 && n == q * 60 + r
    ensures n / 60 == q && n % 60 == r
  {
  }

  /** The hours field appears exactly from one hour up. */
  lemma HoursShownIffAnHour(seconds: nat)
    ensures var t := FormatTimeWithHours(seconds); seconds >= 3600 <==> |t| >= 6 && t[|t| - 6] == ':'
  {
    if seconds >= 3600 {
      WithHoursFromAnHour(seconds);
    } else {
      WithHoursBelowAnHour(seconds);
    }
  }
}
