/**
 * The per-source rate limiter of the scrapers. The wall clock is an input
 * (`now`, in seconds) and sleeping is the delay `Wait` returns: a clock
 * reading taken after a sleep is `now` plus the time slept so far.
 */
module RateLimiting {
  import opened Wrappers

  /** One minute, the length of a request-count window, in seconds. */
  const Window: real := 60.0

  /** `RateLimitState`: time of the last request, requests in the current window, when the window opened. */
  datatype RateLimitState = RateLimitState(lastRequestTime: Option<real>, requestCount: int, windowStart: Option<real>)

  const Fresh := RateLimitState(None, 0, None)

  /** The sleep that keeps `minDelay` seconds between two requests of a source. */
  function MinDelaySleep(st: RateLimitState, now: real, minDelay: real): (s: real)
    ensures s >= 0.0
    ensures st.lastRequestTime.Some? && now - st.lastRequestTime.value < minDelay ==>
      s == minDelay - (now - st.lastRequestTime.value) && now + s == st.lastRequestTime.value + minDelay
    ensures st.lastRequestTime.None? || now - st.lastRequestTime.value >= minDelay ==> s == 0.0
  {
    if st.lastRequestTime.Some? && now - st.lastRequestTime.value < minDelay
    then minDelay - (now - st.lastRequestTime.value)
    else 0.0
  }

  datatype StepResult = StepResult(state: RateLimitState, delay: real)

  /** What one `wait` does to a source's state, and how long it sleeps in total. */
  function Step(st: RateLimitState, now: real, minDelay: real, maxPerMinute: Option<int>): StepResult {
    var s1 := MinDelaySleep(st, now, minDelay);
    var nowDt := now + s1;
    if maxPerMinute.None? then
      StepResult(RateLimitState(Some(nowDt), st.requestCount + 1, st.windowStart), s1)
    else
      var expired := st.windowStart.None? || nowDt - st.windowStart.value >= Window;
      var windowStart := if expired then nowDt else st.windowStart.value;
      var count := if expired then 0 else st.requestCount;
      if count >= maxPerMinute.value then
        var waitSeconds := windowStart + Window - nowDt;
        var s2 := if waitSeconds > 0.0 then waitSeconds else 0.0;
        var t := nowDt + s2;
        StepResult(RateLimitState(Some(t), 1, Some(t)), s1 + s2)
      else
        StepResult(RateLimitState(Some(nowDt), count + 1, Some(windowStart)), s1)
  }

  /**
   * A wait never sleeps a negative time, records the clock at its end as the
   * last request, and leaves at least `minDelay` seconds since the previous
   * request. Without a per-minute limit it counts one more request; with a
   * limit `m >= 1` the count stays within 1..m.
   */
  lemma StepProperties(st: RateLimitState, now: real, minDelay: real, maxPerMinute: Option<int>)
    ensures var r := Step(st, now, minDelay, maxPerMinute);
      r.delay >= 0.0
      && r.state.lastRequestTime == Some(now + r.delay)
      && (st.lastRequestTime.Some? ==> now + r.delay >= st.lastRequestTime.value + minDelay)
      && (maxPerMinute.None? ==> r.state.requestCount == st.requestCount + 1)
      && (maxPerMinute.Some? && maxPerMinute.value >= 1 ==> r.state.requestCount <= maxPerMinute.value)
      && (maxPerMinute.Some? && st.requestCount >= 0 ==> r.state.requestCount >= 1)
      && (maxPerMinute.Some? ==>
            r.state.windowStart.Some? && now + r.delay - Window < r.state.windowStart.value)
  {
  }

  /** A valid count stays valid across a wait. */
  lemma StepCountBounds(st: RateLimitState, now: real, minDelay: real, maxPerMinute: Option<int>)
    requires st.requestCount >= 0
    requires maxPerMinute.Some? && maxPerMinute.value >= 1 ==> st.requestCount <= maxPerMinute.value
    ensures var c := Step(st, now, minDelay, maxPerMinute).state.requestCount;
      c >= 0 && (maxPerMinute.Some? && maxPerMinute.value >= 1 ==> c <= maxPerMinute.value)
  {
    StepProperties(st, now, minDelay, maxPerMinute);
  }

  /** A full window makes the wait last until the window has run for a minute, and opens a new one. */
  lemma FullWindowWaits(st: RateLimitState, now: real, minDelay: real, m: int)
    requires st.windowStart.Some? && st.requestCount >= m
    requires now + MinDelaySleep(st, now, minDelay) - st.windowStart.value < Window
    ensures var r := Step(st, now, minDelay, Some(m));
      now + r.delay == st.windowStart.value + Window
      && r.state.requestCount == 1 && r.state.windowStart == Some(now + r.delay)
  {
  }

  /** The state after a series of waits at the given clock readings. */
  function Replay(st: RateLimitState, times: seq<real>, minDelay: real, maxPerMinute: Option<int>): RateLimitState
    decreases |times|
  {
    if |times| == 0 then st
    else Step(Replay(st, times[..|times| - 1], minDelay, maxPerMinute), times[|times| - 1], minDelay, maxPerMinute).state
  }

  /** Without a per-minute limit, a source's count is the number of waits since its state was created. */
  lemma {:induction false} UnlimitedCountsWaits(times: seq<real>, minDelay: real)
    ensures Replay(Fresh, times, minDelay, None).requestCount == |times|
    decreases |times|
  {
    if |times| > 0 {
      UnlimitedCountsWaits(times[..|times| - 1], minDelay);
    }
  }

  /** With a limit `m >= 1`, no series of waits takes a source's count past `m`. */
  lemma {:induction false} LimitedCountBounded(times: seq<real>, minDelay: real, m: int)
    requires m >= 1
    ensures 0 <= Replay(Fresh, times, minDelay, Some(m)).requestCount <= m
    decreases |times|
  {
    if |times| > 0 {
      LimitedCountBounded(times[..|times| - 1], minDelay, m);
      StepProperties(Replay(Fresh, times[..|times| - 1], minDelay, Some(m)), times[|times| - 1], minDelay, Some(m));
    }
  }

  /** The dictionary `get_stats` returns; `windowStart` is `None` when the key is absent. */
  datatype Stats = Stats(totalRequests: int, currentWindowRequests: int, lastRequest: Option<real>,
                         windowStart: Option<Option<real>>)

  class RateLimiter {
    const minDelaySeconds: real
    const maxRequestsPerMinute: Option<int>
    var states: map<string, RateLimitState>

    /** Every count is non-negative and, with a limit of at least one, within the limit. */
    predicate Valid()
      reads this
    {
      forall s :: s in states ==>
        states[s].requestCount >= 0
        && (maxRequestsPerMinute.Some? && maxRequestsPerMinute.value >= 1 ==>
              states[s].requestCount <= maxRequestsPerMinute.value)
    }

    constructor(minDelaySeconds: real, maxRequestsPerMinute: Option<int>)
      ensures this.minDelaySeconds == minDelaySeconds && this.maxRequestsPerMinute == maxRequestsPerMinute
      ensures states == map[]
      ensures Valid()
    {
      this.minDelaySeconds := minDelaySeconds;
      this.maxRequestsPerMinute := maxRequestsPerMinute;
      states := map[];
    }

    /** `_get_state`: an unseen source gets a fresh state; nothing else changes. */
    method GetState(source: string) returns (state: RateLimitState)
      modifies this
      requires Valid()
      ensures Valid()
      ensures source in old(states) ==> states == old(states)
      ensures source !in old(states) ==> states == old(states)[source := Fresh]
      ensures state == states[source]
    {
      if source !in states {
        states := states[source := Fresh];
      }
      state := states[source];
    }

    /** `wait`: returns how long it slept; only `source`'s state changes. */
    method Wait(source: string, now: real) returns (delay: real)
      modifies this
      requires Valid()
      ensures Valid()
      ensures var before := if source in old(states) then old(states)[source] else Fresh;
        var r := Step(before, now, minDelaySeconds, maxRequestsPerMinute);
        states == old(states)[source := r.state] && delay == r.delay
    {
      var state := GetState(source);
      ghost var before := state;
      delay := 0.0;
      if state.lastRequestTime.Some? {
        var elapsed := now - state.lastRequestTime.value;
        if elapsed < minDelaySeconds {
          var waitTime := minDelaySeconds - elapsed;
          delay := delay + waitTime;
        }
      }
      assert delay == MinDelaySleep(before, now, minDelaySeconds);
      if maxRequestsPerMinute.Some? {
        var nowDt := now + delay;
        if state.windowStart.None? || nowDt - state.windowStart.value >= Window {
          state := state.(windowStart := Some(nowDt), requestCount := 0);
        }
        if state.requestCount >= maxRequestsPerMinute.value {
          var windowEnd := state.windowStart.value + Window;
          var waitSeconds := windowEnd - nowDt;
          if waitSeconds > 0.0 {
            delay := delay + waitSeconds;
          }
          state := state.(windowStart := Some(now + delay), requestCount := 0);
        }
      }
      state := state.(lastRequestTime := Some(now + delay), requestCount := state.requestCount + 1);
      assert state == Step(before, now, minDelaySeconds, maxRequestsPerMinute).state;
      StepCountBounds(before, now, minDelaySeconds, maxRequestsPerMinute);
      states := states[source := state];
    }

    /** `reset`: with no source every state goes, otherwise only that source's. */
    method Reset(source: Option<string>)
      modifies this
      requires Valid()
      ensures Valid()
      ensures source.None? ==> states == map[]
      ensures source.Some? ==> states == old(states) - {source.value}
    {
      if source.None? {
        states := map[];
      } else if source.value in states {
        states := states - {source.value};
      }
    }

    /** `get_stats`: zeros for an unknown source; the window count doubles as the total for a known one. */
    function GetStats(source: string): (s: Stats)
      reads this
      ensures source !in states ==> s == Stats(0, 0, None, None)
      ensures source in states ==>
        s.totalRequests == s.currentWindowRequests == states[source].requestCount
        && s.lastRequest == states[source].lastRequestTime
        && s.windowStart == Some(states[source].windowStart)
    {
      if source !in states then Stats(0, 0, None, None)
      else
        var state := states[source];
        Stats(state.requestCount, state.requestCount, state.lastRequestTime, Some(state.windowStart))
    }
  }
}
