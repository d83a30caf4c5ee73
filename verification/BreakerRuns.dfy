// What the circuit breaker does over whole runs, told by its fields and the
// times of the events alone: it waits out its backoff, lets one probe through,
// closes after enough successes, and opens by the failures it has seen.
module BreakerRuns {
  import opened Common
  import opened CircuitBreaker

  // ---------- Waiting out the backoff ----------

  /** Whatever can happen to an open breaker before its retry time, except what closes or forces it. */
  predicate Early(e: Event, deadline: int) {
    match e
    case Looked(now) => now < deadline
    case Failed(_, now) => now < deadline
    case ProbeAsked(now) => now < deadline
    case ProbeReleased => true
    case _ => false
  }

  /** The answer to a request for the probe. */
  predicate Grants(b: Breaker, e: Event) {
    e.ProbeAsked? && Probing(b, e.now) && !(b.state == HalfOpen && b.probeInFlight)
  }

  predicate NoGrant(c: Config, before: seq<Event>, events: seq<Event>) {
    forall k :: 0 <= k < |events| ==> !Grants(After(c, before + events[..k]), events[k])
  }

  /** One more event that is not granted the probe. */
  lemma NoGrantLast(c: Config, before: seq<Event>, events: seq<Event>)
    requires events != [] && NoGrant(c, before, Init(events))
    requires !Grants(After(c, before + Init(events)), Last(events))
    ensures NoGrant(c, before, events)
  {
    hide After, Grants;
    forall k | 0 <= k < |events|
      ensures !Grants(After(c, before + events[..k]), events[k])
    {
      if k < |events| - 1 {
        assert events[..k] == Init(events)[..k] && events[k] == Init(events)[k];
      }
    }
  }

  lemma EarlyKeepsOpen(c: Config, b: Breaker, e: Event, deadline: int)
    requires b.state == Open && b.nextRetryAt == Some(deadline) && !b.probeInFlight && Early(e, deadline)
    ensures var r := Step(c, b, e);
      && r.state == Open && r.nextRetryAt == Some(deadline) && r.brokenAt == b.brokenAt
      && r.backoffLevel == b.backoffLevel && !r.probeInFlight
    ensures !Grants(b, e)
  {
    hide Slide;
  }

  /** An open breaker stays as it opened, and grants no probe, until its retry time. */
  lemma {:induction false} StaysOpenUntilRetry(c: Config, before: seq<Event>, events: seq<Event>, deadline: int)
    requires ValidConfig(c) && After(c, before).state == Open && After(c, before).nextRetryAt == Some(deadline)
    requires forall e :: e in events ==> Early(e, deadline)
    ensures
      var b, r := After(c, before), After(c, before + events);
      && r.state == Open && r.nextRetryAt == Some(deadline) && r.brokenAt == b.brokenAt
      && r.backoffLevel == b.backoffLevel && !r.probeInFlight
    ensures NoGrant(c, before, events)
  {
    hide Step, Early, Grants;
    if events == [] {
      AlwaysConsistent(c, before);
      assert before + events == before;
    } else {
      InitOfAppend(before, events);
      StaysOpenUntilRetry(c, before, Init(events), deadline);
      assert Last(events) in events;
      EarlyKeepsOpen(c, After(c, before + Init(events)), Last(events), deadline);
      NoGrantLast(c, before, events);
    }
  }

  /** The first look from the retry time on finds it half-open, and the first to ask gets the probe. */
  lemma RetryTimeOpensTheProbe(c: Config, events: seq<Event>, now: int)
    requires ValidConfig(c) && After(c, events).state == Open
    ensures
      var b := After(c, events);
      var looked, asked := After(c, events + [Looked(now)]), After(c, events + [ProbeAsked(now)]);
      b.nextRetryAt.Some? &&
      if b.nextRetryAt.value <= now then
        && looked == b.(state := HalfOpen, halfOpenAt := Some(now), nextRetryAt := None, halfOpenSuccesses := 0)
        && asked == looked.(probeInFlight := true)
      else looked == b && asked == b
  {
    AlwaysConsistent(c, events);
    InitOfAppend(events, [Looked(now)]);
    InitOfAppend(events, [ProbeAsked(now)]);
    assert events + [] == events;
  }

  // ---------- One probe at a time ----------

  predicate StaysHalfOpen(c: Config, before: seq<Event>, events: seq<Event>) {
    forall k :: 0 <= k <= |events| ==> After(c, before + events[..k]).state == HalfOpen
  }

  lemma ProbeStaysOut(c: Config, b: Breaker, e: Event)
    requires b.state == HalfOpen && b.probeInFlight && !e.ProbeReleased? && !e.ForcedHalfOpen?
    ensures Step(c, b, e).state == HalfOpen ==> Step(c, b, e).probeInFlight
    ensures !Grants(b, e)
  {
    hide Slide;
  }

  /** While the breaker stays half-open, nobody else gets the probe before it is released. */
  lemma {:induction false} OneProbeAtATime(c: Config, before: seq<Event>, events: seq<Event>)
    requires StaysHalfOpen(c, before, events) && After(c, before).probeInFlight
    requires forall e :: e in events ==> !e.ProbeReleased? && !e.ForcedHalfOpen?
    ensures After(c, before + events).probeInFlight && NoGrant(c, before, events)
  {
    hide Step, Grants;
    if events == [] {
      assert before + events == before;
    } else {
      InitOfAppend(before, events);
      assert Last(events) in events;
      HalfOpenInit(c, before, events);
      OneProbeAtATime(c, before, Init(events));
      ProbeStaysOut(c, After(c, before + Init(events)), Last(events));
      NoGrantLast(c, before, events);
    }
  }

  lemma HalfOpenInit(c: Config, before: seq<Event>, events: seq<Event>)
    requires events != [] && StaysHalfOpen(c, before, events)
    ensures StaysHalfOpen(c, before, Init(events))
    ensures After(c, before + Init(events)).state == HalfOpen && After(c, before + events).state == HalfOpen
  {
    hide After;
    assert events[..|events|] == events && events[..|events| - 1] == Init(events);
    forall k | 0 <= k <= |Init(events)|
      ensures After(c, before + Init(events)[..k]).state == HalfOpen
    {
      assert Init(events)[..k] == events[..k];
    }
  }

  /** Releasing the probe, or forcing the breaker half-open, lets the next one ask for it. */
  lemma ReleaseFreesTheProbe(c: Config, events: seq<Event>, e: Event, now: int)
    requires ValidConfig(c) && (e.ForcedHalfOpen? || (e.ProbeReleased? && After(c, events).state == HalfOpen))
    ensures
      var b, r := After(c, events), After(c, events + [e]);
      && Grants(r, ProbeAsked(now)) && After(c, events + [e] + [ProbeAsked(now)]).probeInFlight
      && (e.ProbeReleased? ==> r == b.(probeInFlight := false))
      && (e.ForcedHalfOpen? ==> r.state == HalfOpen && r.halfOpenAt == Some(e.now) && r.halfOpenSuccesses == 0)
  {
    InitOfAppend(events, [e]);
    InitOfAppend(events + [e], [ProbeAsked(now)]);
    assert events + [] == events && (events + [e]) + [] == events + [e];
  }

  /** A reset leaves nothing behind. */
  lemma ResetStartsAfresh(c: Config, events: seq<Event>)
    ensures After(c, events + [WasReset]) == After(c, [])
  {
    InitOfAppend(events, [WasReset]);
  }

  // ---------- Closing ----------

  function Successes(events: seq<Event>): nat {
    if events == [] then 0 else Successes(Init(events)) + (if Last(events).Succeeded? then 1 else 0)
  }

  /** No retryable failure, and nobody forces or resets the breaker. */
  predicate NoSetback(events: seq<Event>) {
    forall e :: e in events ==> !e.ForcedHalfOpen? && !e.WasReset? && !(e.Failed? && Relevant(e))
  }

  /** A half-open breaker closes with the success that completes the target, and not before. */
  lemma {:induction false} ClosesAfterTarget(c: Config, before: seq<Event>, events: seq<Event>)
    requires ValidConfig(c) && After(c, before).state == HalfOpen && NoSetback(events)
    ensures
      var had, r := After(c, before).halfOpenSuccesses, After(c, before + events);
      if had + Successes(events) < c.halfOpenTarget
      then r.state == HalfOpen && r.halfOpenSuccesses == had + Successes(events)
      else r.state == Closed
  {
    hide Slide, Delay, FailureRate;
    AlwaysConsistent(c, before);
    if events == [] {
      assert before + events == before;
    } else {
      InitOfAppend(before, events);
      assert Last(events) in events;
      forall e | e in Init(events) ensures e in events {
      }
      ClosesAfterTarget(c, before, Init(events));
    }
  }

  /** What one success does to a reachable breaker. */
  lemma SuccessMeans(c: Config, events: seq<Event>, now: int)
    requires ValidConfig(c)
    ensures
      var b, r := After(c, events), After(c, events + [Succeeded(now)]);
      var n := 1 + if b.state == HalfOpen then b.halfOpenSuccesses else 0;
      if Probing(b, now) && n < c.halfOpenTarget
      then r.state == HalfOpen && r.halfOpenSuccesses == n && r.backoffLevel == b.backoffLevel
      else r.state == Closed
  {
    hide Slide, Delay, FailureRate;
    AlwaysConsistent(c, events);
    InitOfAppend(events, [Succeeded(now)]);
    assert events + [] == events;
  }

  // ---------- Opening ----------

  /** Each level doubles the backoff, up to the cap. */
  lemma BackoffDoubles(c: Config, level: nat)
    requires ValidConfig(c)
    ensures Delay(c, 0) == Min(c.backoffBase, c.backoffMax)
    ensures Delay(c, level + 1) == Min(2 * Delay(c, level), c.backoffMax)
  {
    assert c.backoffBase * Pow2(level + 1) == 2 * (c.backoffBase * Pow2(level)) by {
      assert Pow2(level + 1) == 2 * Pow2(level);
    }
    ScaledMonotone(c.backoffBase, 1, Pow2(level));
  }

  /** A retryable failure while probing reopens the breaker for the next longer backoff. */
  lemma ProbeFailureReopens(c: Config, events: seq<Event>, e: Event)
    requires ValidConfig(c) && e.Failed? && Relevant(e) && Probing(After(c, events), e.now)
    ensures
      var b, r := After(c, events), After(c, events + [e]);
      && r.state == Open && r.brokenAt == Some(e.now) && r.backoffLevel == b.backoffLevel + 1
      && r.nextRetryAt == Some(e.now + Delay(c, b.backoffLevel + 1))
  {
    hide Slide, Delay, FailureRate;
    InitOfAppend(events, [e]);
    assert events + [] == events;
  }

  lemma {:induction false} FailuresAreFalses(window: seq<bool>)
    ensures Failures(window) == multiset(window)[false]
  {
    if window != [] {
      FailuresAreFalses(window[..|window| - 1]);
      assert window == window[..|window| - 1] + [window[|window| - 1]];
    }
  }

  lemma RateMeans(failures: nat, n: nat, threshold: real)
    requires n > 0
    ensures failures as real / n as real >= threshold <==> failures as real >= threshold * n as real
  {
    var rate := failures as real / n as real;
    assert rate * n as real == failures as real;
    if rate >= threshold {
      assert (rate - threshold) * n as real >= 0.0;
    } else {
      assert (threshold - rate) * n as real > 0.0;
    }
  }

  /** The failures of the window reach the threshold, and the window is long enough to count. */
  predicate TooManyFail(c: Config, window: seq<bool>) {
    && |window| >= 3 && |window| >= c.windowSize / 2
    && multiset(window)[false] as real >= c.failureThreshold * |window| as real
  }

  lemma BrokenMeans(c: Config, b: Breaker)
    requires ValidConfig(c)
    ensures Broken(c, b) <==> b.consecutiveFailures >= 3 || TooManyFail(c, b.window)
  {
    FailuresAreFalses(b.window);
    if b.window != [] {
      RateMeans(Failures(b.window), |b.window|, c.failureThreshold);
    }
  }

  lemma ClosedCounts(c: Config, b: Breaker, e: Event)
    requires b.state == Closed && e.Failed? && Relevant(e)
    ensures
      var counted := b.(consecutiveFailures := b.consecutiveFailures + 1, window := Slide(b.window, false, c.windowSize));
      Step(c, b, e) == if Broken(c, counted) then ToOpen(c, counted, e.now, false) else counted
  {
    hide Slide, Broken, ToOpen;
  }

  lemma ClosedFails(c: Config, events: seq<Event>, e: Event)
    requires ValidConfig(c) && After(c, events).state == Closed && e.Failed? && Relevant(e)
    ensures
      var b, r := After(c, events), After(c, events + [e]);
      var counted := b.(consecutiveFailures := b.consecutiveFailures + 1, window := Slide(b.window, false, c.windowSize));
      && b.backoffLevel == 0
      && r == if Broken(c, counted)
              then counted.(state := Open, brokenAt := Some(e.now), nextRetryAt := Some(e.now + Delay(c, 0)))
              else counted
  {
    hide Slide, Delay, Broken, Step;
    AlwaysConsistent(c, events);
    InitOfAppend(events, [e]);
    assert events + [] == events;
    ClosedCounts(c, After(c, events), e);
  }

  /**
   * Exactly when a retryable failure opens a closed breaker: it is the third
   * in a row, or too many of the last outcomes are failures. It opens for the
   * shortest backoff.
   */
  lemma OpensExactlyWhen(c: Config, events: seq<Event>, e: Event)
    requires ValidConfig(c) && After(c, events).state == Closed && e.Failed? && Relevant(e)
    ensures
      var log := Outcomes(c, events) + [false];
      var r := After(c, events + [e]);
      && (r.state == Open <==> TrailingFailures(log) >= 3 || TooManyFail(c, LastN(log, c.windowSize)))
      && (r.state != Open ==> r.state == Closed)
      && (r.state == Open ==>
            r.brokenAt == Some(e.now) && r.nextRetryAt == Some(e.now + Min(c.backoffBase, c.backoffMax)))
  {
    hide Slide, Delay, LastN, Broken, TooManyFail, Outcomes, TrailingFailures, Consistent;
    var log := Outcomes(c, events) + [false];
    AlwaysConsistent(c, events);
    WindowIsLastOutcomes(c, events);
    ConsecutiveIsTrailing(c, events);
    SlideIsLastN(Outcomes(c, events), false, c.windowSize);
    TrailingAppend(Outcomes(c, events), false);
    BackoffDoubles(c, 0);
    ClosedFails(c, events, e);
    BrokenMeans(c, After(c, events).(consecutiveFailures := TrailingFailures(log), window := LastN(log, c.windowSize)));
  }

  // ---------- Merging ----------

  /** The later of two times that may be missing. */
  predicate IsLater(t: Option<int>, a: Option<int>, b: Option<int>) {
    && (t == a || t == b)
    && (a.Some? ==> t.Some? && t.value >= a.value)
    && (b.Some? ==> t.Some? && t.value >= b.value)
  }

  /** Merging keeps the worse state, the later times, the larger counts, and the last outcomes, the source's being later. */
  lemma MergeKeepsTheWorse(c: Config, b: Breaker, src: Breaker)
    requires |b.window| <= c.windowSize
    ensures var m := Merged(c, b, src);
      && m.window == LastN(b.window + src.window, c.windowSize)
      && (m.state == Open <==> b.state == Open || src.state == Open)
      && (m.state == Closed <==> b.state == Closed && src.state == Closed)
      && IsLater(m.brokenAt, b.brokenAt, src.brokenAt)
      && IsLater(m.halfOpenAt, b.halfOpenAt, src.halfOpenAt)
      && IsLater(m.nextRetryAt, b.nextRetryAt, src.nextRetryAt)
      && b.backoffLevel <= m.backoffLevel && src.backoffLevel <= m.backoffLevel && m.backoffLevel in {b.backoffLevel, src.backoffLevel}
      && b.halfOpenSuccesses <= m.halfOpenSuccesses && src.halfOpenSuccesses <= m.halfOpenSuccesses
      && m.halfOpenSuccesses in {b.halfOpenSuccesses, src.halfOpenSuccesses}
      && b.consecutiveFailures <= m.consecutiveFailures && src.consecutiveFailures <= m.consecutiveFailures
      && m.consecutiveFailures in {b.consecutiveFailures, src.consecutiveFailures}
      && (m.probeInFlight <==> b.probeInFlight || src.probeInFlight)
  {
    assert b.window + [] == b.window;
  }
}
