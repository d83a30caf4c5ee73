// The per-key circuit breaker: closed, open with exponential backoff, and
// half-open with a single probe. Times are nanoseconds.
module CircuitBreaker {
  import opened Common

  datatype FailureClass = NoClass | Retryable | NonRetryable | Quota | ClientCancel

  datatype Circuit = Closed | Open | HalfOpen

  const FAILURE_LIMIT := 3

  datatype Config = Config(windowSize: nat, failureThreshold: real, backoffBase: int, backoffMax: int, halfOpenTarget: nat)

  /** Doubling anything up to this bound stays within an int64. */
  const HALF_RANGE := 0x3FFF_FFFF_FFFF_FFFF

  predicate ValidConfig(c: Config) {
    && c.windowSize >= 3
    && 0.0 < c.failureThreshold <= 1.0
    && 0 < c.backoffBase <= HALF_RANGE && 0 < c.backoffMax <= HALF_RANGE
    && c.halfOpenTarget >= 1
  }

  datatype Breaker = Breaker(
    state: Circuit,
    brokenAt: Option<int>,
    halfOpenAt: Option<int>,
    nextRetryAt: Option<int>,
    backoffLevel: nat,
    halfOpenSuccesses: nat,
    probeInFlight: bool,
    consecutiveFailures: nat,
    window: seq<bool>)

  const FRESH := Breaker(Closed, None, None, None, 0, 0, false, 0, [])

  // ---------- Transitions ----------

  function Pow2(n: nat): (r: nat)
    ensures r >= 1
  {
    if n == 0 then 1 else 2 * Pow2(n - 1)
  }

  /** The backoff of a level: base * 2^level, capped. */
  function Delay(c: Config, level: nat): int {
    Min(c.backoffBase * Pow2(level), c.backoffMax)
  }

  function Normalized(class_: FailureClass): FailureClass {
    if class_ == NoClass then Retryable else class_
  }

  function Slide(window: seq<bool>, success: bool, size: nat): seq<bool> {
    var grown := window + [success];
    if |grown| > size then grown[1..] else grown
  }

  function Failures(window: seq<bool>): nat {
    if window == [] then 0 else Failures(window[..|window| - 1]) + (if window[|window| - 1] then 0 else 1)
  }

  function FailureRate(window: seq<bool>): real {
    if window == [] then 0.0 else Failures(window) as real / |window| as real
  }

  predicate Broken(c: Config, b: Breaker) {
    || b.consecutiveFailures >= FAILURE_LIMIT
    || (|b.window| >= (if 3 >= c.windowSize / 2 then 3 else c.windowSize / 2)
        && FailureRate(b.window) >= c.failureThreshold)
  }

  function Reset(b: Breaker, clearWindow: bool): Breaker {
    FRESH.(window := if clearWindow then [] else b.window)
  }

  function ToOpen(c: Config, b: Breaker, now: int, escalate: bool): Breaker {
    var level := if escalate then b.backoffLevel + 1 else b.backoffLevel;
    b.(state := Open, backoffLevel := level, brokenAt := Some(now), halfOpenAt := None,
       nextRetryAt := Some(now + Delay(c, level)), halfOpenSuccesses := 0, probeInFlight := false)
  }

  function ToHalfOpen(b: Breaker, now: int): Breaker {
    b.(state := HalfOpen, halfOpenAt := Some(now), nextRetryAt := None, halfOpenSuccesses := 0, probeInFlight := false)
  }

  function Advance(b: Breaker, now: int): Breaker {
    if b.state == Open && b.nextRetryAt.Some? && b.nextRetryAt.value <= now then ToHalfOpen(b, now) else b
  }

  function OnSuccess(c: Config, b: Breaker, now: int): Breaker {
    var a := Advance(b, now);
    var w := a.(window := Slide(a.window, true, c.windowSize), consecutiveFailures := 0);
    match w.state
    case HalfOpen =>
      var p := w.(halfOpenSuccesses := w.halfOpenSuccesses + 1);
      if p.halfOpenSuccesses >= c.halfOpenTarget then Reset(p, true) else p
    case Open => Reset(w, true)
    case Closed => w
  }

  function OnFailure(c: Config, b: Breaker, class_: FailureClass, now: int): Breaker {
    var a := Advance(b, now);
    if Normalized(class_) != Retryable then a
    else
      var w := a.(consecutiveFailures := a.consecutiveFailures + 1, window := Slide(a.window, false, c.windowSize));
      match w.state
      case HalfOpen => ToOpen(c, w, now, true)
      case Closed => if Broken(c, w) then ToOpen(c, w, now, false) else w
      case Open => w
  }

  /** What can happen to the breaker of one key. */
  datatype Event =
    | Succeeded(now: int)
    | Failed(class_: FailureClass, now: int)
    | Looked(now: int)              // a connect, a health query or the recovery task
    | ForcedHalfOpen(now: int)
    | WasReset
    | ProbeAsked(now: int)
    | ProbeReleased

  function Step(c: Config, b: Breaker, e: Event): Breaker {
    match e
    case Succeeded(now) => OnSuccess(c, b, now)
    case Failed(class_, now) => OnFailure(c, b, class_, now)
    case Looked(now) => Advance(b, now)
    case ForcedHalfOpen(now) => ToHalfOpen(b, now)
    case WasReset => Reset(b, true)
    case ProbeAsked(now) =>
      var a := Advance(b, now);
      if a.state == HalfOpen then a.(probeInFlight := true) else a
    case ProbeReleased => b.(probeInFlight := false)
  }

  function Last<T>(s: seq<T>): T
    requires s != []
  {
    s[|s| - 1]
  }

  function Init<T>(s: seq<T>): seq<T>
    requires s != []
  {
    s[..|s| - 1]
  }

  function After(c: Config, events: seq<Event>): Breaker {
    if events == [] then FRESH else Step(c, After(c, Init(events)), Last(events))
  }

  // ---------- The state invariant ----------

  predicate Consistent(c: Config, b: Breaker) {
    && (b.state == Open ==>
          && b.brokenAt.Some? && b.nextRetryAt.Some? && b.halfOpenAt.None?
          && b.nextRetryAt.value - b.brokenAt.value == Delay(c, b.backoffLevel)
          && b.halfOpenSuccesses == 0)
    && (b.state == HalfOpen ==>
          b.nextRetryAt.None? && b.halfOpenAt.Some? && b.halfOpenSuccesses < c.halfOpenTarget)
    && (b.state == Closed ==>
          && b.brokenAt.None? && b.halfOpenAt.None? && b.nextRetryAt.None?
          && b.backoffLevel == 0 && b.halfOpenSuccesses == 0
          && b.consecutiveFailures < FAILURE_LIMIT)
    && (b.probeInFlight ==> b.state == HalfOpen)
  }

  lemma {:induction false} AlwaysConsistent(c: Config, events: seq<Event>)
    requires ValidConfig(c)
    ensures Consistent(c, After(c, events))
  {
    hide Slide, Delay, FailureRate;
    if events != [] {
      AlwaysConsistent(c, Init(events));
    }
  }

  /** Probing at a time: half-open already, or open with its retry time reached. */
  predicate Probing(b: Breaker, now: int) {
    b.state == HalfOpen || (b.state == Open && b.nextRetryAt.Some? && b.nextRetryAt.value <= now)
  }

  /** Half-open failures since the breaker was last closed. */
  function HalfOpenFailures(c: Config, events: seq<Event>): nat {
    if events == [] || After(c, events).state == Closed then 0
    else
      var e := Last(events);
      HalfOpenFailures(c, Init(events)) +
        if e.Failed? && Relevant(e) && Probing(After(c, Init(events)), e.now) then 1 else 0
  }

  lemma {:induction false} LevelCountsHalfOpenFailures(c: Config, events: seq<Event>)
    requires ValidConfig(c)
    ensures After(c, events).backoffLevel == HalfOpenFailures(c, events)
  {
    hide Slide, Delay, FailureRate;
    if events != [] {
      LevelCountsHalfOpenFailures(c, Init(events));
      AlwaysConsistent(c, events);
    }
  }

  // ---------- The window ----------

  /** A success, or a failure that is retryable or not classified. */
  predicate Relevant(e: Event) {
    e.Succeeded? || (e.Failed? && (e.class_ == Retryable || e.class_ == NoClass))
  }

  /** Successes and retryable failures since a reset or since the breaker last closed. */
  function Outcomes(c: Config, events: seq<Event>): seq<bool> {
    if events == [] then []
    else
      var e := Last(events);
      var closes := After(c, Init(events)).state != Closed && After(c, events).state == Closed;
      if e.WasReset? || closes then []
      else if Relevant(e) then Outcomes(c, Init(events)) + [e.Succeeded?]
      else Outcomes(c, Init(events))
  }

  predicate Clears(b: Breaker, e: Event, after: Breaker) {
    e.WasReset? || (b.state != Closed && after.state == Closed)
  }

  /** How one event changes the window and the failure counter. */
  lemma StepEffect(c: Config, b: Breaker, e: Event)
    requires ValidConfig(c)
    ensures var r := Step(c, b, e);
      if Clears(b, e, r) then r.window == [] && r.consecutiveFailures == 0
      else if Relevant(e) then
        && r.window == Slide(b.window, e.Succeeded?, c.windowSize)
        && r.consecutiveFailures == if e.Succeeded? then 0 else b.consecutiveFailures + 1
      else r.window == b.window && r.consecutiveFailures == b.consecutiveFailures
  {
    hide Slide, Delay, FailureRate;
  }

  lemma SlideIsLastN(log: seq<bool>, x: bool, n: nat)
    requires n >= 1
    ensures Slide(LastN(log, n), x, n) == LastN(log + [x], n)
  {
  }

  lemma {:induction false} WindowIsLastOutcomes(c: Config, events: seq<Event>)
    requires ValidConfig(c)
    ensures After(c, events).window == LastN(Outcomes(c, events), c.windowSize)
  {
    hide Slide, LastN, Step;
    LastNShort<bool>([], c.windowSize);
    if events != [] {
      WindowIsLastOutcomes(c, Init(events));
      StepEffect(c, After(c, Init(events)), Last(events));
      SlideIsLastN(Outcomes(c, Init(events)), Last(events).Succeeded?, c.windowSize);
    }
  }

  /** Length of the run of failures at the end. */
  function TrailingFailures(log: seq<bool>): nat {
    if log == [] || log[|log| - 1] then 0 else 1 + TrailingFailures(log[..|log| - 1])
  }

  lemma TrailingAppend(log: seq<bool>, x: bool)
    ensures TrailingFailures(log + [x]) == if x then 0 else 1 + TrailingFailures(log)
  {
    assert (log + [x])[..|log|] == log;
  }

  lemma {:induction false} TrailingOfLastN(log: seq<bool>, n: nat)
    ensures TrailingFailures(LastN(log, n)) == Min(TrailingFailures(log), n)
  {
    if |log| <= n {
      TrailingAtMostLength(log);
    } else if n > 0 {
      var init, x := log[..|log| - 1], log[|log| - 1];
      assert log == init + [x] && LastN(log, n) == LastN(init, n - 1) + [x];
      TrailingAppend(LastN(init, n - 1), x);
      TrailingAppend(init, x);
      TrailingOfLastN(init, n - 1);
    }
  }

  lemma {:induction false} TrailingAtMostLength(log: seq<bool>)
    ensures TrailingFailures(log) <= |log|
  {
    if log != [] {
      TrailingAtMostLength(log[..|log| - 1]);
    }
  }

  lemma {:induction false} ConsecutiveIsTrailing(c: Config, events: seq<Event>)
    requires ValidConfig(c)
    ensures After(c, events).consecutiveFailures == TrailingFailures(Outcomes(c, events))
  {
    hide Slide, Step;
    if events != [] {
      ConsecutiveIsTrailing(c, Init(events));
      StepEffect(c, After(c, Init(events)), Last(events));
      TrailingAppend(Outcomes(c, Init(events)), Last(events).Succeeded?);
    }
  }

  /** The failure run at the end of the window is the counter, capped by the window. */
  lemma WindowTailIsCounter(c: Config, events: seq<Event>)
    requires ValidConfig(c)
    ensures var b := After(c, events);
      TrailingFailures(b.window) == Min(b.consecutiveFailures, c.windowSize)
  {
    WindowIsLastOutcomes(c, events);
    ConsecutiveIsTrailing(c, events);
    TrailingOfLastN(Outcomes(c, events), c.windowSize);
  }

  // ---------- What opens the breaker ----------

  function RetryableFailures(events: seq<Event>): nat {
    if events == [] then 0
    else RetryableFailures(Init(events)) + (if Last(events).Failed? && Relevant(Last(events)) then 1 else 0)
  }

  /** After going on from a run. */
  predicate NoRelief(events: seq<Event>) {
    forall i :: 0 <= i < |events| ==> !events[i].Succeeded? && !events[i].WasReset?
  }

  lemma InitOfAppend(a: seq<Event>, b: seq<Event>)
    requires b != []
    ensures Init(a + b) == a + Init(b) && Last(a + b) == Last(b)
  {
  }

  lemma {:induction false} StillClosedCounts(c: Config, before: seq<Event>, events: seq<Event>)
    requires ValidConfig(c) && NoRelief(events)
    requires After(c, before + events).state == Closed
    ensures After(c, before + events).consecutiveFailures ==
      After(c, before).consecutiveFailures + RetryableFailures(events)
  {
    hide Slide, Delay, FailureRate;
    if events == [] {
      assert before + events == before;
    } else {
      InitOfAppend(before, events);
      assert Last(events) == events[|events| - 1];
      AlwaysConsistent(c, before + Init(events));
      StillClosedCounts(c, before, Init(events));
    }
  }

  /** Three retryable failures without a success or reset between them leave Closed. */
  lemma ThreeFailuresOpen(c: Config, before: seq<Event>, events: seq<Event>)
    requires ValidConfig(c) && NoRelief(events) && RetryableFailures(events) >= FAILURE_LIMIT
    ensures After(c, before + events).state != Closed
  {
    if After(c, before + events).state == Closed {
      StillClosedCounts(c, before, events);
      AlwaysConsistent(c, before + events);
    }
  }

  /** Without a retryable failure or a forced probe a closed breaker stays closed. */
  lemma {:induction false} OtherFailuresNeverOpen(c: Config, before: seq<Event>, events: seq<Event>)
    requires ValidConfig(c) && After(c, before).state == Closed
    requires forall i :: 0 <= i < |events| ==>
      !events[i].ForcedHalfOpen? && !(events[i].Failed? && Relevant(events[i]))
    ensures After(c, before + events).state == Closed
  {
    hide Slide, Delay, FailureRate;
    if events == [] {
      assert before + events == before;
    } else {
      InitOfAppend(before, events);
      assert Last(events) == events[|events| - 1];
      OtherFailuresNeverOpen(c, before, Init(events));
    }
  }

  // ---------- Merging two breakers ----------

  function Severity(state: Circuit): int {
    match state case Open => 3 case HalfOpen => 2 case Closed => 1
  }

  function Later(a: Option<int>, b: Option<int>): Option<int> {
    if a.None? || (b.Some? && b.value > a.value) then b else a
  }

  function Max(a: nat, b: nat): nat {
    if b > a then b else a
  }

  /** What mergeKeyMetricsLocked makes of two breakers, field by field. */
  function Merged(c: Config, b: Breaker, src: Breaker): Breaker {
    Breaker(
      if Severity(src.state) > Severity(b.state) then src.state else b.state,
      Later(b.brokenAt, src.brokenAt), Later(b.halfOpenAt, src.halfOpenAt), Later(b.nextRetryAt, src.nextRetryAt),
      Max(b.backoffLevel, src.backoffLevel), Max(b.halfOpenSuccesses, src.halfOpenSuccesses),
      b.probeInFlight || src.probeInFlight, Max(b.consecutiveFailures, src.consecutiveFailures),
      if src.window == [] then b.window else LastN(b.window + src.window, c.windowSize))
  }

  /**
   * Merging does not keep the breaker consistent: an open breaker merged with
   * a probing half-open one is open with a probe in flight.
   */
  lemma MergeBreaksConsistency(c: Config)
    requires ValidConfig(c)
    ensures
      var open := Step(c, ToHalfOpen(FRESH, 0), Failed(Retryable, 0));
      var probing := Step(c, Step(c, FRESH, ForcedHalfOpen(0)), ProbeAsked(0));
      && Consistent(c, open) && Consistent(c, probing)
      && !Consistent(c, Merged(c, open, probing))
  {
    hide Slide, Delay, FailureRate;
  }

  lemma {:induction false} Pow2Monotone(a: nat, b: nat)
    requires a <= b
    ensures Pow2(a) <= Pow2(b)
    decreases b
  {
    if a < b {
      Pow2Monotone(a, b - 1);
    }
  }

  lemma ScaledMonotone(base: int, x: nat, y: nat)
    requires 0 < base && x <= y
    ensures base * x <= base * y
  {
  }

  lemma DelayMonotone(c: Config, x: nat, y: nat)
    requires ValidConfig(c) && x <= y
    ensures Delay(c, x) <= Delay(c, y)
  {
    Pow2Monotone(x, y);
    ScaledMonotone(c.backoffBase, Pow2(x), Pow2(y));
  }

  /** Neither open breaker opened later with a shorter backoff than the other's. */
  predicate BackoffsOrdered(c: Config, b: Breaker, src: Breaker)
    requires b.brokenAt.Some? && src.brokenAt.Some?
  {
    && (b.brokenAt.value > src.brokenAt.value ==> Delay(c, b.backoffLevel) >= Delay(c, src.backoffLevel))
    && (src.brokenAt.value > b.brokenAt.value ==> Delay(c, src.backoffLevel) >= Delay(c, b.backoffLevel))
  }

  /**
   * Exactly when merging two consistent breakers gives a consistent one: they
   * are not one open and one half-open, and of two open ones the later has the
   * longer backoff.
   */
  lemma MergeIsConsistentExactly(c: Config, b: Breaker, src: Breaker)
    requires ValidConfig(c) && Consistent(c, b) && Consistent(c, src)
    ensures Consistent(c, Merged(c, b, src)) <==>
      && !(b.state == Open && src.state == HalfOpen) && !(b.state == HalfOpen && src.state == Open)
      && (b.state == Open && src.state == Open ==> BackoffsOrdered(c, b, src))
  {
    hide Delay, LastN;
    if b.backoffLevel <= src.backoffLevel {
      DelayMonotone(c, b.backoffLevel, src.backoffLevel);
    } else {
      DelayMonotone(c, src.backoffLevel, b.backoffLevel);
    }
  }

  // ---------- The backoff loop ----------

  newtype int64 = x: int | -0x8000_0000_0000_0000 <= x < 0x8000_0000_0000_0000

  /**
   * Doubles in 64-bit arithmetic until the cap is reached; the typing of
   * delay shows that the product never overflows.
   */
  method NextBackoffDuration(c: Config, level: int) returns (delay: int64)
    requires ValidConfig(c)
    ensures delay as int == Delay(c, if level < 0 then 0 else level)
  {
    var n: nat := if level < 0 then 0 else level;
    var max := c.backoffMax as int64;
    delay := c.backoffBase as int64;
    for i := 0 to n
      invariant delay as int == c.backoffBase * Pow2(i)
      invariant delay as int <= HALF_RANGE
    {
      delay := delay * 2;
      if delay >= max {
        Pow2Monotone(i + 1, n);
        ScaledMonotone(c.backoffBase, Pow2(i + 1), Pow2(n));
        return max;
      }
    }
    if delay > max {
      return max;
    }
  }
}
