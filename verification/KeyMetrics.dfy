// The metrics of one key: counters, request history with its index map, and
// the circuit breaker, all updated in place.
module KeyMetrics {
  import opened CircuitBreaker
  import opened Common
  import opened RequestLedger

  class KeyMetrics {
    var metricsKey: string
    var requestCount: int
    var successCount: int
    var failureCount: int
    var consecutiveFailures: nat
    var lastSuccessAt: Option<int>
    var lastFailureAt: Option<int>
    var circuitState: Circuit
    var circuitBrokenAt: Option<int>
    var halfOpenAt: Option<int>
    var nextRetryAt: Option<int>
    var backoffLevel: nat
    var halfOpenSuccesses: nat
    var probeInFlight: bool
    var breakerResults: seq<bool>
    var requestHistory: seq<Record>
    var pendingHistoryIdx: map<nat, int>

    /** For each record, the request that still has to settle it. */
    ghost var owners: seq<Option<nat>>
    /** Client cancels that were settled since the last full reset. */
    ghost var cancels: nat

    ghost function Breaker(): Breaker
      reads this
    {
      CircuitBreaker.Breaker(circuitState, circuitBrokenAt, halfOpenAt, nextRetryAt, backoffLevel,
        halfOpenSuccesses, probeInFlight, consecutiveFailures, breakerResults)
    }

    ghost function Ledger(): Ledger
      requires |owners| == |requestHistory|
      reads this
    {
      Zip(requestHistory, owners)
    }

    ghost predicate IndexMatches()
      reads this
    {
      |owners| == |requestHistory| && Matches(owners, pendingHistoryIdx)
    }

    ghost predicate Valid()
      reads this
    {
      IndexMatches() && requestCount == successCount + failureCount + cancels
    }

    constructor (key: string)
      ensures Valid() && metricsKey == key
      ensures Breaker() == FRESH && Ledger() == [] && pendingHistoryIdx == map[]
      ensures requestCount == 0 && cancels == 0
    {
      metricsKey := key;
      requestCount, successCount, failureCount := 0, 0, 0;
      consecutiveFailures := 0;
      lastSuccessAt, lastFailureAt := None, None;
      circuitState := Closed;
      circuitBrokenAt, halfOpenAt, nextRetryAt := None, None, None;
      backoffLevel, halfOpenSuccesses := 0, 0;
      probeInFlight := false;
      breakerResults, requestHistory, pendingHistoryIdx := [], [], map[];
      owners, cancels := [], 0;
    }

    // ---------- Breaker ----------

    method AppendToBreakerWindow(c: Config, success: bool)
      modifies this`breakerResults
      ensures breakerResults == Slide(old(breakerResults), success, c.windowSize)
    {
      breakerResults := breakerResults + [success];
      if |breakerResults| > c.windowSize {
        breakerResults := breakerResults[1..];
      }
    }

    method ResetCircuitState(clearBreakerWindow: bool)
      modifies this`circuitState, this`circuitBrokenAt, this`halfOpenAt, this`nextRetryAt, this`backoffLevel,
        this`halfOpenSuccesses, this`probeInFlight, this`consecutiveFailures, this`breakerResults
      ensures Breaker() == Reset(old(Breaker()), clearBreakerWindow)
    {
      circuitState := Closed;
      circuitBrokenAt := None;
      halfOpenAt := None;
      nextRetryAt := None;
      backoffLevel := 0;
      halfOpenSuccesses := 0;
      probeInFlight := false;
      consecutiveFailures := 0;
      if clearBreakerWindow {
        breakerResults := [];
      }
    }

    method MoveCircuitToOpen(c: Config, now: int, escalate: bool)
      requires ValidConfig(c)
      modifies this`circuitState, this`circuitBrokenAt, this`halfOpenAt, this`nextRetryAt, this`backoffLevel,
        this`halfOpenSuccesses, this`probeInFlight
      ensures Breaker() == ToOpen(c, old(Breaker()), now, escalate)
    {
      if escalate {
        backoffLevel := backoffLevel + 1;
      }
      var delay := NextBackoffDuration(c, backoffLevel);
      circuitState := Open;
      circuitBrokenAt := Some(now);
      halfOpenAt := None;
      nextRetryAt := Some(now + delay as int);
      halfOpenSuccesses := 0;
      probeInFlight := false;
    }

    method MoveCircuitToHalfOpen(now: int)
      modifies this`circuitState, this`halfOpenAt, this`nextRetryAt, this`halfOpenSuccesses, this`probeInFlight
      ensures Breaker() == ToHalfOpen(old(Breaker()), now)
    {
      circuitState := HalfOpen;
      halfOpenAt := Some(now);
      nextRetryAt := None;
      halfOpenSuccesses := 0;
      probeInFlight := false;
    }

    method AdvanceCircuitStateIfDue(now: int)
      modifies this`circuitState, this`halfOpenAt, this`nextRetryAt, this`halfOpenSuccesses, this`probeInFlight
      ensures Breaker() == Advance(old(Breaker()), now)
    {
      if circuitState == Open && nextRetryAt.Some? && !(now < nextRetryAt.value) {
        MoveCircuitToHalfOpen(now);
      }
    }

    /** The loop of calculateKeyBreakerFailureRateInternal. */
    method BreakerFailureRate() returns (rate: real)
      ensures rate == FailureRate(breakerResults)
    {
      if |breakerResults| == 0 {
        return 0.0;
      }
      var failures := 0;
      for i := 0 to |breakerResults|
        invariant failures == Failures(breakerResults[..i])
      {
        assert breakerResults[..i + 1][..i] == breakerResults[..i];
        if !breakerResults[i] {
          failures := failures + 1;
        }
      }
      assert breakerResults[..|breakerResults|] == breakerResults;
      rate := failures as real / |breakerResults| as real;
    }

    method IsKeyCircuitBroken(c: Config) returns (broken: bool)
      ensures broken == Broken(c, Breaker())
    {
      if consecutiveFailures >= FAILURE_LIMIT {
        return true;
      }
      var minRequests := if 3 >= c.windowSize / 2 then 3 else c.windowSize / 2;
      if |breakerResults| < minRequests {
        return false;
      }
      var rate := BreakerFailureRate();
      broken := rate >= c.failureThreshold;
    }

    method HandleBreakerSuccess(c: Config, now: int)
      requires ValidConfig(c)
      modifies this`circuitState, this`circuitBrokenAt, this`halfOpenAt, this`nextRetryAt, this`backoffLevel,
        this`halfOpenSuccesses, this`probeInFlight, this`consecutiveFailures, this`breakerResults
      ensures Breaker() == OnSuccess(c, old(Breaker()), now)
    {
      AdvanceCircuitStateIfDue(now);
      AppendToBreakerWindow(c, true);
      consecutiveFailures := 0;
      match circuitState {
        case HalfOpen =>
          halfOpenSuccesses := halfOpenSuccesses + 1;
          if halfOpenSuccesses >= c.halfOpenTarget {
            ResetCircuitState(true);
          }
        case Open =>
          ResetCircuitState(true);
        case Closed =>
      }
    }

    method HandleBreakerFailure(c: Config, failureClass: FailureClass, now: int)
      requires ValidConfig(c)
      modifies this`circuitState, this`circuitBrokenAt, this`halfOpenAt, this`nextRetryAt, this`backoffLevel,
        this`halfOpenSuccesses, this`probeInFlight, this`consecutiveFailures, this`breakerResults
      ensures Breaker() == OnFailure(c, old(Breaker()), failureClass, now)
    {
      var class_ := Normalized(failureClass);
      AdvanceCircuitStateIfDue(now);
      if class_ != Retryable {
        return;
      }
      consecutiveFailures := consecutiveFailures + 1;
      AppendToBreakerWindow(c, false);
      match circuitState {
        case HalfOpen =>
          MoveCircuitToOpen(c, now, true);
        case Closed =>
          var broken := IsKeyCircuitBroken(c);
          if broken {
            MoveCircuitToOpen(c, now, false);
          }
        case Open =>
      }
    }

    method TryAcquireProbe(now: int) returns (acquired: bool)
      modifies this`circuitState, this`halfOpenAt, this`nextRetryAt, this`halfOpenSuccesses, this`probeInFlight
      ensures acquired <==> Probing(old(Breaker()), now) && !(old(circuitState) == HalfOpen && old(probeInFlight))
      ensures acquired ==> circuitState == HalfOpen && probeInFlight
      ensures !acquired ==> Breaker() == old(Breaker())
      ensures forall c :: Breaker() == Step(c, old(Breaker()), ProbeAsked(now))
    {
      AdvanceCircuitStateIfDue(now);
      if circuitState != HalfOpen || probeInFlight {
        return false;
      }
      probeInFlight := true;
      acquired := true;
    }

    method ReleaseProbe()
      modifies this`probeInFlight
      ensures forall c :: Breaker() == Step(c, old(Breaker()), ProbeReleased)
    {
      probeInFlight := false;
    }

    // ---------- History ----------

    /** Drops expired records and shifts or deletes the indexes into them. */
    method CleanupHistory(cutoff: int)
      requires IndexMatches()
      modifies this`requestHistory, this`pendingHistoryIdx, this`owners
      ensures IndexMatches()
      ensures Ledger() == Expire(old(Ledger()), cutoff)
    {
      hide Zip, Matches, Expire, Shifted;
      ghost var l := Ledger();
      MatchesNothing();
      if |requestHistory| == 0 {
        ExpireAt(l, cutoff, 0);
        return;
      }
      var newStart := -1;
      var i := 0;
      while i < |requestHistory| && newStart == -1
        invariant 0 <= i <= |requestHistory| && -1 <= newStart < |requestHistory|
        invariant newStart == -1 ==> forall j :: 0 <= j < i ==> requestHistory[j].timestamp <= cutoff
        invariant newStart >= 0 ==> requestHistory[newStart].timestamp > cutoff
        invariant newStart >= 0 ==> forall j :: 0 <= j < newStart ==> requestHistory[j].timestamp <= cutoff
      {
        if requestHistory[i].timestamp > cutoff {
          newStart := i;
        }
        i := i + 1;
      }
      ExpireAt(l, cutoff, if newStart == -1 then |l| else newStart);
      if newStart > 0 {
        MatchesShifted(owners, pendingHistoryIdx, newStart);
        ZipDrop(requestHistory, owners, newStart);
        requestHistory := requestHistory[newStart..];
        owners := owners[newStart..];
        pendingHistoryIdx := Shifted(pendingHistoryIdx, newStart);
        return;
      }
      if newStart == -1 {
        requestHistory := [];
        owners := [];
        pendingHistoryIdx := map[];
      }
    }

    /** Appends a record, open for a request or already settled, and cleans up. */
    method AppendToHistory(record: Record, owner: Option<nat>, cutoff: int)
      requires IndexMatches()
      requires owner.Some? ==> owner.value !in pendingHistoryIdx
      modifies this`requestHistory, this`pendingHistoryIdx, this`owners
      ensures IndexMatches()
      ensures Ledger() == Expire(old(Ledger()) + [Entry(record, owner)], cutoff)
    {
      hide Expire, Zip, Matches;
      MatchesAppend(owners, pendingHistoryIdx, owner);
      ZipAppend(requestHistory, owners, [record], [owner]);
      assert Zip([record], [owner]) == [Entry(record, owner)];
      requestHistory := requestHistory + [record];
      owners := owners + [owner];
      if owner.Some? {
        pendingHistoryIdx := pendingHistoryIdx[owner.value := |requestHistory| - 1];
      }
      CleanupHistory(cutoff);
    }

    /** RecordRequestConnectedAt, once the key and the request id are known. */
    method Connect(id: nat, model: string, timestamp: int, cutoff: int)
      requires Valid() && id !in pendingHistoryIdx
      modifies this
      ensures Valid() && metricsKey == old(metricsKey)
      ensures Ledger() == Expire(old(Ledger()) + [Entry(Connected(model, timestamp), Some(id))], cutoff)
      ensures Breaker() == Advance(old(Breaker()), timestamp)
      ensures requestCount == old(requestCount) && cancels == old(cancels)
      ensures successCount == old(successCount) && failureCount == old(failureCount)
    {
      hide Expire, Advance;
      AdvanceCircuitStateIfDue(timestamp);
      AppendToHistory(Connected(model, timestamp), Some(id), cutoff);
    }

    /** Counts one outcome and tells the breaker. */
    method CountOutcome(c: Config, success: bool, failureClass: FailureClass, now: int)
      requires ValidConfig(c) && requestCount == successCount + failureCount + cancels
      modifies this`requestCount, this`successCount, this`failureCount, this`lastSuccessAt, this`lastFailureAt,
        this`circuitState, this`circuitBrokenAt, this`halfOpenAt, this`nextRetryAt, this`backoffLevel,
        this`halfOpenSuccesses, this`probeInFlight, this`consecutiveFailures, this`breakerResults
      ensures requestCount == old(requestCount) + 1 == successCount + failureCount + cancels
      ensures successCount == old(successCount) + (if success then 1 else 0)
      ensures failureCount == old(failureCount) + (if success then 0 else 1)
      ensures lastSuccessAt == (if success then Some(now) else old(lastSuccessAt))
      ensures lastFailureAt == (if success then old(lastFailureAt) else Some(now))
      ensures Breaker() == if success then OnSuccess(c, old(Breaker()), now)
                           else OnFailure(c, old(Breaker()), failureClass, now)
    {
      hide OnSuccess, OnFailure;
      requestCount := requestCount + 1;
      if success {
        successCount := successCount + 1;
        lastSuccessAt := Some(now);
        HandleBreakerSuccess(c, now);
      } else {
        failureCount := failureCount + 1;
        lastFailureAt := Some(now);
        HandleBreakerFailure(c, failureClass, now);
      }
    }

    /** A result that no connected request announced. */
    method RecordDirect(c: Config, success: bool, failureClass: FailureClass, tokens: Tokens, now: int, cutoff: int)
      requires Valid() && ValidConfig(c)
      modifies this
      ensures Valid() && metricsKey == old(metricsKey)
      ensures Ledger() == Expire(old(Ledger()) + [Entry(Direct(now, success, failureClass, tokens), None)], cutoff)
      ensures Breaker() == if success then OnSuccess(c, old(Breaker()), now)
                           else OnFailure(c, old(Breaker()), failureClass, now)
      ensures requestCount == old(requestCount) + 1 && cancels == old(cancels)
      ensures successCount == old(successCount) + (if success then 1 else 0)
      ensures failureCount == old(failureCount) + (if success then 0 else 1)
      ensures lastSuccessAt == (if success then Some(now) else old(lastSuccessAt))
      ensures lastFailureAt == (if success then old(lastFailureAt) else Some(now))
    {
      hide Expire, OnSuccess, OnFailure;
      CountOutcome(c, success, failureClass, now);
      AppendToHistory(Direct(now, success, failureClass, tokens), None, cutoff);
    }

    /** Whether finalizing or cancelling id would find its record. */
    predicate Tracks(id: nat)
      reads this
    {
      id in pendingHistoryIdx && 0 <= pendingHistoryIdx[id] < |requestHistory|
    }

    /** Writes the outcome into the record of id and stops tracking it. */
    method SettleRecord(id: nat, success: bool, failureClass: FailureClass, tokens: Tokens)
      requires IndexMatches() && Tracks(id)
      modifies this`requestHistory, this`pendingHistoryIdx, this`owners
      ensures IndexMatches()
      ensures Ledger() == Settle(old(Ledger()), id, success, failureClass, tokens)
    {
      hide Settle, Zip, Matches;
      IndexedIsOwned(requestHistory, owners, pendingHistoryIdx, id);
      MatchesSettled(owners, pendingHistoryIdx, id);
      var idx := pendingHistoryIdx[id];
      SettleAt(Ledger(), idx, id, success, failureClass, tokens);
      pendingHistoryIdx := pendingHistoryIdx - {id};
      var record := requestHistory[idx].(success := success, failureClass := ClassOf(success, failureClass));
      record := record.(tokens := if success then tokens else NO_TOKENS);
      ZipUpdate(requestHistory, owners, idx, record, None);
      requestHistory := requestHistory[idx := record];
      owners := owners[idx := None];
    }

    /** RecordRequestFinalizeOutcome, once the record is found. */
    method FinalizeOutcome(c: Config, id: nat, success: bool, failureClass: FailureClass, tokens: Tokens, now: int)
      requires Valid() && ValidConfig(c) && Tracks(id)
      modifies this
      ensures Valid() && metricsKey == old(metricsKey)
      ensures Ledger() == Settle(old(Ledger()), id, success, failureClass, tokens)
      ensures Breaker() == if success then OnSuccess(c, old(Breaker()), now)
                           else OnFailure(c, old(Breaker()), failureClass, now)
      ensures requestCount == old(requestCount) + 1 && cancels == old(cancels)
      ensures successCount == old(successCount) + (if success then 1 else 0)
      ensures failureCount == old(failureCount) + (if success then 0 else 1)
      ensures lastSuccessAt == (if success then Some(now) else old(lastSuccessAt))
      ensures lastFailureAt == (if success then old(lastFailureAt) else Some(now))
    {
      hide Settle, OnSuccess, OnFailure;
      SettleRecord(id, success, failureClass, tokens);
      CountOutcome(c, success, failureClass, now);
    }

    /** Cuts the record of id out of the history and moves the later indexes down. */
    method RemoveRecord(id: nat)
      requires IndexMatches() && Tracks(id)
      modifies this`requestHistory, this`pendingHistoryIdx, this`owners
      ensures IndexMatches()
      ensures Ledger() == Remove(old(Ledger()), id)
    {
      hide Remove, Zip, Matches, Cut;
      IndexedIsOwned(requestHistory, owners, pendingHistoryIdx, id);
      MatchesCut(owners, pendingHistoryIdx, id);
      var idx := pendingHistoryIdx[id];
      RemoveAt(Ledger(), idx, id);
      ZipTake(requestHistory, owners, idx);
      ZipDrop(requestHistory, owners, idx + 1);
      ZipAppend(requestHistory[..idx], owners[..idx], requestHistory[idx + 1..], owners[idx + 1..]);
      requestHistory := requestHistory[..idx] + requestHistory[idx + 1..];
      owners := owners[..idx] + owners[idx + 1..];
      pendingHistoryIdx := Cut(pendingHistoryIdx, idx, id);
    }

    /** RecordRequestFinalizeClientCancel, once the record is found. */
    method FinalizeClientCancel(id: nat)
      requires Valid() && Tracks(id)
      modifies this`requestHistory, this`pendingHistoryIdx, this`owners, this`requestCount, this`cancels
      ensures Valid()
      ensures Ledger() == Remove(old(Ledger()), id)
      ensures requestCount == old(requestCount) + 1 && cancels == old(cancels) + 1
    {
      hide Remove;
      RemoveRecord(id);
      requestCount := requestCount + 1;
      cancels := cancels + 1;
    }

    method ClearCounters()
      modifies this`requestCount, this`successCount, this`failureCount, this`cancels,
        this`lastSuccessAt, this`lastFailureAt
      ensures requestCount == successCount == failureCount == cancels == 0
      ensures lastSuccessAt.None? && lastFailureAt.None?
    {
      requestCount, successCount, failureCount := 0, 0, 0;
      cancels := 0;
      lastSuccessAt, lastFailureAt := None, None;
    }

    method ClearHistory()
      modifies this`requestHistory, this`owners, this`pendingHistoryIdx
      ensures IndexMatches() && Ledger() == [] && pendingHistoryIdx == map[]
    {
      MatchesNothing();
      requestHistory, owners, pendingHistoryIdx := [], [], map[];
    }

    method ResetKey()
      modifies this
      ensures Valid() && metricsKey == old(metricsKey)
      ensures Ledger() == [] && pendingHistoryIdx == map[]
      ensures Breaker() == Reset(old(Breaker()), true)
      ensures requestCount == successCount == failureCount == cancels == 0
    {
      hide Zip, Matches, Reset;
      ClearCounters();
      ClearHistory();
      ResetCircuitState(true);
    }

    /** The history part of a merge: the source's records and indexes go behind this key's. */
    method AppendHistoryOf(src: KeyMetrics)
      requires IndexMatches() && src.IndexMatches() && src != this
      requires pendingHistoryIdx.Keys !! src.pendingHistoryIdx.Keys
      modifies this`requestHistory, this`pendingHistoryIdx, this`owners
      ensures IndexMatches()
      ensures Ledger() == old(Ledger()) + src.Ledger()
      ensures pendingHistoryIdx.Keys == old(pendingHistoryIdx.Keys) + src.pendingHistoryIdx.Keys
    {
      hide Zip, Offset;
      if |src.requestHistory| > 0 {
        var offset := |requestHistory|;
        MatchesMerged(owners, pendingHistoryIdx, src.owners, src.pendingHistoryIdx);
        ZipAppend(requestHistory, owners, src.requestHistory, src.owners);
        requestHistory := requestHistory + src.requestHistory;
        owners := owners + src.owners;
        pendingHistoryIdx := pendingHistoryIdx + Offset(src.pendingHistoryIdx, offset);
      }
    }

    method MergeRunsOf(c: Config, src: KeyMetrics)
      requires src != this
      modifies this`backoffLevel, this`halfOpenSuccesses, this`probeInFlight, this`consecutiveFailures, this`breakerResults
      ensures consecutiveFailures == Max(old(consecutiveFailures), src.consecutiveFailures)
      ensures breakerResults == if src.breakerResults == [] then old(breakerResults)
        else LastN(old(breakerResults) + src.breakerResults, c.windowSize)
      ensures probeInFlight == (old(probeInFlight) || src.probeInFlight)
      ensures backoffLevel == Max(old(backoffLevel), src.backoffLevel)
      ensures halfOpenSuccesses == Max(old(halfOpenSuccesses), src.halfOpenSuccesses)
    {
      hide LastN;
      if src.consecutiveFailures > consecutiveFailures {
        consecutiveFailures := src.consecutiveFailures;
      }
      if |src.breakerResults| > 0 {
        breakerResults := LastN(breakerResults + src.breakerResults, c.windowSize);
      }
      if src.probeInFlight {
        probeInFlight := true;
      }
      if src.backoffLevel > backoffLevel {
        backoffLevel := src.backoffLevel;
      }
      if src.halfOpenSuccesses > halfOpenSuccesses {
        halfOpenSuccesses := src.halfOpenSuccesses;
      }
    }

    /** The breaker part of a merge: field-wise maxima. */
    method MergeBreakerOf(c: Config, src: KeyMetrics)
      requires src != this
      modifies this`circuitState, this`circuitBrokenAt, this`halfOpenAt, this`nextRetryAt, this`backoffLevel,
        this`halfOpenSuccesses, this`probeInFlight, this`consecutiveFailures, this`breakerResults
      ensures Breaker() == Merged(c, old(Breaker()), src.Breaker())
    {
      hide LastN, Severity, Later, Max;
      MergeRunsOf(c, src);
      circuitBrokenAt := Later(circuitBrokenAt, src.circuitBrokenAt);
      halfOpenAt := Later(halfOpenAt, src.halfOpenAt);
      nextRetryAt := Later(nextRetryAt, src.nextRetryAt);
      if Severity(src.circuitState) > Severity(circuitState) {
        circuitState := src.circuitState;
      }
    }

    method MergeCountsOf(src: KeyMetrics)
      requires src != this
      modifies this`requestCount, this`successCount, this`failureCount, this`cancels,
        this`lastSuccessAt, this`lastFailureAt
      ensures requestCount == old(requestCount) + src.requestCount
      ensures successCount == old(successCount) + src.successCount
      ensures failureCount == old(failureCount) + src.failureCount
      ensures cancels == old(cancels) + src.cancels
    {
      requestCount := requestCount + src.requestCount;
      successCount := successCount + src.successCount;
      failureCount := failureCount + src.failureCount;
      cancels := cancels + src.cancels;
      lastSuccessAt := Later(lastSuccessAt, src.lastSuccessAt);
      lastFailureAt := Later(lastFailureAt, src.lastFailureAt);
    }

    /** Adds another key's metrics to this one: counts sum, histories concatenate, the rest is maxima. */
    method MergeFrom(c: Config, src: KeyMetrics)
      requires Valid() && src.Valid() && src != this
      requires pendingHistoryIdx.Keys !! src.pendingHistoryIdx.Keys
      modifies this
      ensures Valid() && metricsKey == old(metricsKey)
      ensures Ledger() == old(Ledger()) + src.Ledger()
      ensures pendingHistoryIdx.Keys == old(pendingHistoryIdx.Keys) + src.pendingHistoryIdx.Keys
      ensures requestCount == old(requestCount) + src.requestCount && cancels == old(cancels) + src.cancels
      ensures successCount == old(successCount) + src.successCount && failureCount == old(failureCount) + src.failureCount
      ensures Breaker() == Merged(c, old(Breaker()), src.Breaker())
    {
      hide Zip, Matches, Merged;
      MergeCountsOf(src);
      AppendHistoryOf(src);
      MergeBreakerOf(c, src);
    }
  }
}
