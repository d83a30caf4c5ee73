// The rate-limiting dispatcher as a transition system: any number of
// acquirers, one runner goroutine, a token channel and two queues. Every
// action is one atomic step of the code between two blocking points or
// shared accesses; the environment may cancel a context or let time pass.
module Dispatcher {

  const QUEUE_LIMIT := 4096
  /** time.Minute / 10 in nanoseconds */
  const DEFAULT_INTERVAL := 6_000_000_000

  datatype Request = Request(owner: nat, interval: int, priority: bool)

  /**
   * Where an acquirer stands: past the closed check under the read lock, with
   * a token but not yet queued, waiting for its grant, or returned.
   */
  datatype Phase = Entering | Holding | Waiting | Granted | Refused | GaveUp

  datatype Acquirer = Acquirer(request: Request, phase: Phase)

  /** Where the runner stands in its loop. */
  datatype Runner =
    | FirstDrain
    | CheckDue
    | SecondDrain
    | Pop
    | ReleaseSlot(current: Request)
    | CheckContext(current: Request)
    | Signal(current: Request)
    | Schedule(current: Request)
    | Decide
    | Select
    | WantLock
    | Stopped

  /** A popped request and whether its context was still alive. */
  datatype Settled = Settled(request: Request, granted: bool)

  datatype Grant = Grant(request: Request, time: int)

  datatype State = State(
    now: int,
    tokens: nat,
    normalQueue: seq<Request>,
    priorityQueue: seq<Request>,
    pendingNormal: seq<Request>,
    pendingPriority: seq<Request>,
    runner: Runner,
    nextAvailable: int,
    lastUsed: int,
    idleTTL: int,
    closed: bool,
    acquirers: map<nat, Acquirer>,
    cancelled: set<nat>,
    ready: set<nat>,
    // history
    enqueuedNormal: seq<Request>,
    enqueuedPriority: seq<Request>,
    settledNormal: seq<Settled>,
    settledPriority: seq<Settled>,
    grants: seq<Grant>,
    drained: nat          // priority requests ever queued when the last drain found the queue empty
  )

  function Start(now: int, idleTTL: int): State {
    State(now, 0, [], [], [], [], FirstDrain, now, now, idleTTL, false, map[], {}, {}, [], [], [], [], [], 0)
  }

  datatype Action =
    | Tick(d: nat)
    | ContextDone(id: nat)
    // an acquirer
    | Arrive(id: nat, interval: int, priority: bool)
    | GiveUpEntering(id: nat)
    | TakeToken(id: nat)
    | GiveUpHolding(id: nat)
    | Enqueue(id: nat)
    | GiveUpWaiting(id: nat)
    | TakeGrant(id: nat)
    // the runner
    | DrainOne
    | DrainEnd
    | Due
    | PopOne
    | DropToken
    | LookAtContext
    | SendSignal
    | SetNextAvailable
    | DecideWait
    | SelectPriority
    | SelectNormal
    | SelectTimer
    | SelectIdle
    | CloseIfIdle

  predicate In(s: State, id: nat, phase: Phase) {
    id in s.acquirers && s.acquirers[id].phase == phase
  }

  function Moved(s: State, id: nat, phase: Phase): map<nat, Acquirer>
    requires id in s.acquirers
  {
    s.acquirers[id := s.acquirers[id].(phase := phase)]
  }

  function QueueOf(s: State, priority: bool): seq<Request> {
    if priority then s.priorityQueue else s.normalQueue
  }

  /** Nobody holds the read lock. */
  predicate NoReaders(s: State) {
    forall id :: id in s.acquirers ==> s.acquirers[id].phase != Entering && s.acquirers[id].phase != Holding
  }

  predicate Pending(s: State) {
    |s.pendingPriority| + |s.pendingNormal| > 0
  }

  function Interval(r: Request): int {
    if r.interval <= 0 then DEFAULT_INTERVAL else r.interval
  }

  predicate Enabled(s: State, a: Action) {
    match a
    case Tick(_) => true
    case ContextDone(id) => id in s.acquirers
    case Arrive(id, _, _) => id !in s.acquirers
    case GiveUpEntering(id) => In(s, id, Entering) && id in s.cancelled
    case TakeToken(id) => In(s, id, Entering) && s.tokens < QUEUE_LIMIT
    case GiveUpHolding(id) => In(s, id, Holding) && id in s.cancelled
    case Enqueue(id) => In(s, id, Holding) && |QueueOf(s, s.acquirers[id].request.priority)| < QUEUE_LIMIT
    case GiveUpWaiting(id) => In(s, id, Waiting) && id in s.cancelled
    case TakeGrant(id) => In(s, id, Waiting) && id in s.ready
    case DrainOne => (s.runner.FirstDrain? || s.runner.SecondDrain?) && s.priorityQueue != []
    case DrainEnd => (s.runner.FirstDrain? || s.runner.SecondDrain?) && s.priorityQueue == []
    case Due => s.runner.CheckDue?
    case PopOne => s.runner.Pop? && Pending(s)
    case DropToken => s.runner.ReleaseSlot?
    case LookAtContext => s.runner.CheckContext?
    case SendSignal => s.runner.Signal?
    case SetNextAvailable => s.runner.Schedule?
    case DecideWait => s.runner.Decide?
    case SelectPriority => s.runner.Select? && s.priorityQueue != []
    case SelectNormal => s.runner.Select? && s.normalQueue != []
    case SelectTimer => s.runner.Select? && Pending(s) && s.nextAvailable <= s.now
    case SelectIdle => s.runner.Select?
    case CloseIfIdle => s.runner.WantLock? && NoReaders(s)
  }

  function Next(s: State, a: Action): State
    requires Enabled(s, a)
  {
    match a
    case Tick(d) => s.(now := s.now + d)
    case ContextDone(id) => s.(cancelled := s.cancelled + {id})
    case Arrive(id, interval, priority) =>
      s.(acquirers := s.acquirers[id :=
        Acquirer(Request(id, interval, priority), if s.closed then Refused else Entering)])
    case GiveUpEntering(id) => s.(acquirers := Moved(s, id, GaveUp))
    case TakeToken(id) => s.(acquirers := Moved(s, id, Holding), tokens := s.tokens + 1)
    case GiveUpHolding(id) =>
      s.(acquirers := Moved(s, id, GaveUp), tokens := if s.tokens > 0 then s.tokens - 1 else 0)
    case Enqueue(id) =>
      var r := s.acquirers[id].request;
      var s' := s.(acquirers := Moved(s, id, Waiting), lastUsed := s.now);
      if r.priority
      then s'.(priorityQueue := s.priorityQueue + [r], enqueuedPriority := s.enqueuedPriority + [r])
      else s'.(normalQueue := s.normalQueue + [r], enqueuedNormal := s.enqueuedNormal + [r])
    case GiveUpWaiting(id) => s.(acquirers := Moved(s, id, GaveUp))
    case TakeGrant(id) => s.(acquirers := Moved(s, id, Granted), lastUsed := s.now)
    case DrainOne => ReceivePriority(s)
    case DrainEnd =>
      if s.runner.FirstDrain? then s.(runner := CheckDue)
      else s.(runner := Pop, drained := |s.enqueuedPriority|)
    case Due =>
      s.(runner := if Pending(s) && s.nextAvailable <= s.now then SecondDrain else Decide)
    case PopOne =>
      if s.pendingPriority != []
      then s.(runner := ReleaseSlot(s.pendingPriority[0]), pendingPriority := s.pendingPriority[1..])
      else s.(runner := ReleaseSlot(s.pendingNormal[0]), pendingNormal := s.pendingNormal[1..])
    case DropToken =>
      s.(runner := CheckContext(s.runner.current), tokens := if s.tokens > 0 then s.tokens - 1 else 0)
    case LookAtContext =>
      var r := s.runner.current;
      if r.owner in s.cancelled then Settle(s, r, false).(runner := FirstDrain)
      else s.(runner := Signal(r))
    case SendSignal =>
      var r := s.runner.current;
      Settle(s, r, true).(runner := Schedule(r), ready := s.ready + {r.owner},
                          grants := s.grants + [Grant(r, s.now)], lastUsed := s.now)
    case SetNextAvailable =>
      s.(runner := FirstDrain, nextAvailable := s.now + Interval(s.runner.current))
    case DecideWait =>
      s.(runner := if Pending(s) && s.nextAvailable - s.now <= 0 then FirstDrain else Select)
    case SelectPriority => ReceivePriority(s).(runner := FirstDrain)
    case SelectNormal =>
      s.(runner := FirstDrain, normalQueue := s.normalQueue[1..],
         pendingNormal := s.pendingNormal + [s.normalQueue[0]], lastUsed := s.now)
    case SelectTimer => s.(runner := FirstDrain)
    case SelectIdle => s.(runner := WantLock)
    case CloseIfIdle =>
      if s.now - s.lastUsed >= s.idleTTL && !Pending(s) && s.priorityQueue == [] && s.normalQueue == [] && s.tokens == 0
      then s.(runner := Stopped, closed := true)
      else s.(runner := FirstDrain)
  }

  function ReceivePriority(s: State): State
    requires s.priorityQueue != []
  {
    s.(priorityQueue := s.priorityQueue[1..], pendingPriority := s.pendingPriority + [s.priorityQueue[0]],
       lastUsed := s.now)
  }

  function Settle(s: State, r: Request, granted: bool): State {
    if r.priority then s.(settledPriority := s.settledPriority + [Settled(r, granted)])
    else s.(settledNormal := s.settledNormal + [Settled(r, granted)])
  }

  // ---------- Runs ----------

  predicate Runs(s: State, actions: seq<Action>)
    decreases actions
  {
    actions != [] ==> Enabled(s, actions[0]) && Runs(Next(s, actions[0]), actions[1..])
  }

  function After(s: State, actions: seq<Action>): State
    requires Runs(s, actions)
    decreases actions
  {
    if actions == [] then s else After(Next(s, actions[0]), actions[1..])
  }

  // ---------- Token and queue invariant ----------

  function Holders(s: State): set<nat> {
    set id | id in s.acquirers && s.acquirers[id].phase == Holding
  }

  /** Requests popped from the pending lists that are not settled yet. */
  function InHand(s: State, priority: bool): seq<Request> {
    if (s.runner.ReleaseSlot? || s.runner.CheckContext? || s.runner.Signal?) && s.runner.current.priority == priority
    then [s.runner.current] else []
  }

  function RequestsOf(log: seq<Settled>): (r: seq<Request>)
    ensures |r| == |log|
  {
    seq(|log|, i requires 0 <= i < |log| => log[i].request)
  }

  /** One token per holder and per queued or pending request, and one being dropped. */
  predicate TokensMatch(s: State) {
    && s.tokens == |Holders(s)| + |s.normalQueue| + |s.priorityQueue| + |s.pendingNormal| + |s.pendingPriority|
                   + (if s.runner.ReleaseSlot? then 1 else 0)
    && s.tokens <= QUEUE_LIMIT
  }

  function EnqueuedOf(s: State, priority: bool): seq<Request> {
    if priority then s.enqueuedPriority else s.enqueuedNormal
  }

  function SettledOf(s: State, priority: bool): seq<Settled> {
    if priority then s.settledPriority else s.settledNormal
  }

  function PendingOf(s: State, priority: bool): seq<Request> {
    if priority then s.pendingPriority else s.pendingNormal
  }

  /** A class is served first in, first out; nothing is lost on the way. */
  predicate QueueMatches(s: State, priority: bool) {
    && EnqueuedOf(s, priority) ==
         RequestsOf(SettledOf(s, priority)) + InHand(s, priority) + (PendingOf(s, priority) + QueueOf(s, priority))
    && forall r :: r in EnqueuedOf(s, priority) ==> r.priority == priority
  }

  predicate QueuesMatch(s: State) {
    QueueMatches(s, true) && QueueMatches(s, false)
  }

  predicate OwnersMatch(s: State) {
    forall id :: id in s.acquirers ==> s.acquirers[id].request.owner == id
  }

  /** A waiting acquirer's request really was queued. */
  predicate WaitersQueued(s: State) {
    forall id :: id in s.acquirers && s.acquirers[id].phase == Waiting ==>
      s.acquirers[id].request in EnqueuedOf(s, s.acquirers[id].request.priority)
  }

  /** A settled request was signalled, or its context was over. */
  predicate SettledAccounted(s: State, priority: bool) {
    forall i :: 0 <= i < |SettledOf(s, priority)| ==>
      var e := SettledOf(s, priority)[i];
      if e.granted then e.request.owner in s.ready else e.request.owner in s.cancelled
  }

  predicate AcquirersMatch(s: State) {
    OwnersMatch(s) && WaitersQueued(s) && SettledAccounted(s, true) && SettledAccounted(s, false)
  }

  predicate ClosedMeansEmpty(s: State) {
    && (s.closed <==> s.runner.Stopped?)
    && (s.closed ==> NoReaders(s) && !Pending(s) && s.priorityQueue == [] && s.normalQueue == [])
  }

  predicate PopIsSafe(s: State) {
    s.runner.SecondDrain? || s.runner.Pop? ==> Pending(s)
  }

  ghost predicate Inv(s: State) {
    TokensMatch(s) && QueuesMatch(s) && AcquirersMatch(s) && ClosedMeansEmpty(s) && PopIsSafe(s)
  }

  predicate ByAcquirer(a: Action) {
    || a.Arrive? || a.GiveUpEntering? || a.TakeToken? || a.GiveUpHolding? || a.Enqueue? || a.GiveUpWaiting?
    || a.TakeGrant? || a.Tick? || a.ContextDone?
  }

  /** Acquirers and the environment leave the runner's own state alone. */
  lemma AcquirerFrame(s: State, a: Action)
    requires Enabled(s, a) && ByAcquirer(a)
    ensures var s' := Next(s, a);
      && s'.runner == s.runner && s'.nextAvailable == s.nextAvailable && s'.closed == s.closed
      && s'.pendingNormal == s.pendingNormal && s'.pendingPriority == s.pendingPriority
      && s'.settledNormal == s.settledNormal && s'.settledPriority == s.settledPriority
      && s'.grants == s.grants && s'.ready == s.ready && s'.drained == s.drained
      && s.cancelled <= s'.cancelled && s.now <= s'.now
      && |s.enqueuedPriority| <= |s'.enqueuedPriority|
  {
    hide NoReaders, Pending;
  }

  /** The runner leaves the acquirers and the queueing history alone. */
  predicate CallersUntouched(s: State, s': State) {
    && s'.acquirers == s.acquirers && s'.cancelled == s.cancelled && s'.now == s.now
    && s'.enqueuedNormal == s.enqueuedNormal && s'.enqueuedPriority == s.enqueuedPriority
    && s.ready <= s'.ready
  }

  /** Receiving and waiting. */
  predicate ByRunnerLoop(a: Action) {
    || a.DrainOne? || a.DrainEnd? || a.Due? || a.DecideWait? || a.SelectPriority? || a.SelectNormal?
    || a.SelectTimer? || a.SelectIdle? || a.CloseIfIdle?
  }

  lemma LoopFrame(s: State, a: Action)
    requires Enabled(s, a) && ByRunnerLoop(a)
    ensures CallersUntouched(s, Next(s, a))
  {
    hide NoReaders, Pending, Moved, QueueOf, Interval;
  }

  lemma RunnerFrame(s: State, a: Action)
    requires Enabled(s, a) && !ByAcquirer(a)
    ensures CallersUntouched(s, Next(s, a))
  {
    hide NoReaders, Pending, Moved, QueueOf, Interval;
    if ByRunnerLoop(a) {
      LoopFrame(s, a);
    }
  }

  lemma HoldersSame(s: State, s': State)
    requires s.acquirers == s'.acquirers
    ensures Holders(s) == Holders(s')
  {
  }

  lemma TokensKeptByAcquirer(s: State, a: Action)
    requires Inv(s) && Enabled(s, a) && ByAcquirer(a)
    ensures TokensMatch(Next(s, a))
  {
    hide Holders, QueuesMatch, AcquirersMatch, ClosedMeansEmpty, PopIsSafe;
    var s' := Next(s, a);
    match a {
      case Arrive(id, interval, priority) => HoldersArrive(s, s', id);
      case GiveUpEntering(id) => HoldersLeave(s, s', id);
      case TakeToken(id) => HoldersEnter(s, s', id);
      case GiveUpHolding(id) => HoldersLeave(s, s', id);
      case Enqueue(id) => HoldersLeave(s, s', id);
      case GiveUpWaiting(id) => HoldersLeave(s, s', id);
      case TakeGrant(id) => HoldersLeave(s, s', id);
      case _ => HoldersSame(s, s');
    }
  }

  lemma TokensKeptByRunner(s: State, a: Action)
    requires Inv(s) && Enabled(s, a) && !ByAcquirer(a)
    ensures TokensMatch(Next(s, a))
  {
    hide Holders, QueuesMatch, AcquirersMatch, PopIsSafe, Interval;
    HoldersSame(s, Next(s, a));
  }

  lemma TokensKept(s: State, a: Action)
    requires Inv(s) && Enabled(s, a)
    ensures TokensMatch(Next(s, a))
  {
    hide Inv, Enabled, Next, TokensMatch;
    if ByAcquirer(a) {
      TokensKeptByAcquirer(s, a);
    } else {
      TokensKeptByRunner(s, a);
    }
  }

  lemma HoldersArrive(s: State, s': State, id: nat)
    requires id !in s.acquirers
    requires exists a :: s'.acquirers == s.acquirers[id := a] && a.phase != Holding
    ensures Holders(s') == Holders(s)
  {
  }

  lemma HoldersEnter(s: State, s': State, id: nat)
    requires In(s, id, Entering) && s'.acquirers == Moved(s, id, Holding)
    ensures |Holders(s')| == |Holders(s)| + 1
  {
    assert Holders(s') == Holders(s) + {id};
  }

  lemma HoldersLeave(s: State, s': State, id: nat)
    requires id in s.acquirers
    requires exists phase: Phase :: phase != Holding && s'.acquirers == Moved(s, id, phase)
    ensures |Holders(s')| == |Holders(s)| - (if In(s, id, Holding) then 1 else 0)
  {
    assert Holders(s') == Holders(s) - {id};
  }

  // One step moves at most one request one place along its class.

  lemma MoveToPending(a: seq<Request>, p: seq<Request>, q: seq<Request>)
    requires q != []
    ensures a + (p + q) == a + ((p + [q[0]]) + q[1..])
  {
    assert [q[0]] + q[1..] == q;
  }

  lemma MoveToHand(a: seq<Request>, p: seq<Request>, q: seq<Request>)
    requires p != []
    ensures a + [] + (p + q) == a + [p[0]] + (p[1..] + q)
  {
  }

  lemma MoveToSettled(log: seq<Settled>, e: Settled, rest: seq<Request>)
    ensures RequestsOf(log) + [e.request] + rest == RequestsOf(log + [e]) + [] + rest
  {
    assert RequestsOf(log + [e]) == RequestsOf(log) + [e.request];
  }

  lemma MoveIntoQueue(a: seq<Request>, p: seq<Request>, q: seq<Request>, r: Request)
    ensures a + (p + q) + [r] == a + (p + (q + [r]))
  {
  }

  lemma QueueKeptByReceive(s: State, a: Action, priority: bool)
    requires Inv(s) && Enabled(s, a) && (a.DrainOne? || a.SelectPriority? || a.SelectNormal?)
    ensures QueueMatches(Next(s, a), priority)
  {
    hide TokensMatch, AcquirersMatch, ClosedMeansEmpty, PopIsSafe, RequestsOf, Interval;
    if a.SelectNormal? != priority {
      MoveToPending(RequestsOf(SettledOf(s, priority)) + InHand(s, priority), PendingOf(s, priority), QueueOf(s, priority));
    }
  }

  lemma QueueKeptByPop(s: State, priority: bool)
    requires Inv(s) && Enabled(s, PopOne)
    ensures QueueMatches(Next(s, PopOne), priority)
  {
    hide TokensMatch, AcquirersMatch, ClosedMeansEmpty, PopIsSafe, RequestsOf, Interval;
    var p := PendingOf(s, priority);
    if (s.pendingPriority != []) == priority {
      MoveToHand(RequestsOf(SettledOf(s, priority)), p, QueueOf(s, priority));
      assert p[0] in EnqueuedOf(s, priority) by { InPending(s, priority); }
    }
  }

  lemma InPending(s: State, priority: bool)
    requires QueueMatches(s, priority) && PendingOf(s, priority) != []
    ensures PendingOf(s, priority)[0] in EnqueuedOf(s, priority)
  {
    var before := RequestsOf(SettledOf(s, priority)) + InHand(s, priority);
    assert EnqueuedOf(s, priority)[|before|] == PendingOf(s, priority)[0];
  }

  lemma QueueKeptBySettling(s: State, a: Action, priority: bool)
    requires Inv(s) && Enabled(s, a) && (a.LookAtContext? || a.SendSignal?)
    ensures QueueMatches(Next(s, a), priority)
  {
    hide TokensMatch, AcquirersMatch, ClosedMeansEmpty, PopIsSafe, RequestsOf, Interval;
    if s.runner.current.priority == priority {
      MoveToSettled(SettledOf(s, priority), Settled(s.runner.current, a.SendSignal?),
                    PendingOf(s, priority) + QueueOf(s, priority));
    }
  }

  lemma QueueKeptByEnqueue(s: State, id: nat, priority: bool)
    requires Inv(s) && Enabled(s, Enqueue(id))
    ensures QueueMatches(Next(s, Enqueue(id)), priority)
  {
    hide TokensMatch, AcquirersMatch, ClosedMeansEmpty, PopIsSafe, RequestsOf, Interval;
    MoveIntoQueue(RequestsOf(SettledOf(s, priority)) + InHand(s, priority), PendingOf(s, priority),
                  QueueOf(s, priority), s.acquirers[id].request);
  }

  lemma QueueKept(s: State, a: Action, priority: bool)
    requires Inv(s) && Enabled(s, a)
    ensures QueueMatches(Next(s, a), priority)
  {
    hide Inv, Enabled, QueueMatches, TokensMatch, RequestsOf;
    match a {
      case DrainOne => QueueKeptByReceive(s, a, priority);
      case SelectPriority => QueueKeptByReceive(s, a, priority);
      case SelectNormal => QueueKeptByReceive(s, a, priority);
      case PopOne => QueueKeptByPop(s, priority);
      case LookAtContext => QueueKeptBySettling(s, a, priority);
      case SendSignal => QueueKeptBySettling(s, a, priority);
      case Enqueue(id) => QueueKeptByEnqueue(s, id, priority);
      case _ => QueueUntouched(s, a, priority);
    }
  }

  lemma QueueUntouched(s: State, a: Action, priority: bool)
    requires Inv(s) && Enabled(s, a)
    requires !(a.DrainOne? || a.SelectPriority? || a.SelectNormal? || a.PopOne? || a.LookAtContext? || a.SendSignal? || a.Enqueue?)
    ensures QueueMatches(Next(s, a), priority)
  {
    hide TokensMatch, AcquirersMatch, ClosedMeansEmpty, PopIsSafe, RequestsOf, Interval;
  }

  lemma QueuesKept(s: State, a: Action)
    requires Inv(s) && Enabled(s, a)
    ensures QueuesMatch(Next(s, a))
  {
    hide Inv, Enabled, Next, QueueMatches;
    QueueKept(s, a, true);
    QueueKept(s, a, false);
  }

  lemma OwnersKeptByAcquirer(s: State, a: Action)
    requires OwnersMatch(s) && Enabled(s, a) && ByAcquirer(a)
    ensures OwnersMatch(Next(s, a))
  {
    hide Pending, NoReaders, QueueOf;
  }

  lemma WaitersKeptByAcquirer(s: State, a: Action)
    requires WaitersQueued(s) && Enabled(s, a) && ByAcquirer(a)
    ensures WaitersQueued(Next(s, a))
  {
    hide Pending, NoReaders, QueueOf;
  }

  lemma CallersKept(s: State, a: Action)
    requires Inv(s) && Enabled(s, a)
    ensures OwnersMatch(Next(s, a)) && WaitersQueued(Next(s, a))
  {
    hide Enabled, Next, TokensMatch, QueuesMatch, ClosedMeansEmpty, PopIsSafe, SettledAccounted;
    if ByAcquirer(a) {
      OwnersKeptByAcquirer(s, a);
      WaitersKeptByAcquirer(s, a);
    } else {
      RunnerFrame(s, a);
    }
  }

  lemma SettledBySettling(s: State, a: Action, priority: bool)
    requires SettledAccounted(s, priority) && Enabled(s, a) && (a.LookAtContext? || a.SendSignal?)
    ensures SettledAccounted(Next(s, a), priority)
  {
    hide Interval, Pending, NoReaders, Moved, QueueOf, ReceivePriority;
    var s' := Next(s, a);
    var before, after := SettledOf(s, priority), SettledOf(s', priority);
    forall i | 0 <= i < |after|
      ensures if after[i].granted then after[i].request.owner in s'.ready else after[i].request.owner in s'.cancelled
    {
      if i < |before| {
        assert after[i] == before[i];
      }
    }
  }

  lemma NothingSettled(s: State, a: Action, priority: bool)
    requires Enabled(s, a) && !ByAcquirer(a) && !a.LookAtContext? && !a.SendSignal?
    ensures var s' := Next(s, a);
      SettledOf(s', priority) == SettledOf(s, priority) && s'.ready == s.ready && s'.cancelled == s.cancelled
  {
    hide Interval, Pending, NoReaders, Moved, QueueOf;
  }

  lemma SettledKeptByRunner(s: State, a: Action, priority: bool)
    requires Inv(s) && Enabled(s, a) && !ByAcquirer(a)
    ensures SettledAccounted(Next(s, a), priority)
  {
    hide Next, Enabled, TokensMatch, QueuesMatch, ClosedMeansEmpty, PopIsSafe, OwnersMatch, WaitersQueued, SettledOf;
    assert SettledAccounted(s, true) && SettledAccounted(s, false);
    assert SettledAccounted(s, priority);
    if a.LookAtContext? || a.SendSignal? {
      hide SettledAccounted;
      SettledBySettling(s, a, priority);
    } else {
      NothingSettled(s, a, priority);
    }
  }

  lemma SettledKept(s: State, a: Action, priority: bool)
    requires Inv(s) && Enabled(s, a)
    ensures SettledAccounted(Next(s, a), priority)
  {
    hide Enabled, Next, TokensMatch, QueuesMatch, ClosedMeansEmpty, PopIsSafe, OwnersMatch, WaitersQueued;
    if ByAcquirer(a) {
      AcquirerFrame(s, a);
      assert SettledAccounted(s, true) && SettledAccounted(s, false);
      assert SettledOf(Next(s, a), priority) == SettledOf(s, priority);
      assert SettledAccounted(s, priority);
    } else {
      SettledKeptByRunner(s, a, priority);
    }
  }

  lemma AcquirersKept(s: State, a: Action)
    requires Inv(s) && Enabled(s, a)
    ensures AcquirersMatch(Next(s, a))
  {
    hide Inv, Enabled, Next, OwnersMatch, WaitersQueued, SettledAccounted;
    CallersKept(s, a);
    SettledKept(s, a, true);
    SettledKept(s, a, false);
  }

  lemma ClosedKept(s: State, a: Action)
    requires Inv(s) && Enabled(s, a)
    ensures ClosedMeansEmpty(Next(s, a)) && PopIsSafe(Next(s, a))
  {
    hide Holders, QueuesMatch, AcquirersMatch, Interval;
  }

  // ---------- Timing, priority and the grant log ----------

  /** The runner is between seeing nextAvailable reached and granting. */
  predicate Dispatching(s: State) {
    s.runner.SecondDrain? || s.runner.Pop? || s.runner.ReleaseSlot? || s.runner.CheckContext? || s.runner.Signal?
  }

  predicate Spaced(grants: seq<Grant>) {
    forall i :: 0 <= i < |grants| - 1 ==> grants[i].time + Interval(grants[i].request) <= grants[i + 1].time
  }

  predicate TimingMatches(s: State) {
    && Spaced(s.grants)
    && (Dispatching(s) ==> s.nextAvailable <= s.now)
    && (s.runner.Schedule? ==> s.grants != [])
    && (s.grants != [] ==>
          var last := s.grants[|s.grants| - 1];
          && last.time <= s.now
          && if s.runner.Schedule? then s.runner.current == last.request
             else last.time + Interval(last.request) <= s.nextAvailable <= s.now + Interval(last.request))
    && (s.grants == [] ==> s.nextAvailable <= s.now)
  }

  lemma SpacedAppend(grants: seq<Grant>, g: Grant)
    requires Spaced(grants)
    requires grants != [] ==> grants[|grants| - 1].time + Interval(grants[|grants| - 1].request) <= g.time
    ensures Spaced(grants + [g])
  {
    hide Interval;
  }

  lemma TimingKeptBySignal(s: State)
    requires TimingMatches(s) && Enabled(s, SendSignal)
    ensures TimingMatches(Next(s, SendSignal))
  {
    hide Pending, NoReaders, Spaced, Interval;
    SpacedAppend(s.grants, Grant(s.runner.current, s.now));
  }

  /** Any other step of the runner leaves the times alone, and begins to dispatch only when it is due. */
  lemma RunnerMoves(s: State, a: Action)
    requires Enabled(s, a) && !ByAcquirer(a) && !a.SendSignal? && !a.SetNextAvailable?
    ensures var s' := Next(s, a);
      && s'.grants == s.grants && s'.nextAvailable == s.nextAvailable && s'.now == s.now
      && !s.runner.Schedule? && !s'.runner.Schedule?
      && (Dispatching(s') ==> Dispatching(s) || s.nextAvailable <= s.now)
  {
    hide NoReaders, Moved, QueueOf, Interval;
  }

  lemma TimingKeptByScheduling(s: State)
    requires TimingMatches(s) && Enabled(s, SetNextAvailable)
    ensures TimingMatches(Next(s, SetNextAvailable))
  {
    hide Pending, NoReaders, Spaced, Moved, QueueOf;
  }

  lemma TimingKeptByRunner(s: State, a: Action)
    requires TimingMatches(s) && Enabled(s, a) && !ByAcquirer(a)
    ensures TimingMatches(Next(s, a))
  {
    if a.SendSignal? {
      TimingKeptBySignal(s);
    } else if a.SetNextAvailable? {
      TimingKeptByScheduling(s);
    } else {
      hide Enabled, Next, Spaced, Interval, Dispatching;
      RunnerMoves(s, a);
    }
  }

  lemma TimingKept(s: State, a: Action)
    requires TimingMatches(s) && Enabled(s, a)
    ensures TimingMatches(Next(s, a))
  {
    hide Enabled, Next, Spaced, Interval;
    if ByAcquirer(a) {
      AcquirerFrame(s, a);
    } else {
      TimingKeptByRunner(s, a);
    }
  }

  /** At the pop, every priority request queued before the drain ended is taken. */
  predicate DrainMatches(s: State) {
    s.runner.Pop? ==> |s.settledPriority| + |s.pendingPriority| == s.drained <= |s.enqueuedPriority|
  }

  lemma DrainKept(s: State, a: Action)
    requires DrainMatches(s) && Inv(s) && Enabled(s, a)
    ensures DrainMatches(Next(s, a))
  {
    hide TokensMatch, AcquirersMatch, ClosedMeansEmpty, PopIsSafe, Pending, NoReaders;
  }

  function GrantedIn(log: seq<Settled>): seq<Request> {
    if log == [] then []
    else GrantedIn(log[..|log| - 1]) + (if log[|log| - 1].granted then [log[|log| - 1].request] else [])
  }

  function GrantsOf(grants: seq<Grant>, priority: bool): seq<Request> {
    if grants == [] then []
    else
      var last := grants[|grants| - 1].request;
      GrantsOf(grants[..|grants| - 1], priority) + (if last.priority == priority then [last] else [])
  }

  /** The grants of a class are its settled requests minus the cancelled ones, in order. */
  predicate GrantsMatch(s: State, priority: bool) {
    GrantsOf(s.grants, priority) == GrantedIn(SettledOf(s, priority))
  }

  lemma GrantedAppend(log: seq<Settled>, e: Settled)
    ensures GrantedIn(log + [e]) == GrantedIn(log) + (if e.granted then [e.request] else [])
  {
    assert (log + [e])[..|log|] == log;
  }

  lemma GrantsAppend(grants: seq<Grant>, g: Grant, priority: bool)
    ensures GrantsOf(grants + [g], priority) ==
      GrantsOf(grants, priority) + (if g.request.priority == priority then [g.request] else [])
  {
    assert (grants + [g])[..|grants|] == grants;
  }

  lemma GrantsKeptByRunner(s: State, a: Action, priority: bool)
    requires GrantsMatch(s, priority) && Enabled(s, a) && !ByAcquirer(a)
    ensures GrantsMatch(Next(s, a), priority)
  {
    hide Pending, NoReaders, Interval, GrantedIn, GrantsOf;
    var log := SettledOf(s, priority);
    match a {
      case LookAtContext =>
        GrantedAppend(log, Settled(s.runner.current, false));
      case SendSignal =>
        GrantedAppend(log, Settled(s.runner.current, true));
        GrantsAppend(s.grants, Grant(s.runner.current, s.now), priority);
      case _ =>
    }
  }

  lemma GrantsKept(s: State, a: Action, priority: bool)
    requires GrantsMatch(s, priority) && Enabled(s, a)
    ensures GrantsMatch(Next(s, a), priority)
  {
    hide Enabled, Next, GrantsOf, GrantedIn;
    if ByAcquirer(a) {
      AcquirerFrame(s, a);
    } else {
      GrantsKeptByRunner(s, a, priority);
    }
  }

  // ---------- What callers are told ----------

  /** A caller may send only if signalled, gives up only if cancelled, and is refused only once closed. */
  predicate AnswersMatch(s: State) {
    forall id :: id in s.acquirers ==>
      match s.acquirers[id].phase
      case Granted => id in s.ready
      case GaveUp => id in s.cancelled
      case Refused => s.closed
      case _ => true
  }

  /** Exactly the owners of the grants are signalled. */
  predicate ReadyLogged(s: State) {
    && (forall id :: id in s.ready ==> exists i :: 0 <= i < |s.grants| && s.grants[i].request.owner == id)
    && forall i :: 0 <= i < |s.grants| ==> s.grants[i].request.owner in s.ready
  }

  predicate HasQueued(s: State, r: Request) {
    && r.owner in s.acquirers && s.acquirers[r.owner].request == r
    && !In(s, r.owner, Entering) && !In(s, r.owner, Holding) && !In(s, r.owner, Refused)
  }

  /** Every acquirer queues its request at most once. */
  predicate QueuedOnce(s: State, priority: bool) {
    && (forall i :: 0 <= i < |EnqueuedOf(s, priority)| ==> HasQueued(s, EnqueuedOf(s, priority)[i]))
    && forall i, j :: 0 <= i < j < |EnqueuedOf(s, priority)| ==> EnqueuedOf(s, priority)[i] != EnqueuedOf(s, priority)[j]
  }

  predicate Told(s: State) {
    AnswersMatch(s) && ReadyLogged(s) && QueuedOnce(s, true) && QueuedOnce(s, false)
  }

  lemma AnswersKept(s: State, a: Action)
    requires AnswersMatch(s) && Enabled(s, a)
    ensures AnswersMatch(Next(s, a))
  {
    if ByAcquirer(a) {
      hide NoReaders, Pending, QueueOf, Interval;
    } else {
      RunnerFrame(s, a);
      StaysClosed(s, a);
      hide Enabled, Next;
    }
  }

  lemma StaysClosed(s: State, a: Action)
    requires Enabled(s, a)
    ensures s.closed ==> Next(s, a).closed
  {
    hide NoReaders, Pending, Moved, QueueOf, Interval;
  }

  lemma OnlySignalsGrant(s: State, a: Action)
    requires Enabled(s, a)
    ensures !a.SendSignal? ==> Next(s, a).grants == s.grants && Next(s, a).ready == s.ready
    ensures a.SendSignal? ==>
      && Next(s, a).grants == s.grants + [Grant(s.runner.current, s.now)]
      && Next(s, a).ready == s.ready + {s.runner.current.owner}
  {
    hide NoReaders, Pending, Moved, QueueOf, Interval;
  }

  lemma ReadyKept(s: State, a: Action)
    requires ReadyLogged(s) && Enabled(s, a)
    ensures ReadyLogged(Next(s, a))
  {
    hide Next, Enabled;
    OnlySignalsGrant(s, a);
    var s' := Next(s, a);
    forall id | id in s'.ready
      ensures exists i :: 0 <= i < |s'.grants| && s'.grants[i].request.owner == id
    {
      if id in s.ready {
        var i :| 0 <= i < |s.grants| && s.grants[i].request.owner == id;
        assert s'.grants[i] == s.grants[i];
      } else {
        assert s'.grants[|s.grants|].request.owner == id;
      }
    }
  }

  lemma QueuedOnceKeptByAcquirer(s: State, a: Action, priority: bool)
    requires QueuedOnce(s, priority) && OwnersMatch(s) && Enabled(s, a) && ByAcquirer(a)
    ensures QueuedOnce(Next(s, a), priority)
  {
    var s' := Next(s, a);
    var before, after := EnqueuedOf(s, priority), EnqueuedOf(s', priority);
    if a.Enqueue? && s.acquirers[a.id].request.priority == priority {
      assert after == before + [s.acquirers[a.id].request];
      assert forall i :: 0 <= i < |before| ==> HasQueued(s, before[i]);
    } else {
      assert after == before;
    }
    forall i | 0 <= i < |before|
      ensures HasQueued(s', before[i])
    {
      assert HasQueued(s, before[i]);
      StillQueued(s, a, before[i]);
    }
  }

  lemma StillQueued(s: State, a: Action, r: Request)
    requires HasQueued(s, r) && Enabled(s, a) && ByAcquirer(a)
    ensures HasQueued(Next(s, a), r)
  {
    hide Pending, NoReaders, QueueOf;
  }

  lemma QueuedOnceKept(s: State, a: Action, priority: bool)
    requires QueuedOnce(s, priority) && OwnersMatch(s) && Enabled(s, a)
    ensures QueuedOnce(Next(s, a), priority)
  {
    hide Enabled, Next;
    if ByAcquirer(a) {
      QueuedOnceKeptByAcquirer(s, a, priority);
    } else {
      RunnerFrame(s, a);
      assert EnqueuedOf(Next(s, a), priority) == EnqueuedOf(s, priority);
      assert forall i :: 0 <= i < |EnqueuedOf(s, priority)| ==> HasQueued(s, EnqueuedOf(s, priority)[i]);
    }
  }

  lemma ToldKept(s: State, a: Action)
    requires Told(s) && Inv(s) && Enabled(s, a)
    ensures Told(Next(s, a))
  {
    hide Enabled, Next, AnswersMatch, ReadyLogged, QueuedOnce, TokensMatch, QueuesMatch, ClosedMeansEmpty, PopIsSafe,
         WaitersQueued, SettledAccounted, OwnersMatch;
    AnswersKept(s, a);
    ReadyKept(s, a);
    QueuedOnceKept(s, a, true);
    QueuedOnceKept(s, a, false);
  }

  // ---------- Every run ----------

  ghost predicate Safe(s: State) {
    Inv(s) && TimingMatches(s) && DrainMatches(s) && GrantsMatch(s, true) && GrantsMatch(s, false) && Told(s)
  }

  lemma SafeAtStart(now: int, idleTTL: int)
    ensures Safe(Start(now, idleTTL))
  {
    assert Holders(Start(now, idleTTL)) == {};
  }

  lemma SafeKept(s: State, a: Action)
    requires Safe(s) && Enabled(s, a)
    ensures Safe(Next(s, a))
  {
    hide Enabled, Next, TokensMatch, QueuesMatch, AcquirersMatch, ClosedMeansEmpty, PopIsSafe,
         TimingMatches, DrainMatches, GrantsMatch, Told;
    TokensKept(s, a);
    QueuesKept(s, a);
    AcquirersKept(s, a);
    ClosedKept(s, a);
    TimingKept(s, a);
    DrainKept(s, a);
    GrantsKept(s, a, true);
    GrantsKept(s, a, false);
    ToldKept(s, a);
  }

  lemma {:induction false} SafeAfter(s: State, actions: seq<Action>)
    requires Safe(s) && Runs(s, actions)
    ensures Safe(After(s, actions))
    decreases actions
  {
    hide Safe, Enabled, Next;
    if actions != [] {
      SafeKept(s, actions[0]);
      SafeAfter(Next(s, actions[0]), actions[1..]);
    }
  }

  ghost predicate Reachable(s: State) {
    exists now: int, idleTTL: int, actions: seq<Action> ::
      Runs(Start(now, idleTTL), actions) && s == After(Start(now, idleTTL), actions)
  }

  lemma ReachableIsSafe(s: State)
    requires Reachable(s)
    ensures Safe(s)
  {
    hide Safe;
    var now: int, idleTTL: int, actions: seq<Action> :|
      Runs(Start(now, idleTTL), actions) && s == After(Start(now, idleTTL), actions);
    SafeAtStart(now, idleTTL);
    SafeAfter(Start(now, idleTTL), actions);
  }

  /** The slot tokens count exactly the holders and the requests in the system. */
  lemma TokensCountRequests(s: State)
    requires Reachable(s)
    ensures s.tokens == |Holders(s)| + |s.normalQueue| + |s.priorityQueue| + |s.pendingNormal| + |s.pendingPriority|
                        + (if s.runner.ReleaseSlot? then 1 else 0)
    ensures s.tokens <= QUEUE_LIMIT
  {
    hide Reachable, Holders;
    ReachableIsSafe(s);
  }

  /** Whoever holds a token finds room in its queue. */
  lemma EnqueueNeverBlocks(s: State, id: nat)
    requires Reachable(s) && In(s, id, Holding)
    ensures Enabled(s, Enqueue(id))
  {
    hide Reachable, Told, AcquirersMatch, QueuesMatch, ClosedMeansEmpty, PopIsSafe, TimingMatches, DrainMatches, GrantsMatch;
    ReachableIsSafe(s);
    assert id in Holders(s);
    assert |Holders(s)| > 0;
  }

  /** The non-blocking receives that give a token back always find one. */
  lemma TokenRemovalsNeverMiss(s: State)
    requires Reachable(s)
    ensures s.runner.ReleaseSlot? ==> s.tokens > 0
    ensures forall id :: In(s, id, Holding) ==> s.tokens > 0
  {
    hide Reachable;
    ReachableIsSafe(s);
    forall id | In(s, id, Holding)
      ensures s.tokens > 0
    {
      assert id in Holders(s);
      assert |Holders(s)| > 0;
    }
  }

  /** The pop never indexes an empty list. */
  lemma PopNeverFails(s: State)
    requires Reachable(s) && s.runner.Pop?
    ensures Enabled(s, PopOne)
  {
    hide Reachable;
    ReachableIsSafe(s);
  }

  /** Grants and cancelled requests of a class come in the order of queueing. */
  lemma ClassIsFIFO(s: State, priority: bool)
    requires Reachable(s)
    ensures RequestsOf(SettledOf(s, priority)) <= EnqueuedOf(s, priority)
    ensures GrantsOf(s.grants, priority) == GrantedIn(SettledOf(s, priority))
  {
    hide Reachable, TokensMatch, AcquirersMatch, RequestsOf;
    ReachableIsSafe(s);
    assert priority || !priority;
    assert QueueMatches(s, priority) && GrantsMatch(s, priority);
    PrefixOfSum(RequestsOf(SettledOf(s, priority)), InHand(s, priority), PendingOf(s, priority) + QueueOf(s, priority));
  }

  lemma PrefixOfSum(a: seq<Request>, b: seq<Request>, c: seq<Request>)
    ensures a <= a + b + c
  {
  }

  /**
   * A waiting acquirer is still in the system, or has been signalled, or its
   * context is over. Once the dispatcher is closed the first is impossible.
   */
  lemma NobodyIsStranded(s: State, id: nat)
    requires Reachable(s) && In(s, id, Waiting)
    ensures id in s.ready || id in s.cancelled
         || (!s.closed &&
             var r := s.acquirers[id].request;
             r in InHand(s, r.priority) || r in PendingOf(s, r.priority) || r in QueueOf(s, r.priority))
  {
    hide Reachable, TokensMatch, TimingMatches, DrainMatches, GrantsMatch, RequestsOf;
    ReachableIsSafe(s);
    var r := s.acquirers[id].request;
    assert r.priority || !r.priority;
    assert QueueMatches(s, r.priority) && SettledAccounted(s, r.priority);
    InOneOf(s, r.priority, r);
  }

  lemma InOneOf(s: State, priority: bool, r: Request)
    requires QueueMatches(s, priority) && SettledAccounted(s, priority) && r in EnqueuedOf(s, priority)
    ensures r.owner in s.ready || r.owner in s.cancelled
         || r in InHand(s, priority) || r in PendingOf(s, priority) || r in QueueOf(s, priority)
  {
    hide InHand, PendingOf, QueueOf, EnqueuedOf, SettledOf;
    var settled := SettledOf(s, priority);
    if r in RequestsOf(settled) {
      var i :| 0 <= i < |settled| && RequestsOf(settled)[i] == r;
      assert settled[i].request == r;
    }
  }

  /** The runner closes only when no reader and no request is left. */
  lemma ClosesOnlyWhenEmpty(s: State)
    requires Reachable(s) && Enabled(s, CloseIfIdle) && Next(s, CloseIfIdle).closed
    ensures NoReaders(s) && s.tokens == 0 && !Pending(s) && s.priorityQueue == [] && s.normalQueue == []
    ensures s.now - s.lastUsed >= s.idleTTL
    ensures forall id :: In(s, id, Waiting) ==> id in s.ready || id in s.cancelled
  {
    hide Reachable, TokensMatch, QueuesMatch, AcquirersMatch;
    ReachableIsSafe(s);
    forall id | In(s, id, Waiting)
      ensures id in s.ready || id in s.cancelled
    {
      NobodyIsStranded(s, id);
    }
  }

  /** And when that is so for long enough, it does close. */
  lemma ClosesWhenIdle(s: State)
    requires Reachable(s) && s.runner.WantLock? && NoReaders(s) && s.now - s.lastUsed >= s.idleTTL
    requires !Pending(s) && s.priorityQueue == [] && s.normalQueue == []
    ensures Enabled(s, CloseIfIdle) && Next(s, CloseIfIdle).closed && Next(s, CloseIfIdle).runner.Stopped?
  {
    hide Reachable;
    TokensCountRequests(s);
    assert Holders(s) == {};
  }

  /**
   * When a normal request is popped, every priority request that was queued
   * before the drain ended has been settled.
   */
  lemma NormalYieldsToPriority(s: State)
    requires Reachable(s) && Enabled(s, PopOne) && !Next(s, PopOne).runner.current.priority
    ensures |s.settledPriority| == s.drained <= |s.enqueuedPriority|
    ensures RequestsOf(s.settledPriority) == s.enqueuedPriority[..s.drained]
  {
    hide Reachable, TokensMatch, AcquirersMatch, RequestsOf;
    ReachableIsSafe(s);
    assert QueueMatches(s, true) && QueueMatches(s, false);
    if s.pendingPriority != [] {
      InPending(s, true);
    }
    PrefixOfSum(RequestsOf(s.settledPriority), InHand(s, true), PendingOf(s, true) + QueueOf(s, true));
  }

  // ---------- Answers ----------

  /** The requests of the log that were granted are among those queued. */
  lemma {:induction false} GrantedWasSettled(log: seq<Settled>, i: nat)
    requires i < |GrantedIn(log)|
    ensures GrantedIn(log)[i] in RequestsOf(log)
  {
    var init := log[..|log| - 1];
    assert RequestsOf(log) == RequestsOf(init) + [log[|log| - 1].request];
    if i < |GrantedIn(init)| {
      GrantedWasSettled(init, i);
    }
  }

  lemma {:induction false} GrantInClass(grants: seq<Grant>, i: nat)
    requires i < |grants|
    ensures grants[i].request in GrantsOf(grants, grants[i].request.priority)
  {
    if i < |grants| - 1 {
      GrantInClass(grants[..|grants| - 1], i);
    }
  }

  lemma GrantWasQueued(s: State, i: nat)
    requires Reachable(s) && i < |s.grants|
    ensures HasQueued(s, s.grants[i].request)
  {
    hide Reachable, GrantsOf, GrantedIn, RequestsOf, HasQueued;
    ReachableIsSafe(s);
    var r := s.grants[i].request;
    var log := SettledOf(s, r.priority);
    GrantInClass(s.grants, i);
    assert r.priority || !r.priority;
    assert GrantsMatch(s, r.priority) && QueuedOnce(s, r.priority);
    var j :| 0 <= j < |GrantedIn(log)| && GrantedIn(log)[j] == r;
    GrantedWasSettled(log, j);
    ClassIsFIFO(s, r.priority);
    assert r in EnqueuedOf(s, r.priority);
  }

  /**
   * Whoever is told that it may send has a grant of its own request in the log;
   * whoever gives up was cancelled; and nobody is refused while it is open.
   */
  lemma AnswersAreEarned(s: State, id: nat)
    requires Reachable(s) && id in s.acquirers
    ensures In(s, id, Granted) ==> exists i :: 0 <= i < |s.grants| && s.grants[i].request == s.acquirers[id].request
    ensures In(s, id, GaveUp) ==> id in s.cancelled
    ensures In(s, id, Refused) ==> s.closed
    ensures s.closed ==> !In(s, id, Entering) && !In(s, id, Holding)
  {
    hide Reachable, TokensMatch, QueuesMatch, AcquirersMatch, TimingMatches, DrainMatches, GrantsMatch, QueuedOnce;
    ReachableIsSafe(s);
    if In(s, id, Granted) {
      var i :| 0 <= i < |s.grants| && s.grants[i].request.owner == id;
      GrantWasQueued(s, i);
    }
  }

  lemma {:induction false} DistinctSettled(log: seq<Settled>, all: seq<Request>)
    requires RequestsOf(log) <= all
    requires forall i, j :: 0 <= i < j < |all| ==> all[i] != all[j]
    ensures forall i, j :: 0 <= i < j < |GrantedIn(log)| ==> GrantedIn(log)[i] != GrantedIn(log)[j]
  {
    if log != [] {
      var init, last := log[..|log| - 1], log[|log| - 1];
      assert RequestsOf(log) == RequestsOf(init) + [last.request];
      DistinctSettled(init, all);
      forall i | 0 <= i < |GrantedIn(init)|
        ensures GrantedIn(init)[i] != last.request
      {
        GrantedWasSettled(init, i);
        var j :| 0 <= j < |init| && RequestsOf(init)[j] == GrantedIn(init)[i];
        assert all[j] == RequestsOf(log)[j] && all[|init|] == RequestsOf(log)[|init|];
      }
    }
  }

  lemma {:induction false} DistinctGrants(grants: seq<Grant>, i: nat, j: nat) returns (a: nat, b: nat)
    requires i < j < |grants| && grants[i].request == grants[j].request
    ensures var c := GrantsOf(grants, grants[j].request.priority); a < b < |c| && c[a] == c[b]
  {
    var init, p := grants[..|grants| - 1], grants[j].request.priority;
    var c, full := GrantsOf(init, p), GrantsOf(grants, p);
    assert |c| <= |full| && forall k :: 0 <= k < |c| ==> full[k] == c[k];
    if j < |init| {
      a, b := DistinctGrants(init, i, j);
    } else {
      GrantInClass(init, i);
      a :| 0 <= a < |c| && c[a] == grants[i].request;
      b := |c|;
    }
  }

  /** Every caller is granted at most once, so the log bounds what is really sent. */
  lemma NobodyIsGrantedTwice(s: State, i: nat, j: nat)
    requires Reachable(s) && i < j < |s.grants|
    ensures s.grants[i].request.owner != s.grants[j].request.owner
  {
    hide Reachable, GrantsOf, GrantedIn, RequestsOf, HasQueued;
    ReachableIsSafe(s);
    GrantWasQueued(s, i);
    GrantWasQueued(s, j);
    var a, b := s.grants[i].request, s.grants[j].request;
    if a.owner == b.owner {
      assert a == b by { SameOwner(s, a, b); }
      assert b.priority || !b.priority;
      assert GrantsMatch(s, b.priority) && QueuedOnce(s, b.priority);
      ClassIsFIFO(s, b.priority);
      var x, y := DistinctGrants(s.grants, i, j);
      DistinctSettled(SettledOf(s, b.priority), EnqueuedOf(s, b.priority));
    }
  }

  lemma SameOwner(s: State, a: Request, b: Request)
    requires HasQueued(s, a) && HasQueued(s, b) && a.owner == b.owner
    ensures a == b
  {
  }

  /** A request whose context is over before the runner looks at it is never granted. */
  predicate Hopeless(s: State, id: nat) {
    id in s.cancelled && id !in s.ready && !(s.runner.Signal? && s.runner.current.owner == id)
  }

  lemma UnreadyHasNoGrant(s: State, id: nat)
    requires Reachable(s) && id !in s.ready
    ensures forall i :: 0 <= i < |s.grants| ==> s.grants[i].request.owner != id
  {
    hide Reachable, Inv, TimingMatches, DrainMatches, GrantsMatch, AnswersMatch, QueuedOnce;
    ReachableIsSafe(s);
  }

  lemma {:induction false} RunsOn(s: State, actions: seq<Action>, a: Action)
    requires Runs(s, actions) && Enabled(After(s, actions), a)
    ensures Runs(s, actions + [a]) && After(s, actions + [a]) == Next(After(s, actions), a)
    decreases actions
  {
    hide Enabled, Next;
    if actions == [] {
      assert actions + [a] == [a] && [a][1..] == [];
    } else {
      assert (actions + [a])[1..] == actions[1..] + [a];
      RunsOn(Next(s, actions[0]), actions[1..], a);
    }
  }

  lemma StillReachable(s: State, a: Action)
    requires Reachable(s) && Enabled(s, a)
    ensures Reachable(Next(s, a))
  {
    hide Enabled, Next;
    var now: int, idleTTL: int, actions: seq<Action> :|
      Runs(Start(now, idleTTL), actions) && s == After(Start(now, idleTTL), actions);
    RunsOn(Start(now, idleTTL), actions, a);
  }

  lemma StaysHopeless(s: State, a: Action, id: nat)
    requires Hopeless(s, id) && Enabled(s, a)
    ensures Hopeless(Next(s, a), id)
  {
    hide NoReaders, Pending, Moved, QueueOf, Interval;
  }

  lemma {:induction false} CancelledIsNeverGranted(s: State, actions: seq<Action>, id: nat)
    requires Reachable(s) && Hopeless(s, id) && Runs(s, actions)
    ensures Hopeless(After(s, actions), id)
    ensures forall i :: 0 <= i < |After(s, actions).grants| ==> After(s, actions).grants[i].request.owner != id
    decreases actions
  {
    hide Reachable, Enabled, Next;
    if actions == [] {
      UnreadyHasNoGrant(s, id);
    } else {
      StaysHopeless(s, actions[0], id);
      StillReachable(s, actions[0]);
      CancelledIsNeverGranted(Next(s, actions[0]), actions[1..], id);
    }
  }

  // ---------- Progress ----------

  /** The request to be served next: of the priority class as long as it has one. */
  function Foremost(s: State): Request
    requires Pending(s)
  {
    if s.pendingPriority != [] then s.pendingPriority[0] else s.pendingNormal[0]
  }

  const SERVE := [DrainEnd, Due, DrainEnd, PopOne, DropToken, LookAtContext]

  /** The runner notices that a request is due. */
  lemma GoesToPop(s: State)
    requires s.runner == FirstDrain && s.priorityQueue == [] && Pending(s) && s.nextAvailable <= s.now
    ensures Runs(s, [DrainEnd, Due, DrainEnd])
    ensures After(s, [DrainEnd, Due, DrainEnd]) == s.(runner := Pop, drained := |s.enqueuedPriority|)
  {
    var a, b, c := s.(runner := CheckDue), s.(runner := SecondDrain), s.(runner := Pop, drained := |s.enqueuedPriority|);
    assert Enabled(s, DrainEnd) && Next(s, DrainEnd) == a;
    assert Enabled(a, Due) && Next(a, Due) == b;
    assert Enabled(b, DrainEnd) && Next(b, DrainEnd) == c;
    hide Enabled, Next;
    assert [DrainEnd, Due, DrainEnd][1..] == [Due, DrainEnd] && [Due, DrainEnd][1..] == [DrainEnd] && [DrainEnd][1..] == [];
  }

  lemma Pops(s: State)
    requires s.runner.Pop? && Pending(s)
    ensures var a := Next(s, PopOne); var b := Next(a, DropToken);
      && a.runner == ReleaseSlot(Foremost(s)) && b.runner == CheckContext(Foremost(s))
      && b.tokens == (if s.tokens > 0 then s.tokens - 1 else 0) && b.grants == s.grants && b.nextAvailable == s.nextAvailable
      && |b.pendingPriority| + |b.pendingNormal| == |s.pendingPriority| + |s.pendingNormal| - 1
      && b.cancelled == s.cancelled
  {
  }

  lemma PopsAndLooks(s: State)
    requires s.runner.Pop? && Pending(s)
    ensures Runs(s, [PopOne, DropToken, LookAtContext])
    ensures var t, r := After(s, [PopOne, DropToken, LookAtContext]), Foremost(s);
      && t.tokens == (if s.tokens > 0 then s.tokens - 1 else 0) && t.grants == s.grants && t.nextAvailable == s.nextAvailable
      && |t.pendingPriority| + |t.pendingNormal| == |s.pendingPriority| + |s.pendingNormal| - 1
      && t.runner == if r.owner in s.cancelled then FirstDrain else Signal(r)
  {
    hide Pending, Foremost;
    Pops(s);
    var a := Next(s, PopOne);
    var b := Next(a, DropToken);
    assert Enabled(s, PopOne) && Enabled(a, DropToken) && Enabled(b, LookAtContext);
    Looks(b);
    hide Enabled, Next;
    assert [PopOne, DropToken, LookAtContext][1..] == [DropToken, LookAtContext];
    assert [DropToken, LookAtContext][1..] == [LookAtContext] && [LookAtContext][1..] == [];
  }

  lemma Looks(s: State)
    requires s.runner.CheckContext?
    ensures var t, r := Next(s, LookAtContext), s.runner.current;
      && t.tokens == s.tokens && t.grants == s.grants && t.nextAvailable == s.nextAvailable
      && t.pendingPriority == s.pendingPriority && t.pendingNormal == s.pendingNormal
      && t.runner == if r.owner in s.cancelled then FirstDrain else Signal(r)
  {
  }

  lemma {:induction false} RunsThen(s: State, a: seq<Action>, b: seq<Action>)
    requires Runs(s, a) && Runs(After(s, a), b)
    ensures Runs(s, a + b) && After(s, a + b) == After(After(s, a), b)
    decreases a
  {
    hide Enabled, Next;
    if a == [] {
      assert a + b == b;
    } else {
      assert (a + b)[1..] == a[1..] + b;
      RunsThen(Next(s, a[0]), a[1..], b);
    }
  }

  /**
   * Once its time has come and nothing is left to drain, the runner on its own
   * serves the foremost pending request: its token is given back, and unless
   * its context is over it is about to be signalled.
   */
  lemma DueRequestIsServed(s: State)
    requires Reachable(s) && s.runner == FirstDrain && s.priorityQueue == [] && Pending(s) && s.nextAvailable <= s.now
    ensures Runs(s, SERVE)
    ensures var t, r := After(s, SERVE), Foremost(s);
      && t.tokens == s.tokens - 1 && t.grants == s.grants && t.nextAvailable == s.nextAvailable
      && |t.pendingPriority| + |t.pendingNormal| == |s.pendingPriority| + |s.pendingNormal| - 1
      && t.runner == if r.owner in s.cancelled then FirstDrain else Signal(r)
  {
    hide Reachable, Runs, After;
    GoesToPop(s);
    PopsAndLooks(s.(runner := Pop, drained := |s.enqueuedPriority|));
    RunsThen(s, [DrainEnd, Due, DrainEnd], [PopOne, DropToken, LookAtContext]);
    assert [DrainEnd, Due, DrainEnd] + [PopOne, DropToken, LookAtContext] == SERVE;
    TokensCountRequests(s);
  }

  /** The signal is logged, and the next one may come exactly one interval after it was scheduled. */
  lemma SignalIsScheduled(s: State, wait: nat)
    requires s.runner.Signal?
    ensures var r := s.runner.current; var t := Next(s, SendSignal);
      && Enabled(t, Tick(wait)) && Enabled(Next(t, Tick(wait)), SetNextAvailable)
      && var u := Next(Next(t, Tick(wait)), SetNextAvailable);
         && u.runner == FirstDrain && u.ready == s.ready + {r.owner}
         && u.grants == s.grants + [Grant(r, s.now)]
         && u.nextAvailable == s.now + wait + if r.interval > 0 then r.interval else 6_000_000_000
  {
  }

  /** With nothing to do the runner waits, and whatever arrives is taken in. */
  lemma ArrivalsAreTaken(s: State)
    requires s.runner.Select?
    ensures s.priorityQueue != [] ==>
      Enabled(s, SelectPriority) && Next(s, SelectPriority).pendingPriority == s.pendingPriority + [s.priorityQueue[0]]
    ensures s.normalQueue != [] ==>
      Enabled(s, SelectNormal) && Next(s, SelectNormal).pendingNormal == s.pendingNormal + [s.normalQueue[0]]
  {
    hide Pending;
  }

  // ---------- Spacing ----------

  lemma {:induction false} GrantsApart(grants: seq<Grant>, d: nat, i: nat, j: nat)
    requires Spaced(grants) && i <= j < |grants|
    requires forall k :: i <= k < j ==> d <= Interval(grants[k].request)
    ensures grants[i].time + (j - i) * d <= grants[j].time
    decreases j
  {
    if i < j {
      GrantsApart(grants, d, i, j - 1);
      assert (j - i) * d == (j - 1 - i) * d + d;
    }
  }

  /** Consecutive grants are at least the earlier grant's interval apart. */
  lemma GrantsAreSpaced(s: State)
    requires Reachable(s)
    ensures Spaced(s.grants)
  {
    hide Reachable, Inv;
    ReachableIsSafe(s);
  }

  /** At most width / d + 1 grants fall into a window when all intervals are at least d. */
  lemma WindowBound(s: State, d: nat, from: int, width: nat, i: nat, j: nat)
    requires Reachable(s) && d > 0 && i <= j < |s.grants|
    requires forall k :: i <= k < j ==> d <= Interval(s.grants[k].request)
    requires from <= s.grants[i].time && s.grants[j].time <= from + width
    ensures j - i + 1 <= width / d + 1
  {
    hide Reachable;
    GrantsAreSpaced(s);
    GrantsApart(s.grants, d, i, j);
    DivisionBound(j - i, d, width);
  }

  lemma DivisionBound(n: nat, d: nat, width: nat)
    requires d > 0 && n * d <= width
    ensures n <= width / d
  {
    if n > width / d {
      MulMonotone(width / d + 1, n, d);
    }
  }

  lemma MulMonotone(a: nat, b: nat, d: nat)
    requires a <= b
    ensures a * d <= b * d
  {
  }
}
