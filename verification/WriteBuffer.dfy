// The SQLite store's write buffer: records are added, flushed in batches and
// put back after a failed insert, by goroutines that interleave.
module WriteBuffer {

  /** One persisted request, opaque here. */
  type Record = nat

  const BATCH_SIZE := 100

  /** Above this a failed batch is dropped instead of put back. */
  const OVERFLOW := BATCH_SIZE * 10

  // ---------- The shared fields, one critical section per method ----------

  class SharedBuffer {
    var writeBuffer: seq<Record>
    var closed: bool
    var flushing: bool

    /** The fields of a state of the whole system. */
    ghost predicate Shows(s: State)
      reads this
    {
      writeBuffer == s.buffer && closed == s.closed && flushing == s.flushing
    }

    constructor ()
      ensures Shows(INITIAL)
    {
      writeBuffer, closed, flushing := [], false, false;
    }

    /** AddRecord, up to the unlock. */
    method Append(record: Record) returns (shouldFlush: bool)
      modifies this`writeBuffer
      ensures writeBuffer == if closed then old(writeBuffer) else old(writeBuffer) + [record]
      ensures shouldFlush <==> !closed && |writeBuffer| >= BATCH_SIZE
      ensures forall s: State :: old(Shows(s)) ==>
        var t := Next(s, Add(record)); Shows(t) && t.deciding == s.deciding + if shouldFlush then 1 else 0
    {
      if closed {
        return false;
      }
      writeBuffer := writeBuffer + [record];
      shouldFlush := |writeBuffer| >= BATCH_SIZE;
    }

    /** flushing.CompareAndSwap(false, true). */
    method TryMark() returns (won: bool)
      modifies this`flushing
      ensures flushing && won == !old(flushing)
      ensures forall s: State, n: nat :: old(Shows(s)) && Enabled(s, Decide(n)) ==>
        var t := Next(s, Decide(n)); Shows(t) && (won <==> n in t.asyncs) && t.deciding == s.deciding - 1
    {
      won := !flushing;
      flushing := true;
    }

    /** The first half of flush and flushBufferLocked. */
    method Take() returns (records: seq<Record>)
      modifies this`writeBuffer
      ensures writeBuffer == [] && records == old(writeBuffer)
      ensures forall s: State :: old(Shows(s)) && Enabled(s, TakeBuffer) ==>
        var t := Next(s, TakeBuffer); Shows(t) && records == InFlight(t)
    {
      records := writeBuffer;
      writeBuffer := [];
    }

    method RequeueRecords(records: seq<Record>) returns (dropped: bool)
      modifies this`writeBuffer
      ensures dropped <==> records != [] && |old(writeBuffer)| >= OVERFLOW
      ensures writeBuffer == if dropped then old(writeBuffer) else records + old(writeBuffer)
      ensures forall s: State ::
        old(Shows(s)) && Enabled(s, PutBack) && s.lock.hand.records == records && records != [] ==>
          var t := Next(s, PutBack);
          Shows(t) && t.fates == s.fates + if dropped then [Dropped(records, |s.buffer|)] else []
    {
      if |records| == 0 {
        return false;
      }
      if |writeBuffer| < BATCH_SIZE * 10 {
        writeBuffer := records + writeBuffer;
        return false;
      }
      dropped := true;
    }
  }

  // ---------- The system ----------

  /** Who takes the flush lock: the timer loop, async goroutines, queries. */
  datatype Flusher = Loop | Async(n: nat) | Query(n: nat)

  /** Where the holder of the flush lock stands. */
  datatype Hand = AboutToTake | Inserting(records: seq<Record>) | Requeueing(records: seq<Record>) | Leaving

  datatype Lock = Free | Held(owner: Flusher, hand: Hand)

  datatype LoopPhase = Waiting | Flushing | LastFlush | Stopped

  /** From the won compare-and-swap to the end of the goroutine. */
  datatype AsyncPhase = Starting | Counted | Flushed | Unmarked

  datatype Closing = Running | Marked | StopSent | LoopJoined | Returned

  /** What became of a batch. */
  datatype Fate = Committed(batch: seq<Record>) | Dropped(batch: seq<Record>, behind: nat)

  datatype State = State(
    buffer: seq<Record>,
    closed: bool,
    flushing: bool,
    lock: Lock,
    loop: LoopPhase,
    asyncs: map<nat, AsyncPhase>,
    deciding: nat,
    queries: set<nat>,
    closing: Closing,
    committed: seq<Record>,
    accepted: seq<Record>,
    fates: seq<Fate>,
    failures: nat)

  const INITIAL := State([], false, false, Free, Waiting, map[], 0, {}, Running, [], [], [], 0)

  datatype Action =
    // AddRecord
    | Add(record: Record)
    | Decide(n: nat)
    | Count(n: nat)
    // flushers
    | Tick
    | SeeStop
    | Ask(n: nat)
    | TakeLock(who: Flusher)
    | TakeBuffer
    | InsertSucceeds
    | InsertFails
    | PutBack
    | ReleaseLock
    | Unmark(n: nat)
    | Done(n: nat)
    // Close
    | MarkClosed
    | SendStop
    | JoinLoop
    | JoinAsyncs

  /** Wants the flush lock and has not had it yet. */
  predicate Wants(s: State, who: Flusher) {
    match who
    case Loop => s.loop == Flushing || s.loop == LastFlush
    case Async(n) => n in s.asyncs && s.asyncs[n] == Counted
    case Query(n) => n in s.queries
  }

  predicate Enabled(s: State, a: Action) {
    match a
    case Add(_) => true
    case Decide(n) => s.deciding > 0 && n !in s.asyncs
    case Count(n) => n in s.asyncs && s.asyncs[n] == Starting
    case Tick => s.loop == Waiting
    case SeeStop => s.loop == Waiting && s.closing != Running && s.closing != Marked
    case Ask(n) => n !in s.queries
    case TakeLock(who) => s.lock == Free && Wants(s, who)
    case TakeBuffer => s.lock.Held? && s.lock.hand == AboutToTake
    case InsertSucceeds => s.lock.Held? && s.lock.hand.Inserting?
    case InsertFails => s.lock.Held? && s.lock.hand.Inserting?
    case PutBack => s.lock.Held? && s.lock.hand.Requeueing?
    case ReleaseLock => s.lock.Held? && s.lock.hand == Leaving
    case Unmark(n) => n in s.asyncs && s.asyncs[n] == Flushed
    case Done(n) => n in s.asyncs && s.asyncs[n] == Unmarked
    case MarkClosed => s.closing == Running
    case SendStop => s.closing == Marked
    case JoinLoop => s.closing == StopSent && s.loop == Stopped
    case JoinAsyncs => s.closing == LoopJoined && forall n :: n in s.asyncs ==> s.asyncs[n] == Starting
  }

  function Next(s: State, a: Action): State
    requires Enabled(s, a)
  {
    match a
    case Add(r) =>
      if s.closed then s
      else
        s.(buffer := s.buffer + [r], accepted := s.accepted + [r],
           deciding := if |s.buffer| + 1 >= BATCH_SIZE then s.deciding + 1 else s.deciding)
    case Decide(n) =>
      s.(deciding := s.deciding - 1, flushing := true, asyncs := if s.flushing then s.asyncs else s.asyncs[n := Starting])
    case Count(n) => s.(asyncs := s.asyncs[n := Counted])
    case Tick => s.(loop := Flushing)
    case SeeStop => s.(loop := LastFlush)
    case Ask(n) => s.(queries := s.queries + {n})
    case TakeLock(who) => s.(lock := Held(who, AboutToTake))
    case TakeBuffer =>
      s.(buffer := [], lock := Held(s.lock.owner, if s.buffer == [] then Leaving else Inserting(s.buffer)))
    case InsertSucceeds =>
      var records := s.lock.hand.records;
      s.(committed := s.committed + records, fates := s.fates + [Committed(records)], lock := Held(s.lock.owner, Leaving))
    case InsertFails =>
      s.(failures := s.failures + 1, lock := Held(s.lock.owner, Requeueing(s.lock.hand.records)))
    case PutBack =>
      var records := s.lock.hand.records;
      if |s.buffer| < OVERFLOW
      then s.(buffer := records + s.buffer, lock := Held(s.lock.owner, Leaving))
      else s.(fates := s.fates + [Dropped(records, |s.buffer|)], lock := Held(s.lock.owner, Leaving))
    case ReleaseLock => Left(s, s.lock.owner).(lock := Free)
    case Unmark(n) => s.(flushing := false, asyncs := s.asyncs[n := Unmarked])
    case Done(n) => s.(asyncs := s.asyncs - {n})
    case MarkClosed => s.(closed := true, closing := Marked)
    case SendStop => s.(closing := StopSent)
    case JoinLoop => s.(closing := LoopJoined)
    case JoinAsyncs => s.(closing := Returned)
  }

  /** A flusher goes on after giving back the lock. */
  function Left(s: State, who: Flusher): State {
    match who
    case Loop => s.(loop := if s.loop == LastFlush then Stopped else Waiting)
    case Async(n) => s.(asyncs := s.asyncs[n := Flushed])
    case Query(n) => s.(queries := s.queries - {n})
  }

  predicate Runs(s: State, actions: seq<Action>)
    decreases actions
  {
    actions != [] ==> Enabled(s, actions[0]) && Runs(Next(s, actions[0]), actions[1..])
  }

  function After(s: State, actions: seq<Action>): State
    requires Runs(s, actions)
    decreases actions
  {
    if actions == [] then s else After(Next(s, actions[0]), actions[1..])
  }

  // ---------- Conservation ----------

  function InFlight(s: State): seq<Record> {
    if s.lock.Held? && (s.lock.hand.Inserting? || s.lock.hand.Requeueing?) then s.lock.hand.records else []
  }

  function Batches(fates: seq<Fate>): seq<Record> {
    if fates == [] then [] else Batches(fates[..|fates| - 1]) + fates[|fates| - 1].batch
  }

  function CommittedOf(fates: seq<Fate>): seq<Record> {
    if fates == [] then []
    else
      CommittedOf(fates[..|fates| - 1])
      + if fates[|fates| - 1].Committed? then fates[|fates| - 1].batch else []
  }

  /**
   * The accepted records, in arrival order, are the settled batches, then what
   * is in flight, then the buffer. Only an overflow drops a batch.
   */
  ghost predicate Conserved(s: State) {
    && s.accepted == Batches(s.fates) + InFlight(s) + s.buffer
    && s.committed == CommittedOf(s.fates)
    && forall f :: f in s.fates && f.Dropped? ==> f.behind >= OVERFLOW
  }

  lemma BatchesSnoc(fates: seq<Fate>, f: Fate)
    ensures Batches(fates + [f]) == Batches(fates) + f.batch
    ensures CommittedOf(fates + [f]) == CommittedOf(fates) + if f.Committed? then f.batch else []
  {
    assert (fates + [f])[..|fates|] == fates;
  }

  lemma ConservedByPutBack(s: State)
    requires Enabled(s, PutBack) && Conserved(s)
    ensures Conserved(Next(s, PutBack))
  {
    hide Batches, CommittedOf, Wants;
    var records := s.lock.hand.records;
    if |s.buffer| < OVERFLOW {
      assert s.accepted == Batches(s.fates) + [] + (records + s.buffer);
    } else {
      BatchesSnoc(s.fates, Dropped(records, |s.buffer|));
      assert s.accepted == (Batches(s.fates) + records) + [] + s.buffer;
    }
  }

  lemma ConservedByInsert(s: State)
    requires Enabled(s, InsertSucceeds) && Conserved(s)
    ensures Conserved(Next(s, InsertSucceeds))
  {
    hide Batches, CommittedOf, Wants;
    var records := s.lock.hand.records;
    BatchesSnoc(s.fates, Committed(records));
    assert s.accepted == (Batches(s.fates) + records) + [] + s.buffer;
  }

  lemma ConservedKept(s: State, a: Action)
    requires Enabled(s, a) && Conserved(s)
    ensures Conserved(Next(s, a))
  {
    hide Batches, CommittedOf, Wants;
    match a {
      case Add(r) => assert s.accepted + [r] == Batches(s.fates) + InFlight(s) + (s.buffer + [r]);
      case TakeBuffer => assert s.buffer + [] == s.buffer;
      case InsertSucceeds => ConservedByInsert(s);
      case PutBack => ConservedByPutBack(s);
      case _ =>
    }
  }

  lemma {:induction false} NothingIsLostOrReordered(actions: seq<Action>)
    requires Runs(INITIAL, actions)
    ensures Conserved(After(INITIAL, actions))
  {
    ConservedAfter(INITIAL, actions);
  }

  lemma {:induction false} ConservedAfter(s: State, actions: seq<Action>)
    requires Runs(s, actions) && Conserved(s)
    ensures Conserved(After(s, actions))
    decreases actions
  {
    hide Conserved, Next, Enabled;
    if actions != [] {
      ConservedKept(s, actions[0]);
      ConservedAfter(Next(s, actions[0]), actions[1..]);
    }
  }

  // ---------- Locking and closing ----------

  /** The lock is held by somebody who asked for it. */
  predicate LockOwned(s: State) {
    s.lock.Held? ==> Wants(s, s.lock.owner)
  }

  predicate ClosingOrdered(s: State) {
    && (s.closed <==> s.closing != Running)
    && (s.loop == LastFlush || s.loop == Stopped ==> s.closing != Running && s.closing != Marked)
    && (s.closing == LoopJoined || s.closing == Returned ==> s.loop == Stopped)
  }

  /** The flag is up exactly while one async flush is under way. */
  ghost predicate OneAsync(s: State) {
    && (s.flushing <==> exists n :: n in s.asyncs && s.asyncs[n] != Unmarked)
    && forall n, m :: n in s.asyncs && m in s.asyncs && s.asyncs[n] != Unmarked && s.asyncs[m] != Unmarked ==> n == m
  }

  /** The last flush has emptied the buffer. */
  predicate LastTaken(s: State) {
    || s.loop == Stopped
    || (s.loop == LastFlush && s.lock.Held? && s.lock.owner == Loop && s.lock.hand != AboutToTake)
  }

  /** While no insert has failed nothing is put back, and the last flush leaves nothing behind. */
  predicate DrainedAtEnd(s: State) {
    s.failures == 0 ==>
      && (s.lock.Held? ==> !s.lock.hand.Requeueing?)
      && (forall f :: f in s.fates ==> f.Committed?)
      && (LastTaken(s) ==> s.buffer == [])
      && (s.loop == Stopped ==> InFlight(s) == [])
  }

  ghost predicate Inv(s: State) {
    LockOwned(s) && ClosingOrdered(s) && OneAsync(s) && DrainedAtEnd(s)
  }

  lemma LockOwnedKept(s: State, a: Action)
    requires Enabled(s, a) && LockOwned(s)
    ensures LockOwned(Next(s, a))
  {
  }

  lemma ClosingKept(s: State, a: Action)
    requires Enabled(s, a) && LockOwned(s) && ClosingOrdered(s)
    ensures ClosingOrdered(Next(s, a))
  {
  }

  lemma OneAsyncKept(s: State, a: Action)
    requires Enabled(s, a) && Inv(s)
    ensures OneAsync(Next(s, a))
  {
    hide DrainedAtEnd, ClosingOrdered;
    var s' := Next(s, a);
    match a {
      case Decide(n) =>
        if !s.flushing {
          assert n in s'.asyncs && s'.asyncs[n] != Unmarked;
        }
      case Count(n) => AsyncMoves(s, s', n);
      case ReleaseLock =>
        if s.lock.owner.Async? {
          AsyncMoves(s, s', s.lock.owner.n);
        }
      case Unmark(n) =>
        AsyncUnmarks(s, s', n);
      case Done(n) => AsyncLeaves(s, s', n);
      case _ => assert s'.asyncs == s.asyncs && s'.flushing == s.flushing;
    }
  }

  lemma AsyncMoves(s: State, s': State, n: nat)
    requires OneAsync(s) && n in s.asyncs && s.asyncs[n] != Unmarked
    requires s'.flushing == s.flushing && s'.asyncs.Keys == s.asyncs.Keys && s'.asyncs[n] != Unmarked
    requires forall m :: m in s.asyncs && m != n ==> s'.asyncs[m] == s.asyncs[m]
    ensures OneAsync(s')
  {
  }

  lemma AsyncUnmarks(s: State, s': State, n: nat)
    requires OneAsync(s) && n in s.asyncs && s.asyncs[n] != Unmarked
    requires !s'.flushing && s'.asyncs == s.asyncs[n := Unmarked]
    ensures OneAsync(s')
  {
  }

  lemma AsyncLeaves(s: State, s': State, n: nat)
    requires OneAsync(s) && n in s.asyncs && s.asyncs[n] == Unmarked
    requires s'.flushing == s.flushing && s'.asyncs == s.asyncs - {n}
    ensures OneAsync(s')
  {
    if s.flushing {
      var m :| m in s.asyncs && s.asyncs[m] != Unmarked;
      assert m in s'.asyncs && s'.asyncs[m] != Unmarked;
    }
  }

  /** A step of the goroutine that holds the flush lock. */
  predicate ByHolder(a: Action) {
    a == TakeBuffer || a == InsertSucceeds || a == InsertFails || a == PutBack || a == ReleaseLock
  }

  lemma DrainedByHolder(s: State, a: Action)
    requires Enabled(s, a) && ByHolder(a) && LockOwned(s) && ClosingOrdered(s) && DrainedAtEnd(s)
    ensures DrainedAtEnd(Next(s, a))
  {
  }

  lemma DrainedByOthers(s: State, a: Action)
    requires Enabled(s, a) && !ByHolder(a) && LockOwned(s) && ClosingOrdered(s) && DrainedAtEnd(s)
    ensures DrainedAtEnd(Next(s, a))
  {
  }

  lemma DrainedKept(s: State, a: Action)
    requires Enabled(s, a) && Inv(s)
    ensures DrainedAtEnd(Next(s, a))
  {
    hide LockOwned, ClosingOrdered, OneAsync, DrainedAtEnd, Next, Enabled;
    if ByHolder(a) {
      DrainedByHolder(s, a);
    } else {
      DrainedByOthers(s, a);
    }
  }

  lemma {:induction false} InvAfter(s: State, actions: seq<Action>)
    requires Runs(s, actions) && Inv(s)
    ensures Inv(After(s, actions))
    decreases actions
  {
    hide LockOwned, ClosingOrdered, OneAsync, DrainedAtEnd, Next, Enabled;
    if actions != [] {
      LockOwnedKept(s, actions[0]);
      ClosingKept(s, actions[0]);
      OneAsyncKept(s, actions[0]);
      DrainedKept(s, actions[0]);
      InvAfter(Next(s, actions[0]), actions[1..]);
    }
  }

  lemma {:induction false} AllCommitted(fates: seq<Fate>)
    requires forall f :: f in fates ==> f.Committed?
    ensures CommittedOf(fates) == Batches(fates)
  {
    if fates != [] {
      assert fates[|fates| - 1] in fates;
      AllCommitted(fates[..|fates| - 1]);
    }
  }

  /** If no insert fails, Close returns with every accepted record committed once, in order. */
  lemma CloseCommitsEverything(actions: seq<Action>)
    requires Runs(INITIAL, actions)
    ensures var s := After(INITIAL, actions);
      s.closing == Returned && s.failures == 0 ==> s.committed == s.accepted
  {
    hide Batches, CommittedOf, After, Runs;
    var s := After(INITIAL, actions);
    NothingIsLostOrReordered(actions);
    InvAfter(INITIAL, actions);
    if s.closing == Returned && s.failures == 0 {
      AllCommitted(s.fates);
      assert s.accepted == Batches(s.fates) + [] + [];
    }
  }

  /** No insert failing also means no record is ever dropped, and what is missing is on its way. */
  lemma CommittedIsAPrefix(actions: seq<Action>)
    requires Runs(INITIAL, actions)
    ensures var s := After(INITIAL, actions);
      s.failures == 0 ==> s.accepted == s.committed + InFlight(s) + s.buffer
  {
    hide Batches, CommittedOf, After, Runs;
    var s := After(INITIAL, actions);
    NothingIsLostOrReordered(actions);
    InvAfter(INITIAL, actions);
    if s.failures == 0 {
      AllCommitted(s.fates);
    }
  }

  /** At most one async flush is scheduled or running at any time. */
  lemma FlushesAreNotStacked(actions: seq<Action>, n: nat, m: nat)
    requires Runs(INITIAL, actions)
    requires var s := After(INITIAL, actions);
      && n in s.asyncs && s.asyncs[n] != Unmarked
      && m in s.asyncs && s.asyncs[m] != Unmarked
    ensures n == m
  {
    hide After, Runs;
    InvAfter(INITIAL, actions);
  }
}
