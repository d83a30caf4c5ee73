// That the write buffer gets on: whoever flushes commits what was there, and
// closing comes to an end with nothing left behind.
module WriteBufferProgress {
  import opened Common
  import opened WriteBuffer

  // ---------- What a flush commits ----------

  /** Everything in all is committed or in the hands of whoever holds the flush lock, as long as no insert fails. */
  predicate Covers(s: State, all: seq<Record>) {
    s.lock.Held? && (s.failures == 0 ==>
      match s.lock.hand
      case AboutToTake => all <= s.committed + s.buffer
      case Inserting(records) => all <= s.committed + records
      case Requeueing(_) => false
      case Leaving => all <= s.committed)
  }

  lemma CoversKept(s: State, a: Action, all: seq<Record>)
    requires Covers(s, all) && Enabled(s, a) && a != ReleaseLock
    ensures Covers(Next(s, a), all)
  {
    match a {
      case Add(r) =>
        assert s.committed + (s.buffer + [r]) == (s.committed + s.buffer) + [r];
      case TakeBuffer =>
        assert s.committed + [] == s.committed;
      case _ =>
    }
  }

  lemma {:induction false} CoversAfter(s: State, actions: seq<Action>, all: seq<Record>)
    requires Covers(s, all) && Runs(s, actions) && ReleaseLock !in actions
    ensures Covers(After(s, actions), all)
    decreases actions
  {
    hide Covers, Enabled, Next;
    if actions != [] {
      CoversKept(s, actions[0], all);
      CoversAfter(Next(s, actions[0]), actions[1..], all);
    }
  }

  /**
   * Whoever has taken the flush lock, a query in particular, finds everything
   * accepted before that committed, in order, when it is done and no insert
   * has failed.
   */
  lemma FlushCommitsWhatWasThere(before: seq<Action>, who: Flusher, actions: seq<Action>)
    requires Runs(INITIAL, before) && Enabled(After(INITIAL, before), TakeLock(who))
    requires Runs(Next(After(INITIAL, before), TakeLock(who)), actions) && ReleaseLock !in actions
    ensures var s := After(INITIAL, before); var t := After(Next(s, TakeLock(who)), actions);
      && t.lock.Held? && t.lock.owner == who
      && (t.failures == 0 && t.lock.hand == Leaving ==> s.accepted <= t.committed)
  {
    hide Runs, After;
    var s := After(INITIAL, before);
    CommittedIsAPrefix(before);
    assert s.committed + [] + s.buffer == s.committed + s.buffer;
    CoversAfter(Next(s, TakeLock(who)), actions, s.accepted);
    FailuresGrow(Next(s, TakeLock(who)), actions);
  }

  lemma {:induction false} FailuresGrow(s: State, actions: seq<Action>)
    requires Runs(s, actions) && s.lock.Held? && ReleaseLock !in actions
    ensures var t := After(s, actions); s.failures <= t.failures && t.lock.Held? && t.lock.owner == s.lock.owner
    decreases actions
  {
    if actions != [] {
      assert actions[0] in actions;
      FailuresGrow(Next(s, actions[0]), actions[1..]);
    }
  }

  /** A batch whose insert failed goes back in front of the buffer, unless ten batches are waiting there. */
  lemma FailedBatchIsPutBack(s: State)
    requires Enabled(s, InsertFails)
    ensures Enabled(Next(s, InsertFails), PutBack)
    ensures var records, t := s.lock.hand.records, Next(Next(s, InsertFails), PutBack);
      && t.committed == s.committed && t.accepted == s.accepted && t.failures == s.failures + 1
      && t.lock == Held(s.lock.owner, Leaving)
      && (|s.buffer| < 1000 ==> t.buffer == records + s.buffer && t.fates == s.fates)
      && (|s.buffer| >= 1000 ==> t.buffer == s.buffer && t.fates == s.fates + [Dropped(records, |s.buffer|)])
  {
    hide Wants;
  }

  // ---------- What the system can do by itself ----------

  /** No new records, queries or ticks, and inserts that succeed. */
  predicate Quiet(a: Action) {
    !a.Add? && !a.Ask? && !a.Tick? && !a.InsertFails?
  }

  ghost predicate Can(s: State, t: State) {
    exists actions: seq<Action> :: (forall a :: a in actions ==> Quiet(a)) && Runs(s, actions) && After(s, actions) == t
  }

  lemma CanStay(s: State)
    ensures Can(s, s)
  {
    assert Runs(s, []) && After(s, []) == s;
  }

  lemma CanStep(s: State, a: Action)
    requires Enabled(s, a) && Quiet(a)
    ensures Can(s, Next(s, a))
  {
    hide Enabled, Next, Quiet;
    assert [a][1..] == [];
    assert Runs(s, [a]) && After(s, [a]) == Next(s, a);
  }

  lemma {:induction false} RunsThen(s: State, a: seq<Action>, b: seq<Action>)
    requires Runs(s, a) && Runs(After(s, a), b)
    ensures Runs(s, a + b) && After(s, a + b) == After(After(s, a), b)
    decreases a
  {
    hide Enabled, Next;
    if a == [] {
      assert a + b == b;
    } else {
      assert (a + b)[1..] == a[1..] + b;
      RunsThen(Next(s, a[0]), a[1..], b);
    }
  }

  lemma CanThen(s: State, t: State, u: State)
    requires Can(s, t) && Can(t, u)
    ensures Can(s, u)
  {
    hide Runs, After, Quiet;
    var a :| (forall x :: x in a ==> Quiet(x)) && Runs(s, a) && After(s, a) == t;
    var b :| (forall x :: x in b ==> Quiet(x)) && Runs(t, b) && After(t, b) == u;
    RunsThen(s, a, b);
    assert forall x :: x in a + b ==> Quiet(x);
  }

  lemma CanStepThen(s: State, a: Action, t: State)
    requires Enabled(s, a) && Quiet(a) && Can(Next(s, a), t)
    ensures Can(s, t)
  {
    hide Enabled, Next, Quiet, Can;
    CanStep(s, a);
    CanThen(s, Next(s, a), t);
  }

  lemma CanKeeps(s: State, t: State)
    requires Inv(s) && Conserved(s) && Can(s, t)
    ensures Inv(t) && Conserved(t)
  {
    hide Inv, Conserved, Runs, After, Quiet;
    var a :| (forall x :: x in a ==> Quiet(x)) && Runs(s, a) && After(s, a) == t;
    InvAfter(s, a);
    ConservedAfter(s, a);
  }

  // ---------- The holder of the lock finishes ----------

  /** Nothing is accepted, and Close stays where it is. */
  predicate Untouched(s: State, t: State) {
    t.accepted == s.accepted && t.closed == s.closed && t.closing == s.closing
  }

  function LoopAfter(s: State, who: Flusher): LoopPhase {
    if who != Loop then s.loop else if s.loop == LastFlush then Stopped else Waiting
  }

  function AsyncsAfter(s: State, who: Flusher): map<nat, AsyncPhase> {
    if who.Async? then s.asyncs[who.n := Flushed] else s.asyncs
  }

  function QueriesAfter(s: State, who: Flusher): set<nat> {
    if who.Query? then s.queries - {who.n} else s.queries
  }

  function StepsLeft(hand: Hand): nat {
    match hand
    case AboutToTake => 3
    case Inserting(_) => 2
    case Requeueing(_) => 2
    case Leaving => 1
  }

  /** The holder's next step, short of giving back the lock. */
  lemma HandMoves(s: State) returns (a: Action)
    requires s.lock.Held? && s.lock.hand != Leaving
    ensures Enabled(s, a) && Quiet(a)
    ensures var t := Next(s, a);
      && Untouched(s, t) && t.lock.Held? && t.lock.owner == s.lock.owner && StepsLeft(t.lock.hand) < StepsLeft(s.lock.hand)
      && t.loop == s.loop && t.asyncs == s.asyncs && t.queries == s.queries && t.flushing == s.flushing
      && !t.lock.hand.Requeueing?
      && (s.lock.hand == AboutToTake || (!s.lock.hand.Requeueing? && s.buffer == []) ==> t.buffer == [])
  {
    a := match s.lock.hand
      case AboutToTake => TakeBuffer
      case Inserting(_) => InsertSucceeds
      case _ => PutBack;
  }

  lemma HandLeaves(s: State)
    requires s.lock.Held? && s.lock.hand == Leaving
    ensures Enabled(s, ReleaseLock)
    ensures var t, who := Next(s, ReleaseLock), s.lock.owner;
      && Untouched(s, t) && t.lock == Free && t.buffer == s.buffer && t.flushing == s.flushing
      && t.loop == LoopAfter(s, who) && t.asyncs == AsyncsAfter(s, who) && t.queries == QueriesAfter(s, who)
  {
  }

  lemma FinishesHand(s: State) returns (t: State)
    requires s.lock.Held?
    ensures Can(s, t) && Untouched(s, t) && t.lock == Free && t.flushing == s.flushing
    ensures var who := s.lock.owner;
      t.loop == LoopAfter(s, who) && t.asyncs == AsyncsAfter(s, who) && t.queries == QueriesAfter(s, who)
    ensures s.lock.hand == AboutToTake || (!s.lock.hand.Requeueing? && s.buffer == []) ==> t.buffer == []
    decreases StepsLeft(s.lock.hand)
  {
    hide Can, Enabled, Next;
    if s.lock.hand == Leaving {
      HandLeaves(s);
      CanStep(s, ReleaseLock);
      t := Next(s, ReleaseLock);
    } else {
      var a := HandMoves(s);
      t := FinishesHand(Next(s, a));
      CanStepThen(s, a, t);
    }
  }

  lemma FreesLock(s: State) returns (t: State)
    requires LockOwned(s)
    ensures Can(s, t) && Untouched(s, t) && t.lock == Free && t.asyncs.Keys == s.asyncs.Keys
    ensures t.loop == s.loop || (s.lock.Held? && t.loop == LoopAfter(s, s.lock.owner) && s.lock.owner == Loop)
  {
    hide Can;
    if s.lock.Held? {
      t := FinishesHand(s);
    } else {
      CanStay(s);
      t := s;
    }
  }

  /** Takes the free lock, flushes, and gives it back: the buffer is empty then. */
  lemma Flushes(s: State, who: Flusher) returns (t: State)
    requires s.lock == Free && Wants(s, who)
    ensures Can(s, t) && Untouched(s, t) && t.lock == Free && t.buffer == []
    ensures t.loop == LoopAfter(s, who) && t.asyncs == AsyncsAfter(s, who) && t.queries == QueriesAfter(s, who)
    ensures t.flushing == s.flushing
  {
    hide Can;
    var u := Next(s, TakeLock(who));
    t := FinishesHand(u);
    CanStepThen(s, TakeLock(who), t);
  }

  /** A tick flushes, and the loop waits again. */
  lemma TimerFlushes(s: State) returns (t: State)
    requires s.lock == Free && s.loop == Waiting
    ensures Enabled(s, Tick) && Can(Next(s, Tick), t) && t.buffer == [] && t.loop == Waiting && t.accepted == s.accepted
  {
    hide Can;
    t := Flushes(Next(s, Tick), Loop);
  }

  /** So does a query. */
  lemma QueryFlushes(s: State, n: nat) returns (t: State)
    requires s.lock == Free && n !in s.queries
    ensures Enabled(s, Ask(n)) && Can(Next(s, Ask(n)), t) && t.buffer == [] && t.accepted == s.accepted
      && t.queries == s.queries
  {
    hide Can;
    t := Flushes(Next(s, Ask(n)), Query(n));
  }

  /** An asynchronous flush comes to its end, and its mark is gone. */
  lemma AsyncFinishes(s: State, n: nat) returns (t: State)
    requires s.lock == Free && n in s.asyncs
    ensures Can(s, t) && Untouched(s, t) && t.lock == Free && t.loop == s.loop && t.asyncs == s.asyncs - {n}
    ensures s.asyncs[n] == Starting || s.asyncs[n] == Counted || s.buffer == [] ==> t.buffer == []
    ensures s.asyncs[n] != Unmarked || !s.flushing ==> !t.flushing
    decreases match s.asyncs[n] case Starting => 3 case Counted => 2 case Flushed => 1 case Unmarked => 0
  {
    hide Can;
    match s.asyncs[n] {
      case Starting =>
        t := AsyncFinishes(Next(s, Count(n)), n);
        CanStepThen(s, Count(n), t);
      case Counted =>
        var u := Flushes(s, Async(n));
        t := AsyncFinishes(u, n);
        CanThen(s, u, t);
      case Flushed =>
        t := AsyncFinishes(Next(s, Unmark(n)), n);
        CanStepThen(s, Unmark(n), t);
      case Unmarked =>
        CanStep(s, Done(n));
        t := Next(s, Done(n));
    }
  }

  /** A full buffer gets a flush of its own unless one is under way, and that commits it. */
  lemma FullBufferIsFlushed(s: State, r: Record, n: nat) returns (t: State)
    requires !s.closed && |s.buffer| + 1 >= 100 && s.lock == Free && !s.flushing && n !in s.asyncs
    ensures Enabled(s, Add(r)) && Can(Next(s, Add(r)), t) && t.buffer == [] && !t.flushing && t.accepted == s.accepted + [r]
  {
    hide Can;
    var u := Next(s, Add(r));
    assert Enabled(u, Decide(n));
    t := AsyncFinishes(Next(u, Decide(n)), n);
    CanStepThen(u, Decide(n), t);
  }

  lemma {:induction false} AsyncsFinish(s: State) returns (t: State)
    requires s.lock == Free
    ensures Can(s, t) && Untouched(s, t) && t.lock == Free && t.loop == s.loop && t.asyncs == map[]
    decreases |s.asyncs|
  {
    hide Can;
    if s.asyncs.Keys == {} {
      CanStay(s);
      t := s;
    } else {
      var n := Pick(s.asyncs.Keys);
      var u := AsyncFinishes(s, n);
      assert u.asyncs.Keys == s.asyncs.Keys - {n};
      t := AsyncsFinish(u);
      CanThen(s, u, t);
    }
  }

  // ---------- Closing ----------

  /** The loop is told to stop, flushes once more and stops. */
  lemma LoopStops(s: State) returns (t: State)
    requires s.lock == Free && s.loop != Stopped && s.closing != Running && s.closing != Marked
    ensures Can(s, t) && Untouched(s, t) && t.lock == Free && t.loop == Stopped && t.buffer == [] && t.asyncs == s.asyncs
    decreases match s.loop case Flushing => 2 case Waiting => 1 case _ => 0
  {
    hide Can;
    match s.loop {
      case Flushing =>
        var u := Flushes(s, Loop);
        t := LoopStops(u);
        CanThen(s, u, t);
      case Waiting =>
        t := LoopStops(Next(s, SeeStop));
        CanStepThen(s, SeeStop, t);
      case LastFlush =>
        t := Flushes(s, Loop);
    }
  }

  lemma Closes(s: State) returns (t: State)
    requires s.closing == Running || s.closing == Marked || s.closing == StopSent
    ensures Can(s, t) && t.closing == StopSent && t == s.(closing := StopSent, closed := t.closed)
  {
    hide Can;
    match s.closing {
      case Running =>
        var u := Next(s, MarkClosed);
        CanStep(u, SendStop);
        CanStepThen(s, MarkClosed, Next(u, SendStop));
        t := Next(u, SendStop);
      case Marked =>
        CanStep(s, SendStop);
        t := Next(s, SendStop);
      case StopSent =>
        CanStay(s);
        t := s;
    }
  }

  /** The last flush has not begun. */
  predicate BeforeLastFlush(s: State) {
    s.loop != Stopped && !(s.loop == LastFlush && s.lock.Held? && s.lock.owner == Loop)
  }

  /**
   * From every reachable state before the last flush, whatever has failed so
   * far: if inserts succeed from now on, Close can return, with every accepted
   * record settled in order, and all of them committed unless one failed.
   */
  lemma CloseCanReturn(before: seq<Action>) returns (t: State)
    requires Runs(INITIAL, before) && BeforeLastFlush(After(INITIAL, before))
    ensures var s := After(INITIAL, before);
      && Can(s, t) && t.closing == Returned && t.accepted == s.accepted
      && t.buffer == [] && t.accepted == Batches(t.fates)
      && (t.failures == 0 ==> t.committed == t.accepted)
  {
    hide Can, Runs, After, Batches, CommittedOf;
    var s := After(INITIAL, before);
    NothingIsLostOrReordered(before);
    InvAfter(INITIAL, before);
    var a := FreesLock(s);
    var b := AsyncsFinish(a);
    var c := Closes(b);
    var d := LoopStops(c);
    var e := Next(d, JoinLoop);
    t := Next(e, JoinAsyncs);
    CanThen(s, a, b);
    CanThen(s, b, c);
    CanThen(s, c, d);
    CanStep(e, JoinAsyncs);
    CanStepThen(d, JoinLoop, t);
    CanThen(s, d, t);
    CanKeeps(s, t);
    Settled(t);
  }

  /** When Close returns, no counted flush holds the lock, waits for it or has still to remove its mark. */
  lemma CloseWaitsForFlushes(before: seq<Action>)
    requires Runs(INITIAL, before) && Enabled(After(INITIAL, before), JoinAsyncs)
    ensures var s := After(INITIAL, before);
      && s.closed && s.loop == Stopped
      && !(s.lock.Held? && s.lock.owner.Async?)
      && forall n :: n in s.asyncs ==> s.asyncs[n] != Counted && s.asyncs[n] != Flushed && s.asyncs[n] != Unmarked
  {
    hide Runs, After;
    InvAfter(INITIAL, before);
  }

  lemma Settled(t: State)
    requires Inv(t) && Conserved(t) && t.lock == Free && t.buffer == []
    ensures t.accepted == Batches(t.fates)
    ensures t.failures == 0 ==> t.committed == t.accepted
  {
    hide Batches, CommittedOf;
    assert Batches(t.fates) + [] + [] == Batches(t.fates);
    if t.failures == 0 {
      AllCommitted(t.fates);
    }
  }
}
