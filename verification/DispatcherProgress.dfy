// That the dispatcher gets on: left to itself, with time passing, the runner
// serves everything it was given, and it closes only after a time of quiet.
module DispatcherProgress {
  import opened Dispatcher

  // ---------- What the runner can do by itself ----------

  predicate ByItself(a: Action) {
    !a.ContextDone? && (a.Tick? || !ByAcquirer(a))
  }

  /** The runner alone, with time passing, can get from one state to the other. */
  ghost predicate Can(s: State, t: State) {
    exists actions: seq<Action> :: (forall a :: a in actions ==> ByItself(a)) && Runs(s, actions) && After(s, actions) == t
  }

  lemma CanStay(s: State)
    ensures Can(s, s)
  {
    assert Runs(s, []) && After(s, []) == s;
  }

  lemma CanThen(s: State, t: State, u: State)
    requires Can(s, t) && Can(t, u)
    ensures Can(s, u)
  {
    hide Runs, After, ByItself;
    var a :| (forall x :: x in a ==> ByItself(x)) && Runs(s, a) && After(s, a) == t;
    var b :| (forall x :: x in b ==> ByItself(x)) && Runs(t, b) && After(t, b) == u;
    RunsThen(s, a, b);
    assert forall x :: x in a + b ==> ByItself(x);
  }

  lemma CanStep(s: State, a: Action)
    requires Enabled(s, a) && ByItself(a)
    ensures Can(s, Next(s, a))
  {
    hide Enabled, Next, ByItself;
    assert [a][1..] == [];
    assert Runs(s, [a]) && After(s, [a]) == Next(s, a);
  }

  lemma CanStepThen(s: State, a: Action, t: State)
    requires Enabled(s, a) && ByItself(a) && Can(Next(s, a), t)
    ensures Can(s, t)
  {
    hide Enabled, Next, ByItself, Can;
    CanStep(s, a);
    CanThen(s, Next(s, a), t);
  }

  lemma {:induction false} ReachableAfter(s: State, actions: seq<Action>)
    requires Reachable(s) && Runs(s, actions)
    ensures Reachable(After(s, actions))
    decreases actions
  {
    hide Reachable, Enabled, Next;
    if actions != [] {
      StillReachable(s, actions[0]);
      ReachableAfter(Next(s, actions[0]), actions[1..]);
    }
  }

  lemma CanReach(s: State, t: State)
    requires Reachable(s) && Can(s, t)
    ensures Reachable(t)
  {
    hide Reachable, Runs, After;
    var a :| (forall x :: x in a ==> ByItself(x)) && Runs(s, a) && After(s, a) == t;
    ReachableAfter(s, a);
  }

  /** The runner goes to sleep exactly when nothing pending is due; otherwise it starts over at once. */
  lemma SleepsUnlessDue(s: State)
    requires s.runner.Decide?
    ensures var t := Next(s, DecideWait);
      && (t.runner.Select? <==> !(Pending(s) && s.nextAvailable <= s.now))
      && (t.runner.Select? || t.runner.FirstDrain?)
  {
  }

  // ---------- One request at a time ----------

  /** Requests that are queued or pending. */
  function Open(s: State): nat {
    |s.normalQueue| + |s.priorityQueue| + |s.pendingNormal| + |s.pendingPriority|
  }

  /** What the runner does not touch. */
  predicate Untouched(s: State, t: State) {
    t.acquirers == s.acquirers && t.cancelled == s.cancelled
  }

  /** The runner takes all priority requests out of their queue. */
  lemma {:induction false} DrainsAll(s: State) returns (t: State)
    requires s.runner.FirstDrain?
    ensures Can(s, t) && Untouched(s, t) && t.runner.FirstDrain? && t.priorityQueue == [] && Open(t) == Open(s)
    decreases |s.priorityQueue|
  {
    hide Can;
    if s.priorityQueue == [] {
      CanStay(s);
      t := s;
    } else {
      assert Enabled(s, DrainOne) && ByItself(DrainOne);
      t := DrainsAll(Next(s, DrainOne));
      CanStepThen(s, DrainOne, t);
    }
  }

  /** With nothing due it waits for something to do. */
  lemma GoesToSelect(s: State) returns (t: State)
    requires s.runner.FirstDrain? && s.priorityQueue == [] && !(Pending(s) && s.nextAvailable <= s.now)
    ensures Can(s, t) && t == s.(runner := Select)
  {
    hide Can;
    var a, b := s.(runner := CheckDue), s.(runner := Decide);
    t := s.(runner := Select);
    assert Enabled(s, DrainEnd) && Next(s, DrainEnd) == a;
    assert Enabled(a, Due) && Next(a, Due) == b;
    assert Enabled(b, DecideWait) && Next(b, DecideWait) == t;
    CanStep(b, DecideWait);
    CanStepThen(a, Due, t);
    CanStepThen(s, DrainEnd, t);
  }

  /** A pending request becomes due, and the runner wakes up for it. */
  lemma WaitsUntilDue(s: State) returns (t: State)
    requires s.runner.FirstDrain? && s.priorityQueue == [] && Pending(s)
    ensures Can(s, t) && Untouched(s, t) && Open(t) == Open(s)
    ensures t.runner.FirstDrain? && t.priorityQueue == [] && Pending(t) && t.nextAvailable <= t.now
  {
    hide Can;
    if s.nextAvailable <= s.now {
      CanStay(s);
      return s;
    }
    var a := GoesToSelect(s);
    var wait := Tick(s.nextAvailable - s.now);
    var b := Next(a, wait);
    assert Enabled(b, SelectTimer);
    t := Next(b, SelectTimer);
    CanStep(b, SelectTimer);
    CanStepThen(a, wait, t);
    CanThen(s, a, t);
  }

  /** A normal request is taken out of its queue when nothing is pending. */
  lemma TakesNormal(s: State) returns (t: State)
    requires s.runner.FirstDrain? && s.priorityQueue == [] && !Pending(s) && s.normalQueue != []
    ensures Can(s, t) && Untouched(s, t) && Open(t) == Open(s)
    ensures t.runner.FirstDrain? && t.priorityQueue == [] && Pending(t)
  {
    hide Can;
    var a := GoesToSelect(s);
    assert Enabled(a, SelectNormal);
    t := Next(a, SelectNormal);
    CanStep(a, SelectNormal);
    CanThen(s, a, t);
  }

  /** A due request is served. */
  lemma ServesDue(s: State) returns (t: State)
    requires s.runner.FirstDrain? && s.priorityQueue == [] && Pending(s) && s.nextAvailable <= s.now
    ensures Can(s, t) && Untouched(s, t) && t.runner.FirstDrain? && Open(t) == Open(s) - 1
  {
    hide Can;
    var p := s.(runner := Pop, drained := |s.enqueuedPriority|);
    GoesToPop(s);
    assert Can(s, p) by { SomeActions(s, [DrainEnd, Due, DrainEnd]); }
    assert Enabled(p, PopOne);
    var q := Next(p, PopOne);
    t := FinishesInHand(q);
    CanStepThen(p, PopOne, t);
    CanThen(s, p, t);
  }

  lemma SomeActions(s: State, actions: seq<Action>)
    requires Runs(s, actions) && forall a :: a in actions ==> ByItself(a)
    ensures Can(s, After(s, actions))
  {
  }

  /** What was popped is dealt with, and the loop starts again. */
  lemma FinishesInHand(s: State) returns (t: State)
    requires s.runner.ReleaseSlot? || s.runner.CheckContext? || s.runner.Signal? || s.runner.Schedule?
    ensures Can(s, t) && Untouched(s, t) && t.runner.FirstDrain? && Open(t) == Open(s)
    decreases if s.runner.ReleaseSlot? then 3 else if s.runner.CheckContext? then 2 else if s.runner.Signal? then 1 else 0
  {
    hide Can;
    var a := if s.runner.ReleaseSlot? then DropToken else if s.runner.CheckContext? then LookAtContext
             else if s.runner.Signal? then SendSignal else SetNextAvailable;
    assert Enabled(s, a) && ByItself(a);
    var u := Next(s, a);
    if u.runner.FirstDrain? {
      CanStep(s, a);
      t := u;
    } else {
      t := FinishesInHand(u);
      CanStepThen(s, a, t);
    }
  }

  /** One open request fewer. */
  lemma ServesOne(s: State) returns (t: State)
    requires s.runner.FirstDrain? && Open(s) > 0
    ensures Can(s, t) && Untouched(s, t) && t.runner.FirstDrain? && Open(t) == Open(s) - 1
  {
    hide Can;
    var a := DrainsAll(s);
    var b := a;
    if !Pending(a) {
      b := TakesNormal(a);
      CanThen(s, a, b);
    }
    var c := WaitsUntilDue(b);
    t := ServesDue(c);
    CanThen(s, b, c);
    CanThen(s, c, t);
  }

  // ---------- Wherever the runner stands ----------

  /** The runner is not stopped, and nobody keeps it from the lock it wants. */
  predicate Unblocked(s: State) {
    !s.runner.Stopped? && (s.runner.WantLock? ==> NoReaders(s))
  }

  /** With something left to do, the runner comes back to the start of its loop. */
  lemma BackToStart(s: State) returns (t: State)
    requires Inv(s) && Unblocked(s) && Open(s) > 0
    ensures Can(s, t) && Untouched(s, t) && t.runner.FirstDrain? && Open(t) <= Open(s)
  {
    hide Can, TokensMatch, QueuesMatch, AcquirersMatch;
    match s.runner {
      case FirstDrain =>
        CanStay(s);
        t := s;
      case CheckDue =>
        t := FromCheckDue(s);
      case SecondDrain =>
        t := FromSecondDrain(s);
      case Pop =>
        t := FromPop(s);
      case Decide =>
        t := FromDecide(s);
      case Select =>
        t := FromSelect(s);
      case WantLock =>
        assert Enabled(s, CloseIfIdle);
        t := Next(s, CloseIfIdle);
        CanStep(s, CloseIfIdle);
      case _ =>
        t := FinishesInHand(s);
    }
  }

  lemma FromPop(s: State) returns (t: State)
    requires s.runner.Pop? && Pending(s)
    ensures Can(s, t) && Untouched(s, t) && t.runner.FirstDrain? && Open(t) <= Open(s)
  {
    hide Can;
    assert Enabled(s, PopOne);
    t := FinishesInHand(Next(s, PopOne));
    CanStepThen(s, PopOne, t);
  }

  lemma {:induction false} FromSecondDrain(s: State) returns (t: State)
    requires s.runner.SecondDrain? && Pending(s)
    ensures Can(s, t) && Untouched(s, t) && t.runner.FirstDrain? && Open(t) <= Open(s)
    decreases |s.priorityQueue|
  {
    hide Can;
    var a := if s.priorityQueue == [] then DrainEnd else DrainOne;
    assert Enabled(s, a);
    if s.priorityQueue == [] {
      t := FromPop(Next(s, a));
    } else {
      t := FromSecondDrain(Next(s, a));
    }
    CanStepThen(s, a, t);
  }

  /** Out of the select it gets by what has arrived, or by the timer for what is pending. */
  lemma FromSelect(s: State) returns (t: State)
    requires s.runner.Select? && Open(s) > 0
    ensures Can(s, t) && Untouched(s, t) && t.runner.FirstDrain? && Open(t) <= Open(s)
  {
    hide Can;
    if s.priorityQueue != [] || s.normalQueue != [] {
      var a := if s.priorityQueue != [] then SelectPriority else SelectNormal;
      assert Enabled(s, a);
      t := Next(s, a);
      CanStep(s, a);
    } else {
      var wait := Tick(if s.nextAvailable > s.now then s.nextAvailable - s.now else 0);
      var b := Next(s, wait);
      assert Enabled(b, SelectTimer);
      t := Next(b, SelectTimer);
      CanStep(b, SelectTimer);
      CanStepThen(s, wait, t);
    }
  }

  lemma FromDecide(s: State) returns (t: State)
    requires s.runner.Decide? && Open(s) > 0
    ensures Can(s, t) && Untouched(s, t) && t.runner.FirstDrain? && Open(t) <= Open(s)
  {
    hide Can;
    var u := Next(s, DecideWait);
    if u.runner.FirstDrain? {
      CanStep(s, DecideWait);
      t := u;
    } else {
      t := FromSelect(u);
      CanStepThen(s, DecideWait, t);
    }
  }

  lemma FromCheckDue(s: State) returns (t: State)
    requires s.runner.CheckDue? && Open(s) > 0
    ensures Can(s, t) && Untouched(s, t) && t.runner.FirstDrain? && Open(t) <= Open(s)
  {
    hide Can;
    var u := Next(s, Due);
    if u.runner.SecondDrain? {
      t := FromSecondDrain(u);
    } else {
      t := FromDecide(u);
    }
    CanStepThen(s, Due, t);
  }

  // ---------- Everyone is served ----------

  lemma {:induction false} ServesAll(s: State) returns (t: State)
    requires s.runner.FirstDrain?
    ensures Can(s, t) && Untouched(s, t) && t.runner.FirstDrain? && Open(t) == 0
    decreases Open(s)
  {
    hide Can;
    if Open(s) == 0 {
      CanStay(s);
      t := s;
    } else {
      var u := ServesOne(s);
      t := ServesAll(u);
      CanThen(s, u, t);
    }
  }

  /** Nothing popped is left unsettled. */
  predicate EmptyHanded(s: State) {
    InHand(s, true) == [] && InHand(s, false) == []
  }

  lemma Serves(s: State) returns (t: State)
    requires Inv(s) && Unblocked(s)
    ensures Can(s, t) && Untouched(s, t) && Open(t) == 0 && EmptyHanded(t)
  {
    hide Can, Inv;
    if Open(s) > 0 {
      var u := BackToStart(s);
      t := ServesAll(u);
      CanThen(s, u, t);
    } else if EmptyHanded(s) {
      CanStay(s);
      t := s;
    } else {
      t := FinishesInHand(s);
    }
  }

  /**
   * From every reachable state in which it is not kept from its lock, the
   * runner by itself, as time passes, can serve everything: each class is
   * settled in the order it was queued, every token is given back, and each
   * waiting acquirer is signalled unless its context is over.
   */
  lemma EveryoneIsServed(s: State) returns (t: State)
    requires Reachable(s) && Unblocked(s)
    ensures Can(s, t) && Reachable(t) && Untouched(s, t) && Open(t) == 0
    ensures t.tokens == |Holders(t)|
    ensures forall priority :: EnqueuedOf(t, priority) == RequestsOf(SettledOf(t, priority))
    ensures forall id :: In(t, id, Waiting) ==> id in t.ready || id in t.cancelled
  {
    hide Can, Reachable, Unblocked;
    ReachableIsSafe(s);
    t := Serves(s);
    CanReach(s, t);
    TokensCountRequests(t);
    ReachableIsSafe(t);
    Accounted(t);
    forall id | In(t, id, Waiting)
      ensures id in t.ready || id in t.cancelled
    {
      NobodyIsStranded(t, id);
    }
  }

  lemma Accounted(t: State)
    requires QueuesMatch(t) && Open(t) == 0 && EmptyHanded(t)
    ensures forall priority :: EnqueuedOf(t, priority) == RequestsOf(SettledOf(t, priority))
  {
    forall priority
      ensures EnqueuedOf(t, priority) == RequestsOf(SettledOf(t, priority))
    {
      assert QueueMatches(t, priority);
    }
  }

  /** A signalled acquirer can take its grant, and one whose context is over can leave, wherever it stands. */
  lemma NobodyIsKept(s: State, id: nat)
    requires id in s.acquirers
    ensures In(s, id, Waiting) && id in s.ready ==>
      Enabled(s, TakeGrant(id)) && In(Next(s, TakeGrant(id)), id, Granted)
    ensures Enabled(s, ContextDone(id)) && Next(s, ContextDone(id)) == s.(cancelled := s.cancelled + {id})
    ensures In(s, id, Entering) && id in s.cancelled ==>
      Enabled(s, GiveUpEntering(id)) && In(Next(s, GiveUpEntering(id)), id, GaveUp)
    ensures In(s, id, Holding) && id in s.cancelled ==>
      Enabled(s, GiveUpHolding(id)) && In(Next(s, GiveUpHolding(id)), id, GaveUp)
    ensures In(s, id, Waiting) && id in s.cancelled ==>
      Enabled(s, GiveUpWaiting(id)) && In(Next(s, GiveUpWaiting(id)), id, GaveUp)
  {
  }

  // ---------- Closing ----------

  /** What postpones closing: a request is queued, taken in or signalled, or a grant is taken. */
  predicate Uses(a: Action) {
    a.Enqueue? || a.TakeGrant? || a.DrainOne? || a.SelectPriority? || a.SelectNormal? || a.SendSignal?
  }

  lemma UseIsNoted(s: State, a: Action)
    requires Enabled(s, a)
    ensures Next(s, a).lastUsed == (if Uses(a) then s.now else s.lastUsed)
    ensures Next(s, a).now >= s.now && Next(s, a).idleTTL == s.idleTTL
    ensures Uses(a) ==> Next(s, a).now == s.now
  {
    hide NoReaders, Pending, Moved, Interval;
  }

  lemma {:induction false} LastUsedGrows(s: State, actions: seq<Action>)
    requires Runs(s, actions) && s.lastUsed <= s.now
    ensures var t := After(s, actions);
      s.lastUsed <= t.lastUsed <= t.now && s.now <= t.now && t.idleTTL == s.idleTTL
    ensures (forall a :: a in actions ==> !Uses(a)) ==> After(s, actions).lastUsed == s.lastUsed
    decreases actions
  {
    hide Enabled, Next, Uses;
    if actions != [] {
      UseIsNoted(s, actions[0]);
      LastUsedGrows(Next(s, actions[0]), actions[1..]);
    }
  }

  /** The runner does not close before a whole idle time has passed since any use, or since the start. */
  lemma ClosesAfterQuiet(s: State, a: Action, actions: seq<Action>)
    requires Enabled(s, a) && Uses(a) && Runs(Next(s, a), actions)
    requires var t := After(Next(s, a), actions); !t.closed && Enabled(t, CloseIfIdle) && Next(t, CloseIfIdle).closed
    ensures var t := After(Next(s, a), actions); t.now - s.now >= s.idleTTL
  {
    hide Runs, After, NoReaders, Pending, Moved, Interval, Uses;
    UseIsNoted(s, a);
    LastUsedGrows(Next(s, a), actions);
  }

  lemma NewRunnerStays(now: int, idleTTL: int, actions: seq<Action>)
    requires Runs(Start(now, idleTTL), actions)
    requires var t := After(Start(now, idleTTL), actions); !t.closed && Enabled(t, CloseIfIdle) && Next(t, CloseIfIdle).closed
    ensures After(Start(now, idleTTL), actions).now - now >= idleTTL
  {
    hide Runs, After, NoReaders, Pending, Moved, Interval, Uses;
    LastUsedGrows(Start(now, idleTTL), actions);
  }

  /** A runner with nothing to do closes by itself in the end, once nobody holds the read lock. */
  lemma IdleRunnerCloses(s: State) returns (t: State)
    requires Reachable(s) && s.runner.FirstDrain? && Open(s) == 0 && NoReaders(s)
    ensures Can(s, t) && t.closed && t.runner.Stopped?
  {
    hide Can, Reachable;
    var a := GoesToSelect(s);
    var wait := Tick(if s.lastUsed + s.idleTTL > s.now then s.lastUsed + s.idleTTL - s.now else 0);
    var b := Next(a, wait);
    var c := Next(b, SelectIdle);
    assert Enabled(b, SelectIdle) && NoReaders(c);
    CanStep(b, SelectIdle);
    CanStepThen(a, wait, c);
    CanThen(s, a, c);
    CanReach(s, c);
    ClosesWhenIdle(c);
    t := Next(c, CloseIfIdle);
    CanStep(c, CloseIfIdle);
    CanThen(s, c, t);
  }
}
