// Tool calls in canonical chat streams.
module ChatToolStreams {
  import opened Common
  import opened ChatUsage
  import opened ToolIndexes
  import opened ChatToResponses
  import opened ChatMessages
  import opened ChatStreams

  // ---------- One call changes ----------

  lemma CallsUpdate(calls: map<int, Call>, idx: int, call: Call)
    ensures ArgumentsIn(calls[idx := call]) == ArgumentsIn(calls)[idx := call.arguments]
    ensures NamesIn(calls[idx := call]) == NamesIn(calls)[idx := call.name]
    ensures IDsIn(calls[idx := call]) == IDsIn(calls)[idx := call.id]
    ensures calls[idx := call].Keys == calls.Keys + {idx}
  {
  }

  lemma ReadingAt(u: Setup, calls: map<int, Call>, front: int, k: int)
    ensures k in ToolReadings(u, calls, front) <==> k - front in calls
    ensures k - front in calls ==> ToolReadings(u, calls, front)[k] == ToolReading(u, calls[k - front])
  {
    hide ToolReading;
    ShiftedHas(calls.Keys, front, k);
  }

  lemma ReadingsUpdate(u: Setup, calls: map<int, Call>, front: int, idx: int, call: Call)
    ensures ToolReadings(u, calls[idx := call], front) == ToolReadings(u, calls, front)[idx + front := ToolReading(u, call)]
  {
    hide ToolReading, ToolReadings;
    var a, b := ToolReadings(u, calls[idx := call], front), ToolReadings(u, calls, front)[idx + front := ToolReading(u, call)];
    forall k
      ensures k in a <==> k in b
      ensures k in a ==> a[k] == b[k]
    {
      ReadingAt(u, calls[idx := call], front, k);
      ReadingAt(u, calls, front, k);
    }
  }

  lemma NumberIn(id: string, t: Told, n: nat, tally: Tally)
    ensures StateFor(id, t, n, tally).n == n
  {
  }

  lemma IndexOf(id: string, t: Told, n: nat, tally: Tally, idx: int)
    ensures OutputIndex(StateFor(id, t, n, tally), idx) == idx + Front(t)
  {
    assert MessageID(id, t.reasoning != "")[0] == 'm';
  }

  /** The items in front of the tool calls do not reach their positions. */
  lemma FrontIsFree(u: Setup, id: string, t: Told, n: nat, index: int)
    requires t.phase == InTools && index >= Front(t)
    ensures index !in ClientFor(u, id, t, n).done
  {
  }

  // ---------- A call is announced ----------

  function Announced(s: State, u: Setup, idx: int, id: string, name: string): (State, seq<Event>) {
    var a := ToolNamed(s, u, idx, id);
    Then(a, ToolAdded(a.0.(names := a.0.names[idx := name]), u, idx))
  }

  lemma AnnouncementIs(u: Setup, id: string, t: Told, n: nat, tally: Tally, idx: int, call: Call)
    requires ValidSetup(u) && t.phase == InTools && idx !in t.calls && call.id != "" && call.name != "" && call.arguments == ""
    ensures var r := ToolReading(u, call);
      Announced(StateFor(id, t, n, tally), u, idx, call.id, call.name) ==
        (StateFor(id, t.(calls := t.calls[idx := call]), n + 1, tally),
         [ItemAdded(n + 1, idx + Front(t), r.kind, r.id, r.callID, r.name, r.namespace)])
  {
    hide FunctionID, CustomID, MessageID, ReasoningID, OutputIndex, ArgumentsIn, NamesIn, IDsIn, Announced, ToolReading;
    assert call.(arguments := "") == call;
    var s := StateFor(id, t, n, tally);
    var k := s.(arguments := s.arguments[idx := ""], callIDs := s.callIDs[idx := call.id], inFunc := true);
    var named := k.(names := k.names[idx := call.name]);
    CallsUpdate(t.calls, idx, call);
    NoArguments(t.calls, idx);
    IndexOf(id, t, n, tally, idx);
    OffsetSame(s, k, idx);
    OffsetSame(s, named, idx);
    assert named.(n := n + 1, added := k.added + {idx}) == StateFor(id, t.(calls := t.calls[idx := call]), n + 1, tally);
    if u.compat {
      CompatAnnounces(s, u, idx, call, k, named);
    } else {
      PlainAnnounces(s, u, idx, call, k, named);
    }
  }

  /** With compatibility the call is announced once its name is known. */
  lemma CompatAnnounces(s: State, u: Setup, idx: int, call: Call, k: State, named: State)
    requires u.compat && idx !in s.added && call.id != "" && call.name != "" && Get(s.arguments, idx) == ""
    requires k == s.(arguments := s.arguments[idx := ""], callIDs := s.callIDs[idx := call.id], inFunc := true)
    requires named == k.(names := k.names[idx := call.name])
    ensures var r := ToolReading(u, call.(arguments := ""));
      Announced(s, u, idx, call.id, call.name) ==
        (named.(n := s.n + 1, added := s.added + {idx}),
         [ItemAdded(s.n + 1, OutputIndex(named, idx), r.kind, r.id, r.callID, r.name, r.namespace)])
  {
    hide FunctionID, CustomID, OutputIndex;
    assert ToolNamed(s, u, idx, call.id) == (k, []);
    assert [] + ToolAdded(named, u, idx).1 == ToolAdded(named, u, idx).1;
  }

  /** Without it the call is announced with its id, still nameless. */
  lemma PlainAnnounces(s: State, u: Setup, idx: int, call: Call, k: State, named: State)
    requires !u.compat && u.proxies == {} && call.id != "" && Get(s.arguments, idx) == ""
    requires k == s.(arguments := s.arguments[idx := ""], callIDs := s.callIDs[idx := call.id], inFunc := true)
    requires named == k.(names := k.names[idx := call.name])
    ensures var r := ToolReading(u, call.(arguments := ""));
      Announced(s, u, idx, call.id, call.name) ==
        (named.(n := s.n + 1, added := s.added + {idx}),
         [ItemAdded(s.n + 1, OutputIndex(k, idx), r.kind, r.id, r.callID, r.name, r.namespace)])
  {
    hide FunctionID, CustomID, OutputIndex;
    var a := ToolNamed(s, u, idx, call.id);
    var b := a.0.(names := a.0.names[idx := call.name]);
    assert ToolAdded(b, u, idx) == (b, []);
    assert a.1 + [] == a.1;
  }

  lemma NoArguments(calls: map<int, Call>, idx: int)
    requires idx !in calls
    ensures Get(ArgumentsIn(calls), idx) == ""
  {
  }

  lemma OffsetSame(s: State, t: State, idx: int)
    requires s.partAdded == t.partAdded && s.msgID == t.msgID
    ensures OutputIndex(s, idx) == OutputIndex(t, idx)
  {
  }

  lemma AnnouncementMoves(u: Setup, id: string, t: Told, n: nat, tally: Tally, idx: int, call: Call)
    requires ValidSetup(u) && Proper(t) && t.phase == InTools && idx !in t.calls && idx >= 0
    requires call.id != "" && call.name != "" && call.arguments == ""
    ensures Moves(u, id, t, n, tally, Announced(StateFor(id, t, n, tally), u, idx, call.id, call.name),
      t.(calls := t.calls[idx := call]))
  {
    hide StateFor, Leads, ToolReadings, ToolReading, Announced, ReasoningDone, TextDoneFor;
    AnnouncementIs(u, id, t, n, tally, idx, call);
    ReadingsUpdate(u, t.calls, Front(t), idx, call);
    ReadingAt(u, t.calls, Front(t), idx + Front(t));
    assert idx + Front(t) !in ClientFor(u, id, t, n).done by { FrontIsFree(u, id, t, n, idx + Front(t)); }
    ReadingStarts(u, call);
    BeforeTools(id, t, t.calls[idx := call]);
    NumberIn(id, t.(calls := t.calls[idx := call]), n + 1, tally);
    var c, r := ClientFor(u, id, t, n), ToolReading(u, call);
    var e := ItemAdded(n + 1, idx + Front(t), r.kind, r.id, r.callID, r.name, r.namespace);
    One(c, e);
    assert Observed(c, e) == ClientFor(u, id, t.(calls := t.calls[idx := call]), n + 1);
  }

  lemma ReadingStarts(u: Setup, call: Call)
    requires call.arguments == ""
    ensures ToolReading(u, call).text == ""
  {
  }

  lemma BeforeTools(id: string, t: Told, calls: map<int, Call>)
    ensures ReasoningDone(id, t.(calls := calls)) == ReasoningDone(id, t)
    ensures TextDoneFor(id, t.(calls := calls)) == TextDoneFor(id, t)
  {
  }

  // ---------- Arguments arrive ----------

  lemma ArgumentsAre(u: Setup, id: string, t: Told, n: nat, tally: Tally, idx: int, more: string)
    requires t.phase == InTools && idx in t.calls && more != "" && t.calls[idx].name != ""
    ensures var call := t.calls[idx].(arguments := t.calls[idx].arguments + more);
      ArgumentsHandled(StateFor(id, t, n, tally), u, idx, more) ==
        if IsProxy(u, call.name) then (StateFor(id, t.(calls := t.calls[idx := call]), n, tally), [])
        else
          (StateFor(id, t.(calls := t.calls[idx := call]), n + 1, tally),
           [Delta(n + 1, FunctionID(call.id), idx + Front(t), more)])
  {
    hide FunctionID, CustomID, MessageID, ReasoningID, OutputIndex, ArgumentsIn, NamesIn, IDsIn, IsProxy;
    var call := t.calls[idx].(arguments := t.calls[idx].arguments + more);
    var s := StateFor(id, t, n, tally);
    var grown := s.(arguments := s.arguments[idx := call.arguments]);
    CallsUpdate(t.calls, idx, call);
    KnownCall(t.calls, idx);
    IndexOf(id, t, n, tally, idx);
    OffsetSame(s, grown, idx);
    assert t.calls.Keys + {idx} == t.calls.Keys;
    assert NamesIn(t.calls)[idx := call.name] == NamesIn(t.calls) && IDsIn(t.calls)[idx := call.id] == IDsIn(t.calls);
    assert grown == StateFor(id, t.(calls := t.calls[idx := call]), n, tally);
    assert ToolAdded(grown, u, idx) == (grown, []);
    assert grown.(n := n + 1) == StateFor(id, t.(calls := t.calls[idx := call]), n + 1, tally);
    var e := Delta(n + 1, FunctionID(call.id), idx + Front(t), more);
    assert [] + [e] == [e];
  }

  lemma KnownCall(calls: map<int, Call>, idx: int)
    requires idx in calls
    ensures idx in ArgumentsIn(calls) && Get(ArgumentsIn(calls), idx) == calls[idx].arguments
    ensures idx in NamesIn(calls) && Get(NamesIn(calls), idx) == NamesIn(calls)[idx] == calls[idx].name
    ensures idx in IDsIn(calls) && Get(IDsIn(calls), idx) == IDsIn(calls)[idx] == calls[idx].id
  {
  }

  function MoreArguments(t: Told, idx: int, more: string): Told
    requires idx in t.calls
  {
    t.(calls := t.calls[idx := t.calls[idx].(arguments := t.calls[idx].arguments + more)])
  }

  lemma ArgumentsMove(u: Setup, id: string, t: Told, n: nat, tally: Tally, idx: int, more: string)
    requires ValidSetup(u) && Proper(t) && t.phase == InTools && idx in t.calls
    ensures Moves(u, id, t, n, tally, ArgumentsHandled(StateFor(id, t, n, tally), u, idx, more), MoreArguments(t, idx, more))
  {
    hide StateFor, Leads, ToolReadings, ReasoningDone, TextDoneFor, ArgumentsHandled, FunctionID, CustomID;
    var c, before := ClientFor(u, id, t, n), t.calls[idx];
    var call := before.(arguments := before.arguments + more);
    if more == "" {
      assert before.arguments + "" == before.arguments;
      assert t.calls[idx := before] == t.calls;
      assert MoreArguments(t, idx, more) == t;
      NoArgumentsHandled(StateFor(id, t, n, tally), u, idx);
      Stays(u, id, t, n, tally);
    } else {
      MoreArgumentsMove(u, id, t, n, tally, idx, more);
    }
  }

  lemma MoreArgumentsMove(u: Setup, id: string, t: Told, n: nat, tally: Tally, idx: int, more: string)
    requires ValidSetup(u) && Proper(t) && t.phase == InTools && idx in t.calls && more != ""
    ensures Moves(u, id, t, n, tally, ArgumentsHandled(StateFor(id, t, n, tally), u, idx, more), MoreArguments(t, idx, more))
  {
    hide StateFor, Leads, ToolReadings, ReasoningDone, TextDoneFor, ArgumentsHandled, FunctionID, CustomID;
    var c, before, t' := ClientFor(u, id, t, n), t.calls[idx], MoreArguments(t, idx, more);
    var call := before.(arguments := before.arguments + more);
    ArgumentsAre(u, id, t, n, tally, idx, more);
    ReadingsUpdate(u, t.calls, Front(t), idx, call);
    ReadingAt(u, t.calls, Front(t), idx + Front(t));
    BeforeTools(id, t, t.calls[idx := call]);
    NumberIn(id, t', n, tally);
    NumberIn(id, t', n + 1, tally);
    if IsProxy(u, call.name) {
      assert ToolReading(u, call) == ToolReading(u, before);
      assert ToolReadings(u, t.calls, Front(t))[idx + Front(t) := ToolReading(u, call)] == ToolReadings(u, t.calls, Front(t));
      assert ClientFor(u, id, t', n) == c;
      Nothing(c);
    } else {
      var e := Delta(n + 1, FunctionID(call.id), idx + Front(t), more);
      One(c, e);
      assert Observed(c, e) == ClientFor(u, id, t', n + 1);
    }
  }

  lemma NoArgumentsHandled(s: State, u: Setup, idx: int)
    ensures ArgumentsHandled(s, u, idx, "") == (s, [])
  {
  }

  // ---------- A whole fragment ----------

  /** A fragment, once reasoning and text are closed. */
  function ToolArrives(s: State, u: Setup, f: Fragment): (State, seq<Event>) {
    var a := ToolNamed(s, u, f.index, f.id);
    if f.function_.None? then a else Then(a, FunctionHandled(a.0, u, f.index, f.function_.value))
  }

  lemma ToolIsArrivalAfterBlocks(s: State, u: Setup, f: Fragment)
    ensures ToolHandled(s, u, f) == Then(BlocksClosed(s), ToolArrives(BlocksClosed(s).0, u, f))
  {
    hide BlocksClosed, ToolNamed, FunctionHandled;
    var a := BlocksClosed(s);
    var b := ToolNamed(a.0, u, f.index, f.id);
    if f.function_.Some? {
      var c := FunctionHandled(b.0, u, f.index, f.function_.value);
      assert (a.1 + b.1) + c.1 == a.1 + (b.1 + c.1);
    }
  }

  /** The first fragment of an index announces the call and then brings its arguments. */
  lemma FirstFragmentIs(s: State, u: Setup, f: Fragment)
    requires f.function_.Some? && f.function_.value.name != ""
    ensures var a := Announced(s, u, f.index, f.id, f.function_.value.name);
      ToolArrives(s, u, f) == Then(a, ArgumentsHandled(a.0, u, f.index, f.function_.value.arguments))
  {
    hide ToolNamed, ToolAdded, ArgumentsHandled;
    var a := ToolNamed(s, u, f.index, f.id);
    var b := ToolAdded(a.0.(names := a.0.names[f.index := f.function_.value.name]), u, f.index);
    var c := ArgumentsHandled(b.0, u, f.index, f.function_.value.arguments);
    assert a.1 + (b.1 + c.1) == (a.1 + b.1) + c.1;
  }

  lemma FirstFragmentMoves(u: Setup, id: string, t: Told, n: nat, tally: Tally, f: Fragment)
    requires ValidSetup(u) && Proper(t) && t.phase == InTools && f.index !in t.calls && FragmentFits(t.calls, f)
    ensures Moves(u, id, t, n, tally, ToolArrives(StateFor(id, t, n, tally), u, f), Hear(t, ToolPart(f)))
  {
    hide StateFor, ClientFor, Leads, Announced, ArgumentsHandled, ToolArrives;
    var s, idx, function_ := StateFor(id, t, n, tally), f.index, f.function_.value;
    var call := Call(f.id, function_.name, "");
    var t1 := t.(calls := t.calls[idx := call]);
    FirstFragmentIs(s, u, f);
    AnnouncementMoves(u, id, t, n, tally, idx, call);
    var a := Announced(s, u, idx, f.id, function_.name);
    ArgumentsMove(u, id, t1, a.0.n, tally, idx, function_.arguments);
    assert "" + function_.arguments == function_.arguments;
    assert t.calls[idx := call][idx := call.(arguments := function_.arguments)] == t.calls[idx := call.(arguments := function_.arguments)];
    assert MoreArguments(t1, idx, function_.arguments) == Hear(t, ToolPart(f));
    MovesOn(u, id, t, n, tally, a, t1, ArgumentsHandled(a.0, u, idx, function_.arguments), Hear(t, ToolPart(f)));
  }

  /** A later fragment only brings arguments. */
  lemma LaterFragmentIs(u: Setup, id: string, t: Told, n: nat, tally: Tally, f: Fragment)
    requires t.phase == InTools && f.index in t.calls && FragmentFits(t.calls, f)
    ensures var s := StateFor(id, t, n, tally);
      ToolArrives(s, u, f) ==
        if f.function_.Some? then ArgumentsHandled(s, u, f.index, f.function_.value.arguments) else (s, [])
  {
    hide ArgumentsHandled, ArgumentsIn, NamesIn, IDsIn, MessageID, ReasoningID;
    var s := StateFor(id, t, n, tally);
    KnownCall(t.calls, f.index);
    assert s.arguments[f.index := Get(s.arguments, f.index)] == s.arguments;
    assert ToolNamed(s, u, f.index, "") == (s, []);
    if f.function_.Some? {
      assert ToolAdded(s, u, f.index) == (s, []);
      var c := ArgumentsHandled(s, u, f.index, f.function_.value.arguments);
      assert [] + ([] + c.1) == c.1;
    }
  }

  lemma LaterFragmentMoves(u: Setup, id: string, t: Told, n: nat, tally: Tally, f: Fragment)
    requires ValidSetup(u) && Proper(t) && t.phase == InTools && f.index in t.calls && FragmentFits(t.calls, f)
    ensures Moves(u, id, t, n, tally, ToolArrives(StateFor(id, t, n, tally), u, f), Hear(t, ToolPart(f)))
  {
    hide StateFor, ClientFor, Leads, ArgumentsHandled, ToolArrives;
    LaterFragmentIs(u, id, t, n, tally, f);
    if f.function_.Some? {
      ArgumentsMove(u, id, t, n, tally, f.index, f.function_.value.arguments);
    } else {
      var call := t.calls[f.index];
      assert call.arguments + "" == call.arguments;
      assert t.calls[f.index := call] == t.calls;
      Stays(u, id, t, n, tally);
    }
  }

  lemma ToolMoves(u: Setup, id: string, t: Told, n: nat, tally: Tally, f: Fragment)
    requires ValidSetup(u) && Proper(t) && Fits(t, ToolPart(f))
    ensures Moves(u, id, t, n, tally, ToolHandled(StateFor(id, t, n, tally), u, f), Hear(t, ToolPart(f)))
  {
    hide StateFor, ClientFor, Leads, BlocksClosed, ToolArrives, ToolHandled;
    var s, t1 := StateFor(id, t, n, tally), t.(phase := InTools);
    ToolIsArrivalAfterBlocks(s, u, f);
    BlocksClose(u, id, t, n, tally);
    var a := BlocksClosed(s);
    if f.index in t.calls {
      LaterFragmentMoves(u, id, t1, a.0.n, tally, f);
    } else {
      FirstFragmentMoves(u, id, t1, a.0.n, tally, f);
    }
    MovesOn(u, id, t, n, tally, a, t1, ToolArrives(a.0, u, f), Hear(t, ToolPart(f)));
  }

  // ---------- Closing the calls ----------

  function Without(calls: map<int, Call>, closed: set<int>): map<int, Call> {
    map i | i in calls && i !in closed :: calls[i]
  }

  function Only(calls: map<int, Call>, closed: set<int>): map<int, Call> {
    map i | i in calls && i in closed :: calls[i]
  }

  function OpenCalls(u: Setup, t: Told, closed: set<int>): map<int, Reading> {
    ToolReadings(u, Without(t.calls, closed), Front(t))
  }

  function ClosedCalls(u: Setup, t: Told, closed: set<int>): map<int, Item> {
    ToolResults(u, Only(t.calls, closed), Front(t))
  }

  function FrontDone(id: string, t: Told): map<int, Item> {
    ReasoningDone(id, t) + TextDoneFor(id, t)
  }

  /** The client when the calls in closed are done. */
  function Between(u: Setup, id: string, t: Told, n: nat, closed: set<int>): Client {
    Client(n, OpenCalls(u, t, closed), FrontDone(id, t) + ClosedCalls(u, t, closed), None)
  }

  /** The two closing events of one call. */
  lemma CallCloses(c: Client, u: Setup, s: State, idx: int, index: int, call: Call)
    requires c.finished == None && index !in c.done && index in c.open && c.open[index] == ToolReading(u, call)
    requires u.compat || !IsProxy(u, call.name)
    requires Get(s.callIDs, idx) == call.id && Get(s.names, idx) == call.name && Get(s.arguments, idx) == call.arguments
    requires OutputIndex(s, idx) == index
    ensures Leads(c, ToolDone(s, u, idx, c.seen),
      Client(c.seen + 2, c.open - {index}, c.done[index := CallItem(u, call)], None))
  {
    hide Leads, FunctionID, CustomID, OutputIndex, Get;
    var events := ToolDone(s, u, idx, c.seen);
    assert "" + u.rebuild(call.name, ArgumentsOf(call.arguments)) == u.rebuild(call.name, ArgumentsOf(call.arguments));
    Two(c, events[0], events[1]);
    var d := Observed(Observed(c, events[0]), events[1]);
    assert d.open == c.open - {index};
  }

  lemma ResultAt(u: Setup, calls: map<int, Call>, front: int, k: int)
    ensures k in ToolResults(u, calls, front) <==> k - front in calls
    ensures k - front in calls ==> ToolResults(u, calls, front)[k] == CallItem(u, calls[k - front])
  {
    hide CallItem;
    ShiftedHas(calls.Keys, front, k);
  }

  lemma ReadingsStep(u: Setup, t: Told, closed: set<int>, idx: int)
    requires idx in t.calls && idx !in closed
    ensures var open := OpenCalls(u, t, closed); var index := idx + Front(t);
      && index in open && open[index] == ToolReading(u, t.calls[idx])
      && OpenCalls(u, t, closed + {idx}) == open - {index}
  {
    hide ToolReading, ToolReadings;
    var front := Front(t);
    var a := OpenCalls(u, t, closed + {idx});
    var b := OpenCalls(u, t, closed) - {idx + front};
    ReadingAt(u, Without(t.calls, closed), front, idx + front);
    forall k
      ensures k in a <==> k in b
      ensures k in a ==> a[k] == b[k]
    {
      ReadingAt(u, Without(t.calls, closed + {idx}), front, k);
      ReadingAt(u, Without(t.calls, closed), front, k);
    }
  }

  predicate Stands(open: map<int, Reading>, index: int, r: Reading) {
    index in open && open[index] == r
  }

  /** One more call is closed: one reading less, one result more. */
  lemma BetweenStep(u: Setup, id: string, t: Told, n: nat, closed: set<int>, idx: int)
    requires Proper(t) && t.phase == InTools && idx in t.calls && idx !in closed
    ensures var c := Between(u, id, t, n, closed); var index := idx + Front(t);
      && Stands(c.open, index, ToolReading(u, t.calls[idx])) && index !in c.done
      && Between(u, id, t, n + 2, closed + {idx})
           == Client(n + 2, c.open - {index}, c.done[index := CallItem(u, t.calls[idx])], None)
  {
    hide ToolReading, CallItem, OpenCalls, ClosedCalls, FrontDone, Proper, Front;
    ReadingsStep(u, t, closed, idx);
    ResultsStep(u, t, closed, idx);
    NotDoneBefore(u, id, t, closed, idx);
    AddLast(FrontDone(id, t), ClosedCalls(u, t, closed), idx + Front(t), CallItem(u, t.calls[idx]));
    var c, d, index := Between(u, id, t, n, closed), Between(u, id, t, n + 2, closed + {idx}), idx + Front(t);
    assert d.open == c.open - {index};
    assert d.done == c.done[index := CallItem(u, t.calls[idx])];
  }

  lemma AddLast(a: map<int, Item>, b: map<int, Item>, k: int, v: Item)
    ensures a + b[k := v] == (a + b)[k := v]
  {
  }

  lemma NotDoneBefore(u: Setup, id: string, t: Told, closed: set<int>, idx: int)
    requires Proper(t) && idx in t.calls && idx !in closed
    ensures idx + Front(t) !in FrontDone(id, t) + ClosedCalls(u, t, closed)
  {
    hide ToolResults;
    ResultAt(u, Only(t.calls, closed), Front(t), idx + Front(t));
  }

  lemma ResultsStep(u: Setup, t: Told, closed: set<int>, idx: int)
    requires idx in t.calls && idx !in closed
    ensures ClosedCalls(u, t, closed + {idx}) == ClosedCalls(u, t, closed)[idx + Front(t) := CallItem(u, t.calls[idx])]
  {
    hide CallItem, ToolResults;
    var front := Front(t);
    var a := ClosedCalls(u, t, closed + {idx});
    var b := ClosedCalls(u, t, closed)[idx + front := CallItem(u, t.calls[idx])];
    forall k
      ensures k in a <==> k in b
      ensures k in a ==> a[k] == b[k]
    {
      ResultAt(u, Only(t.calls, closed + {idx}), front, k);
      ResultAt(u, Only(t.calls, closed), front, k);
    }
  }

  lemma {:induction false} CallsClose(u: Setup, id: string, t: Told, n: nat, tally: Tally, idxs: seq<int>)
    requires ValidSetup(u) && Proper(t) && t.phase == InTools
    requires Ascending(idxs) && forall i :: 0 <= i < |idxs| ==> idxs[i] in t.calls
    ensures Leads(Between(u, id, t, n, {}), ToolsDone(StateFor(id, t, n, tally), u, idxs),
      Between(u, id, t, n + 2 * |idxs|, Elements(idxs)))
  {
    hide Leads, Between, StateFor, ToolDone;
    if idxs == [] {
      assert Elements([]) == {};
      Nothing(Between(u, id, t, n, {}));
    } else {
      var init, idx := idxs[..|idxs| - 1], idxs[|idxs| - 1];
      CallsClose(u, id, t, n, tally, init);
      var s, c := StateFor(id, t, n, tally), Between(u, id, t, n + 2 * |init|, Elements(init));
      assert idx !in Elements(init);
      NumberIn(id, t, n, tally);
      NextCallCloses(u, id, t, n, tally, n + 2 * |init|, Elements(init), idx);
      assert Elements(idxs) == Elements(init) + {idx} by { assert idxs == init + [idx]; }
      LeadsOn(Between(u, id, t, n, {}), ToolsDone(s, u, init), c, ToolDone(s, u, idx, n + 2 * |init|),
        Between(u, id, t, n + 2 * |idxs|, Elements(idxs)));
    }
  }

  function Elements(s: seq<int>): set<int> {
    set i | i in s
  }

  lemma NextCallCloses(u: Setup, id: string, t: Told, n: nat, tally: Tally, seen: nat, closed: set<int>, idx: int)
    requires ValidSetup(u) && Proper(t) && t.phase == InTools && idx in t.calls && idx !in closed
    ensures Leads(Between(u, id, t, seen, closed), ToolDone(StateFor(id, t, n, tally), u, idx, seen),
      Between(u, id, t, seen + 2, closed + {idx}))
  {
    hide Leads, ToolDone, ToolReading, CallItem, Get, OutputIndex, ToolReadings, ToolResults, ReasoningDone, TextDoneFor,
      Without, Only, MessageID, ReasoningID, ArgumentsIn, NamesIn, IDsIn;
    var s := StateFor(id, t, n, tally);
    BetweenStep(u, id, t, seen, closed, idx);
    KnownCall(t.calls, idx);
    IndexOf(id, t, n, tally, idx);
    CallCloses(Between(u, id, t, seen, closed), u, s, idx, idx + Front(t), t.calls[idx]);
  }

  lemma NoneAndAll(calls: map<int, Call>)
    ensures Without(calls, {}) == calls && Only(calls, {}) == map[]
    ensures Without(calls, calls.Keys) == map[] && Only(calls, calls.Keys) == calls
  {
  }

  /** Before any call is closed, and after all are. */
  lemma BetweenEnds(u: Setup, id: string, t: Told, n: nat)
    requires t.phase == InTools
    ensures Between(u, id, t, n, {}) == ClientFor(u, id, t, n)
    ensures Between(u, id, t, n, t.calls.Keys) == ClientFor(u, id, t.(phase := AtEnd), n)
  {
    hide ToolReadings, ToolResults, Without, Only, MessageID, ReasoningID;
    NoneAndAll(t.calls);
    NoTools(u, Front(t));
  }

  lemma ToolsMove(u: Setup, id: string, t: Told, n: nat, tally: Tally)
    requires ValidSetup(u) && Proper(t) && t.phase == InTools
    ensures Moves(u, id, t, n, tally, ToolsClosed(StateFor(id, t, n, tally), u), t.(phase := AtEnd))
  {
    hide Leads, Between, ToolsDone, ClientFor, ArgumentsIn, NamesIn, IDsIn, MessageID, ReasoningID;
    var s, idxs := StateFor(id, t, n, tally), Sorted(t.calls.Keys);
    assert ArgumentsIn(t.calls).Keys == t.calls.Keys by { ArgumentKeys(t.calls); }
    BetweenEnds(u, id, t, n);
    if t.calls == map[] {
      Nothing(ClientFor(u, id, t, n));
      assert t.calls.Keys == {};
    } else {
      assert t.calls.Keys != {};
      BetweenEnds(u, id, t, n + 2 * |idxs|);
      CallsClose(u, id, t, n, tally, idxs);
      CoversElements(idxs, t.calls.Keys);
    }
  }

  lemma CoversElements(s: seq<int>, keys: set<int>)
    requires Covers(s, keys)
    ensures Elements(s) == keys
  {
    forall k
      ensures k in Elements(s) <==> k in keys
    {
    }
  }

  lemma ArgumentKeys(calls: map<int, Call>)
    ensures ArgumentsIn(calls).Keys == calls.Keys
    ensures calls != map[] ==> ArgumentsIn(calls) != map[]
  {
    if calls != map[] {
      assert calls.Keys != {};
      assert ArgumentsIn(calls).Keys != {};
    }
  }

  lemma AllMove(u: Setup, id: string, t: Told, n: nat, tally: Tally)
    requires ValidSetup(u) && Proper(t)
    ensures Moves(u, id, t, n, tally, AllClosed(StateFor(id, t, n, tally), u), t.(phase := AtEnd))
  {
    hide StateFor, ClientFor, Leads, BlocksClosed, ToolsClosed;
    var s, t1 := StateFor(id, t, n, tally), t.(phase := InTools);
    if t.phase == AtEnd {
      NothingToClose(u, id, t, n, tally);
      Stays(u, id, t, n, tally);
    } else {
      BlocksClose(u, id, t, n, tally);
      var a := BlocksClosed(s);
      ToolsMove(u, id, t1, a.0.n, tally);
      MovesOn(u, id, t, n, tally, a, t1, ToolsClosed(a.0, u), t.(phase := AtEnd));
    }
  }

  lemma NothingToClose(u: Setup, id: string, t: Told, n: nat, tally: Tally)
    requires t.phase == AtEnd
    ensures AllClosed(StateFor(id, t, n, tally), u) == (StateFor(id, t, n, tally), [])
  {
    hide MessageID, ReasoningID, ArgumentsIn, NamesIn, IDsIn;
    var s := StateFor(id, t, n, tally);
    NoReasoningOpen(id, t, n, tally);
    NoTextOpen(id, t, n, tally);
    var none: seq<Event> := [];
    assert none + none == none;
    assert ToolsClosed(s, u) == (s, none);
  }

  lemma PartMoves(u: Setup, id: string, t: Told, n: nat, tally: Tally, p: Part)
    requires ValidSetup(u) && Proper(t) && Fits(t, p)
    ensures Moves(u, id, t, n, tally, PartHandled(StateFor(id, t, n, tally), u, p), Hear(t, p)) && Proper(Hear(t, p))
  {
    hide Moves, StateFor, ReasoningHandled, ContentHandled, ToolHandled, AllClosed;
    HearProper(t, p);
    match p {
      case ReasoningPart(text) => ReasoningMoves(u, id, t, n, tally, text);
      case ContentPart(text) => ContentMoves(u, id, t, n, tally, text);
      case ToolPart(f) => ToolMoves(u, id, t, n, tally, f);
      case FinishPart => AllMove(u, id, t, n, tally);
    }
  }
}
