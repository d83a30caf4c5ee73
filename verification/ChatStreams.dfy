// Canonical chat streams: what a client makes of the converted events, step by
// step against what the stream has told so far.
module ChatStreams {
  import opened Common
  import opened ChatUsage
  import opened ChatToResponses
  import opened ChatMessages

  // ---------- A client reading events ----------

  datatype Reading = Reading(kind: Kind, id: string, callID: string, name: string, namespace: string, text: string)

  datatype Client = Client(seen: nat, open: map<int, Reading>, done: map<int, Item>, finished: Option<Event>)

  const NEW_CLIENT := Client(0, map[], map[], None)

  predicate Reads(c: Client, index: int, id: string) {
    index in c.open && c.open[index].id == id
  }

  /** What the text of an item is when it is called done: its deltas together, or an empty object for a call without any. */
  function Whole(r: Reading): string {
    if r.kind == FunctionKind && r.text == "" then "{}" else r.text
  }

  /** The finished item is the one that was announced, with the text that was streamed. */
  predicate Fulfils(r: Reading, item: Item) {
    match item
    case ReasoningItem(id, text) => r.kind == Reasoning && r.id == id && Whole(r) == text
    case MessageItem(id, text) => r.kind == Text && r.id == id && Whole(r) == text
    case FunctionCall(id, callID, name, namespace, arguments) =>
      && r.kind == FunctionKind && r.id == id && r.callID == callID && Whole(r) == arguments
      && ((r.name == "" && r.namespace == "") || (r.name == name && r.namespace == namespace))
    case CustomCall(id, callID, name, input) =>
      r.kind == CustomKind && r.id == id && r.callID == callID && r.name == name && Whole(r) == input
  }

  /** Output position i is the item that was streamed with index i, and there are no others. */
  predicate Positioned(output: seq<Item>, done: map<int, Item>) {
    && |output| == |done.Keys|
    && forall i :: 0 <= i < |output| ==> i in done && done[i] == output[i]
  }

  predicate Accepts(c: Client, e: Event) {
    && e.n == c.seen + 1
    && c.finished == None
    && match e
       case Created(_, _) => c.seen == 0
       case InProgress(_, _) => c.seen == 1
       case ItemAdded(_, index, _, _, _, _, _) => index !in c.open && index !in c.done
       case PartAdded(_, id, index) => Reads(c, index, id) && c.open[index].text == ""
       case Delta(_, id, index, _) => Reads(c, index, id) && c.open[index].kind != CustomKind
       case InputDelta(_, id, callID, index, _) =>
         Reads(c, index, id) && c.open[index].kind == CustomKind && c.open[index].callID == callID
       case TextDone(_, id, index, text) => Reads(c, index, id) && text == Whole(c.open[index])
       case PartDone(_, id, index, text) => Reads(c, index, id) && text == Whole(c.open[index])
       case ItemDone(_, index, item) => index in c.open && index !in c.done && Fulfils(c.open[index], item)
       case Completed(_, _, output, _) => c.open == map[] && Positioned(output, c.done)
  }

  function Longer(c: Client, index: int, text: string): Client
    requires index in c.open
  {
    c.(open := c.open[index := c.open[index].(text := c.open[index].text + text)])
  }

  function Observed(c: Client, e: Event): Client
    requires Accepts(c, e)
  {
    var d := c.(seen := c.seen + 1);
    match e
    case ItemAdded(_, index, kind, id, callID, name, namespace) =>
      d.(open := c.open[index := Reading(kind, id, callID, name, namespace, "")])
    case Delta(_, _, index, text) => Longer(d, index, text)
    case InputDelta(_, _, _, index, text) => Longer(d, index, text)
    case ItemDone(_, index, item) => d.(open := c.open - {index}, done := c.done[index := item])
    case Completed(_, _, _, _) => d.(finished := Some(e))
    case _ => d
  }

  predicate AcceptsAll(c: Client, events: seq<Event>)
    decreases events
  {
    events != [] ==> Accepts(c, events[0]) && AcceptsAll(Observed(c, events[0]), events[1..])
  }

  function ObservedAll(c: Client, events: seq<Event>): Client
    requires AcceptsAll(c, events)
    decreases events
  {
    if events == [] then c else ObservedAll(Observed(c, events[0]), events[1..])
  }

  lemma {:induction false} AcceptsMore(c: Client, a: seq<Event>, b: seq<Event>)
    requires AcceptsAll(c, a) && AcceptsAll(ObservedAll(c, a), b)
    ensures AcceptsAll(c, a + b) && ObservedAll(c, a + b) == ObservedAll(ObservedAll(c, a), b)
    decreases a
  {
    hide Accepts, Observed;
    if a == [] {
      assert a + b == b;
    } else {
      AcceptsMore(Observed(c, a[0]), a[1..], b);
      assert (a + b)[1..] == a[1..] + b;
    }
  }

  /** The client accepts the events and then stands at d. */
  ghost predicate Leads(c: Client, events: seq<Event>, d: Client) {
    AcceptsAll(c, events) && ObservedAll(c, events) == d
  }

  lemma LeadsOn(c: Client, a: seq<Event>, d: Client, b: seq<Event>, e: Client)
    requires Leads(c, a, d) && Leads(d, b, e)
    ensures Leads(c, a + b, e)
  {
    AcceptsMore(c, a, b);
  }

  lemma Nothing(c: Client)
    ensures Leads(c, [], c)
  {
  }

  lemma One(c: Client, e: Event)
    requires Accepts(c, e)
    ensures Leads(c, [e], Observed(c, e))
  {
    hide Accepts, Observed;
    Nothing(Observed(c, e));
    assert [e][1..] == [];
  }

  lemma Two(c: Client, e: Event, f: Event)
    requires Accepts(c, e) && Accepts(Observed(c, e), f)
    ensures Leads(c, [e, f], Observed(Observed(c, e), f))
  {
    hide Accepts, Observed;
    One(c, e);
    One(Observed(c, e), f);
    LeadsOn(c, [e], Observed(c, e), [f], Observed(Observed(c, e), f));
    assert [e] + [f] == [e, f];
  }

  lemma Three(c: Client, e: Event, f: Event, g: Event)
    requires Accepts(c, e) && Accepts(Observed(c, e), f) && Accepts(Observed(Observed(c, e), f), g)
    ensures Leads(c, [e, f, g], Observed(Observed(Observed(c, e), f), g))
  {
    hide Accepts, Observed;
    var d := Observed(Observed(c, e), f);
    Two(c, e, f);
    One(d, g);
    LeadsOn(c, [e, f], d, [g], Observed(d, g));
    assert [e, f] + [g] == [e, f, g];
  }

  // ---------- What a canonical stream has told so far ----------

  datatype Phase = InReasoning | InContent | InTools | AtEnd

  datatype Told = Told(phase: Phase, reasoning: string, content: string, calls: map<int, Call>)

  const UNTOLD := Told(InReasoning, "", "", map[])

  /** Id and name come once, with the first fragment of an index. */
  predicate FragmentFits(calls: map<int, Call>, f: Fragment) {
    if f.index in calls then f.id == "" && (f.function_.Some? ==> f.function_.value.name == "")
    else f.index >= 0 && f.id != "" && f.function_.Some? && f.function_.value.name != ""
  }

  /** Reasoning, then content, then tool calls, then the end. */
  predicate Fits(t: Told, p: Part) {
    match p
    case ReasoningPart(text) => t.phase == InReasoning && text != ""
    case ContentPart(text) => (t.phase == InReasoning || t.phase == InContent) && text != ""
    case ToolPart(f) => t.phase != AtEnd && FragmentFits(t.calls, f)
    case FinishPart => t.phase != AtEnd
  }

  function CallAfter(calls: map<int, Call>, f: Fragment): Call
    requires FragmentFits(calls, f)
  {
    var arguments := if f.function_.Some? then f.function_.value.arguments else "";
    if f.index in calls then calls[f.index].(arguments := calls[f.index].arguments + arguments)
    else Call(f.id, f.function_.value.name, arguments)
  }

  function Hear(t: Told, p: Part): Told
    requires Fits(t, p)
  {
    match p
    case ReasoningPart(text) => t.(reasoning := t.reasoning + text)
    case ContentPart(text) => t.(phase := InContent, content := t.content + text)
    case ToolPart(f) => t.(phase := InTools, calls := t.calls[f.index := CallAfter(t.calls, f)])
    case FinishPart => t.(phase := AtEnd)
  }

  /** Later parts have not been told in an earlier phase; calls have ids and names. */
  predicate Proper(t: Told) {
    && (t.phase == InReasoning ==> t.content == "" && t.calls == map[])
    && (t.phase == InContent ==> t.calls == map[])
    && forall i :: i in t.calls ==> i >= 0 && t.calls[i].id != "" && t.calls[i].name != ""
  }

  lemma HearProper(t: Told, p: Part)
    requires Proper(t) && Fits(t, p)
    ensures Proper(Hear(t, p))
  {
  }

  // ---------- The state and the client that go with it ----------

  function ArgumentsIn(calls: map<int, Call>): map<int, string> {
    map i | i in calls :: calls[i].arguments
  }

  function NamesIn(calls: map<int, Call>): map<int, string> {
    map i | i in calls :: calls[i].name
  }

  function IDsIn(calls: map<int, Call>): map<int, string> {
    map i | i in calls :: calls[i].id
  }

  function StateFor(id: string, t: Told, n: nat, tally: Tally): State {
    State(n, id, false,
      if t.content != "" then MessageID(id, t.reasoning != "") else "",
      t.phase == InContent && t.content != "",
      t.phase == InTools && t.calls != map[],
      ArgumentsIn(t.calls), NamesIn(t.calls), IDsIn(t.calls), t.calls.Keys,
      t.content,
      t.phase == InReasoning && t.reasoning != "",
      if t.reasoning != "" then ReasoningID(id) else "",
      t.reasoning,
      t.reasoning != "",
      tally)
  }

  /** How many items come before the tool calls. */
  function Front(t: Told): nat {
    (if t.reasoning != "" then 1 else 0) + (if t.content != "" then 1 else 0)
  }

  function TextAt(t: Told): nat {
    if t.reasoning != "" then 1 else 0
  }

  function ToolReading(u: Setup, call: Call): Reading {
    if IsProxy(u, call.name) then
      Reading(CustomKind, CustomID(call.id), call.id, if u.compat then u.original(call.name) else "", "", "")
    else
      Reading(FunctionKind, FunctionID(call.id), call.id, if u.compat then u.display(call.name) else "",
        if u.compat then u.namespace(call.name) else "", call.arguments)
  }

  function CallItem(u: Setup, call: Call): Item {
    ToolItem(u, call.id, call.name, call.arguments)
  }

  function Shifted(keys: set<int>, front: int): set<int> {
    set i | i in keys :: i + front
  }

  lemma ShiftedHas(keys: set<int>, front: int, k: int)
    ensures k in Shifted(keys, front) <==> k - front in keys
  {
    if k - front in keys {
      assert k == (k - front) + front;
    }
  }

  function ToolReadings(u: Setup, calls: map<int, Call>, front: int): map<int, Reading> {
    map k | k in Shifted(calls.Keys, front) :: (ShiftedHas(calls.Keys, front, k); ToolReading(u, calls[k - front]))
  }

  function ToolResults(u: Setup, calls: map<int, Call>, front: int): map<int, Item> {
    map k | k in Shifted(calls.Keys, front) :: (ShiftedHas(calls.Keys, front, k); CallItem(u, calls[k - front]))
  }

  function OpenFor(u: Setup, id: string, t: Told): map<int, Reading> {
    if t.phase == InReasoning && t.reasoning != "" then map[0 := Reading(Reasoning, ReasoningID(id), "", "", "", t.reasoning)]
    else if t.phase == InContent && t.content != "" then
      map[TextAt(t) := Reading(Text, MessageID(id, t.reasoning != ""), "", "", "", t.content)]
    else if t.phase == InTools then ToolReadings(u, t.calls, Front(t))
    else map[]
  }

  function ReasoningDone(id: string, t: Told): map<int, Item> {
    if t.reasoning != "" && t.phase != InReasoning then map[0 := ReasoningItem(ReasoningID(id), t.reasoning)] else map[]
  }

  function TextDoneFor(id: string, t: Told): map<int, Item> {
    if t.content != "" && t.phase != InContent
    then map[TextAt(t) := MessageItem(MessageID(id, t.reasoning != ""), t.content)] else map[]
  }

  function ClientFor(u: Setup, id: string, t: Told, n: nat): Client {
    Client(n, OpenFor(u, id, t),
      ReasoningDone(id, t) + TextDoneFor(id, t) + (if t.phase == AtEnd then ToolResults(u, t.calls, Front(t)) else map[]),
      None)
  }

  /** From what was told before to what is told after, in the converter and in the client. */
  ghost predicate Moves(u: Setup, id: string, t: Told, n: nat, tally: Tally, r: (State, seq<Event>), t': Told) {
    && r.0 == StateFor(id, t', r.0.n, tally)
    && Leads(ClientFor(u, id, t, n), r.1, ClientFor(u, id, t', r.0.n))
  }

  lemma MovesOn(u: Setup, id: string, t: Told, n: nat, tally: Tally, a: (State, seq<Event>), t1: Told,
                b: (State, seq<Event>), t2: Told)
    requires Moves(u, id, t, n, tally, a, t1) && Moves(u, id, t1, a.0.n, tally, b, t2)
    ensures Moves(u, id, t, n, tally, Then(a, b), t2)
  {
    hide StateFor, ClientFor, Leads;
    LeadsOn(ClientFor(u, id, t, n), a.1, ClientFor(u, id, t1, a.0.n), b.1, ClientFor(u, id, t2, b.0.n));
  }

  lemma Stays(u: Setup, id: string, t: Told, n: nat, tally: Tally)
    ensures Moves(u, id, t, n, tally, (StateFor(id, t, n, tally), []), t)
  {
    hide ClientFor;
    Nothing(ClientFor(u, id, t, n));
  }

  // ---------- Blocks: reasoning and text ----------

  function Block(kind: Kind, id: string, text: string): Reading {
    Reading(kind, id, "", "", "", text)
  }

  function BlockItem(kind: Kind, id: string, text: string): Item {
    if kind == Reasoning then ReasoningItem(id, text) else MessageItem(id, text)
  }

  /** The three closing events of a block. */
  lemma BlockCloses(c: Client, kind: Kind, id: string, index: int, text: string)
    requires kind == Reasoning || kind == Text
    requires c.finished == None && index !in c.done && index in c.open && c.open[index] == Block(kind, id, text)
    ensures Leads(c,
      [TextDone(c.seen + 1, id, index, text), PartDone(c.seen + 2, id, index, text),
       ItemDone(c.seen + 3, index, BlockItem(kind, id, text))],
      Client(c.seen + 3, c.open - {index}, c.done[index := BlockItem(kind, id, text)], None))
  {
    hide Leads;
    Three(c, TextDone(c.seen + 1, id, index, text), PartDone(c.seen + 2, id, index, text),
      ItemDone(c.seen + 3, index, BlockItem(kind, id, text)));
  }

  /** A block is announced and gets its first delta. */
  lemma BlockOpens(c: Client, kind: Kind, id: string, index: int, text: string)
    requires kind == Reasoning || kind == Text
    requires c.finished == None && index !in c.done && index !in c.open
    ensures Leads(c,
      [ItemAdded(c.seen + 1, index, kind, id, "", "", ""), PartAdded(c.seen + 2, id, index), Delta(c.seen + 3, id, index, text)],
      Client(c.seen + 3, c.open[index := Block(kind, id, text)], c.done, None))
  {
    hide Leads;
    Three(c, ItemAdded(c.seen + 1, index, kind, id, "", "", ""), PartAdded(c.seen + 2, id, index), Delta(c.seen + 3, id, index, text));
    assert "" + text == text;
    assert c.open[index := Block(kind, id, "")][index := Block(kind, id, text)] == c.open[index := Block(kind, id, text)];
  }

  lemma BlockGrows(c: Client, kind: Kind, id: string, index: int, before: string, text: string)
    requires kind == Reasoning || kind == Text
    requires c.finished == None && index in c.open && c.open[index] == Block(kind, id, before)
    ensures Leads(c, [Delta(c.seen + 1, id, index, text)],
      Client(c.seen + 1, c.open[index := Block(kind, id, before + text)], c.done, None))
  {
    hide Leads;
    One(c, Delta(c.seen + 1, id, index, text));
  }

  lemma NoTools(u: Setup, front: int)
    ensures ToolReadings(u, map[], front) == map[] && ToolResults(u, map[], front) == map[]
  {
  }

  lemma ReasoningCloses(u: Setup, id: string, t: Told, n: nat, tally: Tally)
    requires Proper(t) && t.phase == InReasoning
    ensures Moves(u, id, t, n, tally, ReasoningClosed(StateFor(id, t, n, tally)), t.(phase := InContent))
  {
    hide ReasoningID, MessageID, ToolReadings, ToolResults, Leads;
    var c, t' := ClientFor(u, id, t, n), t.(phase := InContent);
    if t.reasoning != "" {
      BlockCloses(c, Reasoning, ReasoningID(id), 0, t.reasoning);
      assert ClientFor(u, id, t', n + 3).open == c.open - {0};
      assert ClientFor(u, id, t', n + 3).done == c.done[0 := ReasoningItem(ReasoningID(id), t.reasoning)];
    } else {
      Nothing(c);
    }
  }

  lemma TextCloses(u: Setup, id: string, t: Told, n: nat, tally: Tally)
    requires Proper(t) && t.phase == InContent
    ensures Moves(u, id, t, n, tally, TextClosed(StateFor(id, t, n, tally)), t.(phase := InTools))
  {
    hide ReasoningID, MessageID, ToolReadings, ToolResults, Leads;
    var c, t' := ClientFor(u, id, t, n), t.(phase := InTools);
    NoTools(u, Front(t));
    if t.content != "" {
      var msgID := MessageID(id, t.reasoning != "");
      BlockCloses(c, Text, msgID, TextAt(t), t.content);
      assert ClientFor(u, id, t', n + 3).open == c.open - {TextAt(t)};
      assert ClientFor(u, id, t', n + 3).done == c.done[TextAt(t) := MessageItem(msgID, t.content)];
    } else {
      Nothing(c);
      assert ClientFor(u, id, t', n) == c;
    }
  }

  // ---------- Reasoning and content parts ----------

  lemma ReasoningMoves(u: Setup, id: string, t: Told, n: nat, tally: Tally, text: string)
    requires Proper(t) && Fits(t, ReasoningPart(text))
    ensures Moves(u, id, t, n, tally, ReasoningHandled(StateFor(id, t, n, tally), text), Hear(t, ReasoningPart(text)))
  {
    hide ReasoningID, MessageID, ToolReadings, ToolResults, Leads;
    var c, t', rs := ClientFor(u, id, t, n), Hear(t, ReasoningPart(text)), ReasoningID(id);
    if t.reasoning == "" {
      BlockOpens(c, Reasoning, rs, 0, text);
      assert "" + text == text;
      assert ClientFor(u, id, t', n + 3).open == c.open[0 := Block(Reasoning, rs, text)];
      assert ReasoningHandled(StateFor(id, t, n, tally), text).1 ==
        [ItemAdded(n + 1, 0, Reasoning, rs, "", "", ""), PartAdded(n + 2, rs, 0), Delta(n + 3, rs, 0, text)];
    } else {
      BlockGrows(c, Reasoning, rs, 0, t.reasoning, text);
      assert ClientFor(u, id, t', n + 1).open == c.open[0 := Block(Reasoning, rs, t.reasoning + text)];
      assert ReasoningHandled(StateFor(id, t, n, tally), text).1 == [Delta(n + 1, rs, 0, text)];
    }
  }

  /** Text arrives once the reasoning is closed. */
  function TextArrives(s: State, text: string): (State, seq<Event>) {
    var a := TextOpened(s);
    Then(a, (a.0.(n := a.0.n + 1, text := a.0.text + text), [Delta(a.0.n + 1, a.0.msgID, TextIndex(a.0), text)]))
  }

  lemma TextStarts(u: Setup, id: string, t: Told, n: nat, tally: Tally, text: string)
    requires Proper(t) && t.phase == InContent && text != "" && t.content == ""
    ensures Moves(u, id, t, n, tally, TextArrives(StateFor(id, t, n, tally), text), Hear(t, ContentPart(text)))
  {
    hide ReasoningID, MessageID, ToolReadings, ToolResults, Leads;
    var c, t', msgID := ClientFor(u, id, t, n), Hear(t, ContentPart(text)), MessageID(id, t.reasoning != "");
    assert t' == t.(content := text) by { assert "" + text == text; }
    BlockOpens(c, Text, msgID, TextAt(t), text);
    assert ClientFor(u, id, t', n + 3).open == c.open[TextAt(t) := Block(Text, msgID, text)];
    assert ClientFor(u, id, t', n + 3).done == c.done;
    var r := TextArrives(StateFor(id, t, n, tally), text);
    assert r.0.text == text;
    assert r.1 ==
      [ItemAdded(n + 1, TextAt(t), Text, msgID, "", "", ""), PartAdded(n + 2, msgID, TextAt(t)), Delta(n + 3, msgID, TextAt(t), text)];
  }

  lemma TextGoesOn(u: Setup, id: string, t: Told, n: nat, tally: Tally, text: string)
    requires Proper(t) && t.phase == InContent && text != "" && t.content != ""
    ensures Moves(u, id, t, n, tally, TextArrives(StateFor(id, t, n, tally), text), Hear(t, ContentPart(text)))
  {
    hide ReasoningID, MessageID, ToolReadings, ToolResults, Leads;
    var c, t', msgID := ClientFor(u, id, t, n), Hear(t, ContentPart(text)), MessageID(id, t.reasoning != "");
    BlockGrows(c, Text, msgID, TextAt(t), t.content, text);
    assert ClientFor(u, id, t', n + 1).open == c.open[TextAt(t) := Block(Text, msgID, t.content + text)];
    assert TextArrives(StateFor(id, t, n, tally), text).1 == [Delta(n + 1, msgID, TextAt(t), text)];
  }

  lemma TextMoves(u: Setup, id: string, t: Told, n: nat, tally: Tally, text: string)
    requires Proper(t) && t.phase == InContent && text != ""
    ensures Moves(u, id, t, n, tally, TextArrives(StateFor(id, t, n, tally), text), Hear(t, ContentPart(text)))
  {
    hide Moves, TextArrives, StateFor;
    if t.content == "" {
      TextStarts(u, id, t, n, tally, text);
    } else {
      TextGoesOn(u, id, t, n, tally, text);
    }
  }

  lemma ContentIsTextAfterReasoning(s: State, text: string)
    ensures ContentHandled(s, text) == Then(ReasoningClosed(s), TextArrives(ReasoningClosed(s).0, text))
  {
    hide ReasoningClosed;
    var a := ReasoningClosed(s);
    var b := TextOpened(a.0);
    var e := [Delta(b.0.n + 1, b.0.msgID, TextIndex(b.0), text)];
    assert (a.1 + b.1) + e == a.1 + (b.1 + e);
  }

  lemma ContentMoves(u: Setup, id: string, t: Told, n: nat, tally: Tally, text: string)
    requires Proper(t) && Fits(t, ContentPart(text))
    ensures Moves(u, id, t, n, tally, ContentHandled(StateFor(id, t, n, tally), text), Hear(t, ContentPart(text)))
  {
    hide StateFor, ClientFor, Leads, ReasoningClosed, TextArrives, ContentHandled;
    var s := StateFor(id, t, n, tally);
    var t1 := t.(phase := InContent);
    ContentIsTextAfterReasoning(s, text);
    if t.phase == InReasoning {
      ReasoningCloses(u, id, t, n, tally);
    } else {
      NoReasoningOpen(id, t, n, tally);
      Stays(u, id, t, n, tally);
    }
    var a := ReasoningClosed(s);
    TextMoves(u, id, t1, a.0.n, tally, text);
    MovesOn(u, id, t, n, tally, a, t1, TextArrives(a.0, text), Hear(t, ContentPart(text)));
  }

  lemma NoReasoningOpen(id: string, t: Told, n: nat, tally: Tally)
    requires t.phase != InReasoning
    ensures ReasoningClosed(StateFor(id, t, n, tally)) == (StateFor(id, t, n, tally), [])
  {
  }

  lemma NoTextOpen(id: string, t: Told, n: nat, tally: Tally)
    requires t.phase != InContent
    ensures TextClosed(StateFor(id, t, n, tally)) == (StateFor(id, t, n, tally), [])
  {
  }

  /** Before tool calls both blocks are closed. */
  lemma BlocksClose(u: Setup, id: string, t: Told, n: nat, tally: Tally)
    requires Proper(t) && t.phase != AtEnd
    ensures Moves(u, id, t, n, tally, BlocksClosed(StateFor(id, t, n, tally)), t.(phase := InTools))
  {
    hide StateFor, ClientFor, Leads, ReasoningClosed, TextClosed;
    var s := StateFor(id, t, n, tally);
    var a := ReasoningClosed(s);
    var t1 := if t.phase == InReasoning then t.(phase := InContent) else t;
    if t.phase == InReasoning {
      ReasoningCloses(u, id, t, n, tally);
    } else {
      NoReasoningOpen(id, t, n, tally);
      Stays(u, id, t, n, tally);
    }
    if t1.phase == InContent {
      TextCloses(u, id, t1, a.0.n, tally);
    } else {
      NoTextOpen(id, t1, a.0.n, tally);
      Stays(u, id, t1, a.0.n, tally);
    }
    MovesOn(u, id, t, n, tally, a, t1, TextClosed(a.0), t.(phase := InTools));
  }
}
