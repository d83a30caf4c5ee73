// Well-nested Claude streams: what a client makes of the converted events, and
// what the blocks of the stream say.
module ClaudeStreams {
  import opened Common
  import opened ClaudeToResponses
  import opened TextLines

  // ---------- A client reading events ----------

  datatype Reading = Reading(id: string, index: nat, kind: Kind, callID: string, name: string, text: string)

  datatype Client = Client(seen: nat, open: Option<Reading>, closed: seq<Item>, finished: Option<Event>)

  const NEW_CLIENT := Client(0, None, [], None)

  /** Empty messages and summaries are left out of the final output; tool calls are not. */
  function Visible(items: seq<Item>): seq<Item> {
    if items == [] then []
    else
      var last := items[|items| - 1];
      Visible(items[..|items| - 1]) + if last.kind == Tool || last.text != "" then [last] else []
  }

  /**
   * What a strict client accepts: sequence numbers count from 1, at most one
   * item is open, indexes count the items, every event names the open item, and
   * what is called done is what the deltas said.
   */
  predicate Accepts(c: Client, e: Event) {
    && e.n == c.seen + 1
    && c.finished == None
    && match e
       case Created(_, _) => c.seen == 0
       case InProgress(_, _) => c.seen == 1
       case ItemAdded(_, index, _, _, _, _) => c.open == None && index == |c.closed|
       case PartAdded(_, id, index) => Reads(c, id, index) && c.open.value.text == ""
       case Delta(_, id, index, _) => Reads(c, id, index)
       case TextDone(_, id, index, text) => Reads(c, id, index) && text == Said(c.open.value)
       case PartDone(_, id, index, text) => Reads(c, id, index) && text == Said(c.open.value)
       case ItemDone(_, index, item) => c.open.Some? && index == c.open.value.index && item == Finished(c.open.value)
       case Completed(_, _, output, input, out, total) => c.open == None && output == Visible(c.closed) && total == input + out
  }

  predicate Reads(c: Client, id: string, index: nat) {
    c.open.Some? && c.open.value.id == id && c.open.value.index == index
  }

  /** The deltas of an item put together; a tool call none of whose deltas says anything has an empty object. */
  function Said(r: Reading): string {
    if r.kind == Tool && Blank(r.text) then "{}" else r.text
  }

  function Finished(r: Reading): Item {
    Item(r.id, r.kind, Said(r), r.callID, r.name)
  }

  /** The converter's closing text is what a client has read. */
  lemma ShownIsSaid(r: Reading)
    ensures Shown(r.kind, r.text) == Said(r)
  {
    hide TrimSpace, Blank;
    BlankTrims(r.text);
  }

  function Observed(c: Client, e: Event): Client
    requires Accepts(c, e)
  {
    var d := c.(seen := c.seen + 1);
    match e
    case ItemAdded(_, index, id, kind, callID, name) => d.(open := Some(Reading(id, index, kind, callID, name, "")))
    case Delta(_, _, _, text) => d.(open := Some(c.open.value.(text := c.open.value.text + text)))
    case ItemDone(_, _, item) => d.(open := None, closed := c.closed + [item])
    case Completed(_, _, _, _, _, _) => d.(finished := Some(e))
    case _ => d
  }

  predicate AcceptsAll(c: Client, events: seq<Event>)
    decreases events
  {
    events != [] ==> Accepts(c, events[0]) && AcceptsAll(Observed(c, events[0]), events[1..])
  }

  function ObservedAll(c: Client, events: seq<Event>): Client
    requires AcceptsAll(c, events)
    decreases events
  {
    if events == [] then c else ObservedAll(Observed(c, events[0]), events[1..])
  }

  lemma {:induction false} AcceptsMore(c: Client, a: seq<Event>, b: seq<Event>)
    requires AcceptsAll(c, a) && AcceptsAll(ObservedAll(c, a), b)
    ensures AcceptsAll(c, a + b) && ObservedAll(c, a + b) == ObservedAll(ObservedAll(c, a), b)
    decreases a
  {
    hide Accepts, Observed;
    if a == [] {
      assert a + b == b;
    } else {
      AcceptsMore(Observed(c, a[0]), a[1..], b);
      assert (a + b)[1..] == a[1..] + b;
    }
  }

  // ---------- Converter and client in step ----------

  /** The client has seen every event so far and reads the item that is open. */
  predicate InStep(s: State, c: Client) {
    && c.seen == s.n && c.finished == None
    && s.completed == Visible(c.closed)
    && match s.active
       case None => c.open == None && s.nextOutputIndex == |c.closed|
       case Some(kind) => c.open == Some(ReadingOf(s, kind)) && s.nextOutputIndex == |c.closed| + 1
  }

  function ReadingOf(s: State, kind: Kind): Reading {
    var open := Slot(s, kind);
    if kind == Tool then Reading(open.id, open.index, kind, s.callID, s.name, open.buffer)
    else Reading(open.id, open.index, kind, "", "", open.buffer)
  }

  /** The client accepts the events and is in step again. */
  ghost predicate Follows(c: Client, r: (State, seq<Event>)) {
    AcceptsAll(c, r.1) && InStep(r.0, ObservedAll(c, r.1))
  }

  lemma One(c: Client, e: Event)
    requires Accepts(c, e)
    ensures AcceptsAll(c, [e]) && ObservedAll(c, [e]) == Observed(c, e)
  {
    assert AcceptsAll(Observed(c, e), [e][1..]);
  }

  lemma Two(c: Client, e: Event, f: Event)
    requires Accepts(c, e) && Accepts(Observed(c, e), f)
    ensures AcceptsAll(c, [e, f]) && ObservedAll(c, [e, f]) == Observed(Observed(c, e), f)
  {
    hide Accepts, Observed;
    assert [e, f][1..] == [f];
    One(Observed(c, e), f);
  }

  lemma StartFollows(s: State, c: Client, kind: Kind, callID: string, name: string)
    requires InStep(s, c) && s.active == None
    ensures var id := ItemID(kind, s.responseID, s.nextOutputIndex, callID);
      kind == Tool || (callID == "" && name == "") ==>
        Follows(c, Started(s, kind, callID, name))
        && ObservedAll(c, Started(s, kind, callID, name).1).closed == c.closed
        && ObservedAll(c, Started(s, kind, callID, name).1).open == Some(Reading(id, |c.closed|, kind, callID, name, ""))
  {
    hide Visible, ItemID, AcceptsAll, ObservedAll;
    var events := Started(s, kind, callID, name).1;
    if kind == Tool {
      One(c, events[0]);
    } else {
      Two(c, events[0], events[1]);
    }
  }

  lemma AppendFollows(s: State, c: Client, kind: Kind, text: string)
    requires InStep(s, c) && s.active == Some(kind)
    ensures Follows(c, Appended(s, kind, text))
    ensures ObservedAll(c, Appended(s, kind, text).1).closed == c.closed
    ensures ObservedAll(c, Appended(s, kind, text).1).open == Some(c.open.value.(text := c.open.value.text + text))
  {
    hide Visible, AcceptsAll, ObservedAll;
    One(c, Appended(s, kind, text).1[0]);
  }

  lemma VisibleSnoc(items: seq<Item>, item: Item)
    ensures Visible(items + [item]) == Visible(items) + if item.kind == Tool || item.text != "" then [item] else []
  {
    assert (items + [item])[..|items|] == items;
  }

  lemma CloseFollows(s: State, c: Client, kind: Kind)
    requires InStep(s, c) && s.active == Some(kind)
    ensures Follows(c, Closed(s, kind))
    ensures ObservedAll(c, Closed(s, kind).1).closed == c.closed + [Finished(c.open.value)]
    ensures ObservedAll(c, Closed(s, kind).1).open == None
  {
    hide Visible, Shown, Said, AcceptsAll, ObservedAll;
    var events := Closed(s, kind).1;
    var item := Finished(c.open.value);
    ShownIsSaid(c.open.value);
    VisibleSnoc(c.closed, item);
    assert Visible(c.closed) + [] == Visible(c.closed);
    assert kind != Tool ==> Shown(kind, Slot(s, kind).buffer) == Slot(s, kind).buffer by { ShownPlain(kind, Slot(s, kind).buffer); }
    if kind == Tool {
      Two(c, events[0], events[1]);
    } else {
      Two(c, events[0], events[1]);
      var d := Observed(Observed(c, events[0]), events[1]);
      One(d, events[2]);
      AcceptsMore(c, [events[0], events[1]], [events[2]]);
      assert events == [events[0], events[1]] + [events[2]];
    }
  }

  lemma ShownPlain(kind: Kind, text: string)
    ensures kind != Tool ==> Shown(kind, text) == text
  {
  }

  // ---------- Well-nested streams and what they say ----------

  datatype Phase = Fresh | Between | Inside(kind: Kind) | InsideOther | Over

  /** Blocks start, get deltas of their own kind, and stop; the message id comes before any block. */
  predicate Fits(phase: Phase, c: Chunk) {
    match phase
    case Fresh => !IsDelta(c) && !c.BlockStop?
    case Between => !IsDelta(c) && !c.BlockStop? && !c.MessageStart?
    case Inside(kind) =>
      || (c.ThinkingDelta? && kind == Reasoning) || (c.TextDelta? && kind == Text) || (c.InputJSONDelta? && kind == Tool)
      || c.OtherDelta? || c.OtherChunk? || c.MessageDelta? || c.BlockStop?
    case InsideOther => c.OtherDelta? || c.InputJSONDelta? || c.OtherChunk? || c.MessageDelta? || c.BlockStop?
    case Over => false
  }

  predicate IsDelta(c: Chunk) {
    c.ThinkingDelta? || c.TextDelta? || c.InputJSONDelta? || c.OtherDelta?
  }

  function NextPhase(phase: Phase, c: Chunk): Phase {
    match c
    case StartThinking(_) => Inside(Reasoning)
    case StartText(_) => Inside(Text)
    case StartToolUse(_, _) => Inside(Tool)
    case StartOther => InsideOther
    case BlockStop => Between
    case MessageStop => Over
    case _ => phase
  }

  predicate Nested(phase: Phase, chunks: seq<Chunk>)
    decreases chunks
  {
    chunks != [] ==> Fits(phase, chunks[0]) && Nested(NextPhase(phase, chunks[0]), chunks[1..])
  }

  function PhaseAfter(phase: Phase, chunks: seq<Chunk>): Phase
    decreases chunks
  {
    if chunks == [] then phase else PhaseAfter(NextPhase(phase, chunks[0]), chunks[1..])
  }

  datatype Block = Block(kind: Kind, text: string, callID: string, name: string)

  /** A message as its blocks tell it. */
  datatype Meaning = Meaning(id: string, blocks: seq<Block>, current: Option<Block>, inputTokens: int, outputTokens: int)

  const UNHEARD := Meaning("", [], None, 0, 0)

  /** The block at hand, longer by a delta. */
  function More(m: Meaning, text: string): Meaning {
    if m.current.None? then m else m.(current := Some(m.current.value.(text := m.current.value.text + text)))
  }

  function Whole(m: Meaning): Meaning {
    if m.current.None? then m else m.(blocks := m.blocks + [m.current.value], current := None)
  }

  /** The count reported now, or else the one reported before. */
  function Latest(reported: Option<int>, before: int): int {
    match reported
    case Some(count) => count
    case None => before
  }

  function Heard(m: Meaning, c: Chunk): Meaning {
    match c
    case MessageStart(id, input) => m.(id := if id != "" then id else m.id, inputTokens := Latest(input, m.inputTokens))
    case StartThinking(text) => m.(current := Some(Block(Reasoning, text, "", "")))
    case StartText(text) => m.(current := Some(Block(Text, text, "", "")))
    case StartToolUse(callID, name) => m.(current := Some(Block(Tool, "", callID, name)))
    case ThinkingDelta(text) => More(m, text)
    case TextDelta(text) => More(m, text)
    case InputJSONDelta(text) => More(m, text)
    case BlockStop => Whole(m)
    case MessageDelta(input, output) =>
      m.(inputTokens := Latest(input, m.inputTokens), outputTokens := Latest(output, m.outputTokens))
    case _ => m
  }

  function HeardAll(m: Meaning, chunks: seq<Chunk>): Meaning
    decreases chunks
  {
    if chunks == [] then m else HeardAll(Heard(m, chunks[0]), chunks[1..])
  }

  /** The response id: from the first chunk, or the generated one. */
  function FirstID(c: Chunk, fallback: string): string {
    if c.MessageStart? && c.id != "" then c.id else fallback
  }

  function Understood(chunks: seq<Chunk>, fallback: string): Meaning {
    if chunks == [] then UNHEARD else HeardAll(UNHEARD.(id := FirstID(chunks[0], fallback)), chunks)
  }

  function ItemOf(id: string, b: Block, index: nat): Item {
    Finished(Reading(ItemID(b.kind, id, index, b.callID), index, b.kind, b.callID, b.name, b.text))
  }

  /** The output items of a message: its blocks, in order. */
  function Items(id: string, blocks: seq<Block>): (r: seq<Item>)
    ensures |r| == |blocks|
    ensures forall i :: 0 <= i < |blocks| ==> r[i] == ItemOf(id, blocks[i], i)
  {
    seq(|blocks|, i requires 0 <= i < |blocks| => ItemOf(id, blocks[i], i))
  }

  // ---------- Item ids ----------

  /** A decimal numeral without leading zeros. */
  predicate Numeral(s: string) {
    && s != ""
    && (forall i :: 0 <= i < |s| ==> '0' <= s[i] <= '9')
    && (|s| > 1 ==> s[0] != '0')
  }

  function NumberOf(s: string): int {
    if s == "" then 0 else 10 * NumberOf(s[..|s| - 1]) + (s[|s| - 1] as int - '0' as int)
  }

  lemma {:induction false} DigitsMean(n: nat)
    ensures Numeral(Digits(n)) && NumberOf(Digits(n)) == n
  {
    var d := "0123456789"[n % 10];
    assert d as int == '0' as int + n % 10;
    if n < 10 {
      assert Digits(n) == [d];
      assert [d][..0] == "";
    } else {
      DigitsMean(n / 10);
      assert Digits(n)[..|Digits(n)| - 1] == Digits(n / 10);
      assert n / 10 > 0;
      NoLeadingZero(Digits(n / 10));
    }
  }

  lemma NoLeadingZero(s: string)
    requires Numeral(s) && NumberOf(s) > 0
    ensures s[0] != '0'
  {
    if |s| == 1 {
      assert s[..0] == "";
    }
  }

  /** An item is named after its kind, the response and its index; a tool call that has a call id, after that. */
  lemma ItemIDMeans(kind: Kind, responseID: string, index: nat, callID: string) returns (numeral: string)
    ensures Numeral(numeral) && NumberOf(numeral) == index
    ensures kind == Reasoning ==> ItemID(kind, responseID, index, callID) == "rs_" + responseID + "_" + numeral
    ensures kind == Text ==> ItemID(kind, responseID, index, callID) == "msg_" + responseID + "_" + numeral
    ensures kind == Tool && callID == "" ==> ItemID(kind, responseID, index, callID) == "fc_" + responseID + "_" + numeral
    ensures kind == Tool && callID != "" ==> ItemID(kind, responseID, index, callID) == "fc_" + callID
  {
    hide Digits, Numeral, NumberOf;
    numeral := Digits(index);
    DigitsMean(index);
  }

  /** Within a response no two messages or summaries share an id. */
  lemma IDsDiffer(responseID: string, kind: Kind, index: nat, kind': Kind, index': nat)
    requires kind != Tool && kind' != Tool && (kind, index) != (kind', index')
    ensures ItemID(kind, responseID, index, "") != ItemID(kind', responseID, index', "")
  {
    hide Digits, Numeral, NumberOf;
    DigitsMean(index);
    DigitsMean(index');
    var a, b := ItemID(kind, responseID, index, ""), ItemID(kind', responseID, index', "");
    if kind != kind' {
      assert a[0] != b[0];
    } else {
      var prefix := (if kind == Text then "msg_" else "rs_") + responseID + "_";
      assert a == prefix + Digits(index) && b == prefix + Digits(index');
      assert a[|prefix|..] == Digits(index);
      assert b[|prefix|..] == Digits(index');
    }
  }

  // ---------- The converter tells what the stream says ----------

  predicate CurrentAgrees(s: State, c: Client, m: Meaning, phase: Phase) {
    if phase.Inside? then
      && s.active == Some(phase.kind)
      && m.current.Some?
      && var b := m.current.value;
         && b.kind == phase.kind
         && (b.kind == Tool || (b.callID == "" && b.name == ""))
         && c.open == Some(Reading(ItemID(b.kind, m.id, |m.blocks|, b.callID), |m.blocks|, b.kind, b.callID, b.name, b.text))
    else s.active == None && m.current == None
  }

  predicate Agree(s: State, c: Client, m: Meaning, phase: Phase) {
    && InStep(s, c)
    && !s.firstChunk
    && s.responseID == m.id
    && c.closed == Items(m.id, m.blocks)
    && s.inputTokens == m.inputTokens && s.outputTokens == m.outputTokens
    && (phase == Fresh ==> m.blocks == [])
    && CurrentAgrees(s, c, m, phase)
  }

  /** What one chunk of a nested stream keeps. */
  ghost predicate Tells(s: State, c: Client, m: Meaning, phase: Phase, r: (State, seq<Event>)) {
    && AcceptsAll(c, r.1)
    && Agree(r.0, ObservedAll(c, r.1), m, phase)
  }

  lemma StartTells(s: State, c: Client, m: Meaning, phase: Phase, kind: Kind, callID: string, name: string)
    requires Agree(s, c, m, phase) && (phase == Fresh || phase == Between)
    requires kind == Tool || (callID == "" && name == "")
    ensures Tells(s, c, m.(current := Some(Block(kind, "", callID, name))), Inside(kind), Started(s, kind, callID, name))
  {
    hide Visible, ItemID, AcceptsAll, ObservedAll, Items;
    StartFollows(s, c, kind, callID, name);
  }

  lemma AppendTells(s: State, c: Client, m: Meaning, kind: Kind, text: string)
    requires Agree(s, c, m, Inside(kind))
    ensures Tells(s, c, More(m, text), Inside(kind), Appended(s, kind, text))
  {
    hide Visible, ItemID, AcceptsAll, ObservedAll, Items;
    AppendFollows(s, c, kind, text);
  }

  lemma ItemsSnoc(id: string, blocks: seq<Block>, b: Block)
    ensures Items(id, blocks + [b]) == Items(id, blocks) + [ItemOf(id, b, |blocks|)]
  {
  }

  lemma CloseTells(s: State, c: Client, m: Meaning, kind: Kind)
    requires Agree(s, c, m, Inside(kind))
    ensures Tells(s, c, Whole(m), Between, Closed(s, kind))
  {
    hide Visible, ItemID, AcceptsAll, ObservedAll, Items, Said;
    CloseFollows(s, c, kind);
    ItemsSnoc(m.id, m.blocks, m.current.value);
  }

  lemma TellsThen(s: State, c: Client, m: Meaning, phase: Phase, m': Meaning, phase': Phase,
                  a: (State, seq<Event>), b: (State, seq<Event>))
    requires Tells(s, c, m, phase, a) && Tells(a.0, ObservedAll(c, a.1), m', phase', b)
    ensures Tells(s, c, m', phase', Then(a, b))
  {
    hide Agree, AcceptsAll, ObservedAll;
    AcceptsMore(c, a.1, b.1);
  }

  lemma NothingTells(s: State, c: Client, m: Meaning, phase: Phase)
    requires Agree(s, c, m, phase)
    ensures Tells(s, c, m, phase, (s, []))
  {
    hide Agree;
  }

  lemma StartWithTells(s: State, c: Client, m: Meaning, phase: Phase, kind: Kind, text: string)
    requires Agree(s, c, m, phase) && (phase == Fresh || phase == Between) && kind != Tool
    ensures Tells(s, c, m.(current := Some(Block(kind, text, "", ""))), Inside(kind), StartedWith(s, kind, text))
  {
    hide Agree, Started, Appended, AcceptsAll, ObservedAll;
    var empty := m.(current := Some(Block(kind, "", "", "")));
    StartTells(s, c, m, phase, kind, "", "");
    var a := Started(s, kind, "", "");
    if text != "" {
      AppendTells(a.0, ObservedAll(c, a.1), empty, kind, text);
      assert "" + text == text;
      TellsThen(s, c, empty, Inside(kind), More(empty, text), Inside(kind), a, Appended(a.0, kind, text));
    }
  }

  lemma DeltaTells(s: State, c: Client, m: Meaning, kind: Kind, text: string)
    requires Agree(s, c, m, Inside(kind))
    ensures Tells(s, c, More(m, text), Inside(kind), AppendedTo(s, kind, text))
  {
    hide Appended, AcceptsAll, ObservedAll, InStep, Items;
    if text == "" {
      assert m.current.value.text + "" == m.current.value.text;
      NothingTells(s, c, m, Inside(kind));
      assert More(m, text) == m;
      assert AppendedTo(s, kind, text) == (s, []);
    } else {
      AppendTells(s, c, m, kind, text);
    }
  }

  /** One chunk, not the last, once the response is opened. */
  lemma HandledTells(s: State, c: Client, m: Meaning, phase: Phase, chunk: Chunk)
    requires Agree(s, c, m, phase) && Fits(phase, chunk) && !chunk.MessageStop?
    ensures Tells(s, c, Heard(m, chunk), NextPhase(phase, chunk), Handled(s, chunk))
  {
    hide StartedWith, AppendedTo, Started, Closed, AcceptsAll, ObservedAll;
    match chunk {
      case StartThinking(text) => StartWithTells(s, c, m, phase, Reasoning, text);
      case StartText(text) => StartWithTells(s, c, m, phase, Text, text);
      case StartToolUse(callID, name) => StartTells(s, c, m, phase, Tool, callID, name);
      case ThinkingDelta(text) => DeltaTells(s, c, m, Reasoning, text);
      case TextDelta(text) => DeltaTells(s, c, m, Text, text);
      case InputJSONDelta(text) =>
        if phase.Inside? {
          DeltaTells(s, c, m, Tool, text);
        } else {
          IgnoredDelta(s, c, m, phase, text);
        }
      case BlockStop =>
        if phase.Inside? {
          CloseTells(s, c, m, phase.kind);
        } else {
          QuietTells(s, c, m, phase, chunk);
        }
      case _ => QuietTells(s, c, m, phase, chunk);
    }
  }

  lemma IgnoredDelta(s: State, c: Client, m: Meaning, phase: Phase, text: string)
    requires Agree(s, c, m, phase) && phase == InsideOther
    ensures Tells(s, c, Heard(m, InputJSONDelta(text)), phase, Handled(s, InputJSONDelta(text)))
  {
    hide InStep, Items;
    NothingTells(s, c, m, phase);
  }

  /** Chunks that emit nothing. */
  lemma QuietTells(s: State, c: Client, m: Meaning, phase: Phase, chunk: Chunk)
    requires Agree(s, c, m, phase) && Fits(phase, chunk)
    requires chunk.MessageStart? || chunk.StartOther? || chunk.OtherDelta? || chunk.OtherChunk? || chunk.MessageDelta?
      || (chunk.BlockStop? && !phase.Inside?)
    ensures Tells(s, c, Heard(m, chunk), NextPhase(phase, chunk), Handled(s, chunk))
  {
    hide Visible, ItemID;
    assert Handled(s, chunk).1 == [];
    if chunk.MessageStart? {
      assert Items(Heard(m, chunk).id, []) == Items(m.id, []);
    }
  }

  // ---------- Opening and ending ----------

  lemma OpeningTells(chunk: Chunk, fallback: string)
    ensures Tells(INITIAL, NEW_CLIENT, UNHEARD.(id := FirstID(chunk, fallback)), Fresh, Opened(INITIAL, chunk, fallback))
  {
    var events := Opened(INITIAL, chunk, fallback).1;
    Two(NEW_CLIENT, events[0], events[1]);
    assert Items(FirstID(chunk, fallback), []) == [];
  }

  /** The final event of a message: its visible items, in order, and its token counts. */
  function Summary(n: nat, m: Meaning): Event {
    Completed(n, m.id, Visible(Items(m.id, m.blocks)), m.inputTokens, m.outputTokens, m.inputTokens + m.outputTokens)
  }

  ghost predicate Concludes(c: Client, m: Meaning, r: (State, seq<Event>)) {
    AcceptsAll(c, r.1) && ObservedAll(c, r.1).finished == Some(Summary(r.0.n, m))
  }

  lemma EndConcludes(s: State, c: Client, m: Meaning, phase: Phase)
    requires Agree(s, c, m, phase) && !phase.Inside?
    ensures Concludes(c, m, Ended(s))
  {
    hide Visible, AcceptsAll, ObservedAll, Items;
    One(c, Ended(s).1[0]);
  }

  lemma Silence(c: Client)
    ensures AcceptsAll(c, []) && ObservedAll(c, []) == c
  {
  }

  lemma StopConcludes(s: State, c: Client, m: Meaning, phase: Phase)
    requires Agree(s, c, m, phase) && Fits(phase, MessageStop)
    ensures Concludes(c, m, Handled(s, MessageStop))
  {
    hide InStep, Items, AcceptsAll, ObservedAll, Ended;
    var a := ClosedActive(s);
    assert a == (s, []);
    Silence(c);
    EndConcludes(s, c, m, phase);
    assert Handled(s, MessageStop).1 == [] + Ended(s).1 == Ended(s).1;
  }

  // ---------- Whole streams ----------

  /** The converter run over a stream: the final state and all events. */
  function Converted(s: State, chunks: seq<Chunk>, fallback: string): (State, seq<Event>)
    decreases chunks
  {
    if chunks == [] then (s, [])
    else
      var a := Step(s, chunks[0], fallback);
      Then(a, Converted(a.0, chunks[1..], fallback))
  }

  /** From the second chunk on. */
  lemma {:induction false} RestConverts(s: State, c: Client, m: Meaning, phase: Phase, chunks: seq<Chunk>, fallback: string)
    requires Agree(s, c, m, phase) && Nested(phase, chunks)
    ensures AcceptsAll(c, Converted(s, chunks, fallback).1)
    ensures PhaseAfter(phase, chunks) == Over && phase != Over ==>
      Concludes(c, HeardAll(m, chunks), Converted(s, chunks, fallback))
    decreases chunks
  {
    hide Agree, Fits, Handled, Heard, AcceptsAll, ObservedAll, Concludes;
    if chunks == [] {
      NothingTells(s, c, m, phase);
    } else {
      NotFirst(s, c, m, phase);
      StepConverts(s, c, m, phase, chunks, fallback);
    }
  }

  lemma NotFirst(s: State, c: Client, m: Meaning, phase: Phase)
    requires Agree(s, c, m, phase)
    ensures !s.firstChunk
  {
  }

  lemma {:induction false} StepConverts(s: State, c: Client, m: Meaning, phase: Phase, chunks: seq<Chunk>, fallback: string)
    requires Agree(s, c, m, phase) && Nested(phase, chunks) && chunks != [] && !s.firstChunk
    ensures AcceptsAll(c, Converted(s, chunks, fallback).1)
    ensures PhaseAfter(phase, chunks) == Over && phase != Over ==>
      Concludes(c, HeardAll(m, chunks), Converted(s, chunks, fallback))
    decreases chunks, 0
  {
    hide Agree, Handled, Heard, AcceptsAll, ObservedAll;
    var chunk, rest := chunks[0], chunks[1..];
    var a := Handled(s, chunk);
    assert Step(s, chunk, fallback) == a;
    if chunk.MessageStop? {
      StopConcludes(s, c, m, phase);
      assert Nested(Over, rest);
      assert rest == [];
      assert Converted(a.0, rest, fallback) == (a.0, []);
      assert a.1 + [] == a.1;
      assert Heard(m, chunk) == m by { HeardStop(m); }
      assert HeardAll(m, chunks) == HeardAll(m, rest) == m;
    } else {
      HandledTells(s, c, m, phase, chunk);
      var d := ObservedAll(c, a.1);
      RestConverts(a.0, d, Heard(m, chunk), NextPhase(phase, chunk), rest, fallback);
      AcceptsMore(c, a.1, Converted(a.0, rest, fallback).1);
      assert NextPhase(phase, chunk) != Over by { NotOver(phase, chunk); }
    }
  }

  lemma HeardStop(m: Meaning)
    ensures Heard(m, MessageStop) == m
  {
  }

  lemma NotOver(phase: Phase, chunk: Chunk)
    requires Fits(phase, chunk) && !chunk.MessageStop?
    ensures NextPhase(phase, chunk) != Over
  {
  }

  /**
   * Every well-nested stream converts to events a strict client accepts, and a
   * complete one ends with the visible items its blocks spell out, in order,
   * and the token counts it reported last.
   */
  lemma NestedStreamsConvert(chunks: seq<Chunk>, fallback: string)
    requires Nested(Fresh, chunks) && chunks != []
    ensures AcceptsAll(NEW_CLIENT, Converted(INITIAL, chunks, fallback).1)
    ensures PhaseAfter(Fresh, chunks) == Over ==>
      Concludes(NEW_CLIENT, Understood(chunks, fallback), Converted(INITIAL, chunks, fallback))
  {
    hide Agree, Handled, Heard, AcceptsAll, ObservedAll, Nested, PhaseAfter, HeardAll;
    var opening := Opened(INITIAL, chunks[0], fallback);
    OpeningTells(chunks[0], fallback);
    var c := ObservedAll(NEW_CLIENT, opening.1);
    RestConverts(opening.0, c, UNHEARD.(id := FirstID(chunks[0], fallback)), Fresh, chunks, fallback);
    AcceptsMore(NEW_CLIENT, opening.1, Converted(opening.0, chunks, fallback).1);
    OpensThenRuns(chunks, fallback);
  }

  /** Opening the response first and then handling the first chunk is the same as its step. */
  lemma OpensThenRuns(chunks: seq<Chunk>, fallback: string)
    requires chunks != []
    ensures var opening := Opened(INITIAL, chunks[0], fallback);
      Converted(INITIAL, chunks, fallback) == Then(opening, Converted(opening.0, chunks, fallback))
  {
    hide Handled;
    var opening := Opened(INITIAL, chunks[0], fallback);
    var a := Handled(opening.0, chunks[0]);
    var rest := Converted(a.0, chunks[1..], fallback);
    assert (opening.1 + a.1) + rest.1 == opening.1 + (a.1 + rest.1);
  }
}
