// Streaming conversion of chat completion chunks to Responses events.
module ChatToResponses {
  import opened Common
  import opened ChatUsage
  import opened ToolIndexes

  // ---------- Chunks ----------

  datatype Function = Function(name: string, arguments: string)

  /** One entry of delta.tool_calls; "" and None stand for absent fields. */
  datatype Fragment = Fragment(index: int, id: string, function_: Option<Function>)

  datatype Choice =
    | NoDelta
    | Choice(reasoning: string, content: string, tools: seq<Fragment>, finished: bool)

  datatype Chunk = Chunk(id: Option<string>, choices: Option<seq<Choice>>, usage: Option<Usage>)

  /**
   * The Codex tool context of the request: which functions stand for custom
   * tools, what all of them are called towards the client, and how the input
   * of a custom tool is rebuilt. Without compatibility it has no custom tools.
   */
  datatype Setup = Setup(
    compat: bool,
    proxies: set<string>,
    original: string -> string,
    display: string -> string,
    namespace: string -> string,
    rebuild: (string, string) -> string)

  predicate ValidSetup(u: Setup) {
    (u.compat || u.proxies == {}) && "" !in u.proxies
  }

  // ---------- Items and events ----------

  datatype Item =
    | ReasoningItem(id: string, text: string)
    | MessageItem(id: string, text: string)
    | FunctionCall(id: string, callID: string, name: string, namespace: string, arguments: string)
    | CustomCall(id: string, callID: string, name: string, input: string)

  datatype Kind = Reasoning | Text | FunctionKind | CustomKind

  datatype Event =
    | Created(n: nat, id: string)
    | InProgress(n: nat, id: string)
    | ItemAdded(n: nat, index: int, kind: Kind, id: string, callID: string, name: string, namespace: string)
    | PartAdded(n: nat, id: string, index: int)
    | Delta(n: nat, id: string, index: int, text: string)
    | InputDelta(n: nat, id: string, callID: string, index: int, text: string)
    | TextDone(n: nat, id: string, index: int, text: string)
    | PartDone(n: nat, id: string, index: int, text: string)
    | ItemDone(n: nat, index: int, item: Item)
    | Completed(n: nat, id: string, output: seq<Item>, usage: Report)

  // ---------- State ----------

  datatype State = State(
    n: nat,
    responseID: string,
    firstChunk: bool,
    msgID: string,
    inText: bool,
    inFunc: bool,
    arguments: map<int, string>,
    names: map<int, string>,
    callIDs: map<int, string>,
    added: set<int>,
    text: string,
    reasoningActive: bool,
    reasoningID: string,
    reasoning: string,
    partAdded: bool,
    tally: Tally)

  const INITIAL :=
    State(0, "", true, "", false, false, map[], map[], map[], {}, "", false, "", "", false, NO_TALLY)

  function Get(m: map<int, string>, idx: int): string {
    if idx in m then m[idx] else ""
  }

  function ReasoningID(responseID: string): string {
    "rs_" + responseID + "_0"
  }

  function MessageID(responseID: string, afterReasoning: bool): string {
    "msg_" + responseID + (if afterReasoning then "_1" else "_0")
  }

  function FunctionID(callID: string): string {
    "fc_" + callID
  }

  function CustomID(callID: string): string {
    "ctc_" + callID
  }

  function TextIndex(s: State): int {
    if s.partAdded then 1 else 0
  }

  function OutputIndex(s: State, idx: int): int {
    idx + (if s.partAdded then 1 else 0) + (if s.msgID != "" then 1 else 0)
  }

  predicate IsProxy(u: Setup, name: string) {
    name != "" && name in u.proxies
  }

  function ArgumentsOf(text: string): string {
    if text == "" then "{}" else text
  }

  /** The finished item of a tool call. */
  function ToolItem(u: Setup, callID: string, name: string, arguments: string): Item {
    if IsProxy(u, name) then CustomCall(CustomID(callID), callID, u.original(name), u.rebuild(name, ArgumentsOf(arguments)))
    else FunctionCall(FunctionID(callID), callID, u.display(name), u.namespace(name), ArgumentsOf(arguments))
  }

  // ---------- What the parts of a chunk do ----------

  /** One after the other. */
  function Then(a: (State, seq<Event>), b: (State, seq<Event>)): (State, seq<Event>) {
    (b.0, a.1 + b.1)
  }

  function ReasoningClosed(s: State): (State, seq<Event>) {
    if !s.reasoningActive then (s, [])
    else
      (s.(n := s.n + 3, reasoningActive := false),
       [TextDone(s.n + 1, s.reasoningID, 0, s.reasoning), PartDone(s.n + 2, s.reasoningID, 0, s.reasoning),
        ItemDone(s.n + 3, 0, ReasoningItem(s.reasoningID, s.reasoning))])
  }

  function TextClosed(s: State): (State, seq<Event>) {
    if !s.inText then (s, [])
    else
      (s.(n := s.n + 3, inText := false),
       [TextDone(s.n + 1, s.msgID, TextIndex(s), s.text), PartDone(s.n + 2, s.msgID, TextIndex(s), s.text),
        ItemDone(s.n + 3, TextIndex(s), MessageItem(s.msgID, s.text))])
  }

  function BlocksClosed(s: State): (State, seq<Event>) {
    var a := ReasoningClosed(s);
    Then(a, TextClosed(a.0))
  }

  /** The two closing events of a tool call. */
  function ToolDone(s: State, u: Setup, idx: int, n: nat): seq<Event> {
    var callID, name, arguments := Get(s.callIDs, idx), Get(s.names, idx), Get(s.arguments, idx);
    var item := ToolItem(u, callID, name, arguments);
    if IsProxy(u, name)
    then [InputDelta(n + 1, CustomID(callID), callID, OutputIndex(s, idx), item.input), ItemDone(n + 2, OutputIndex(s, idx), item)]
    else [TextDone(n + 1, FunctionID(callID), OutputIndex(s, idx), item.arguments), ItemDone(n + 2, OutputIndex(s, idx), item)]
  }

  function ToolsDone(s: State, u: Setup, idxs: seq<int>): seq<Event> {
    if idxs == [] then []
    else ToolsDone(s, u, idxs[..|idxs| - 1]) + ToolDone(s, u, idxs[|idxs| - 1], s.n + 2 * (|idxs| - 1))
  }

  ghost function ToolsClosed(s: State, u: Setup): (State, seq<Event>) {
    if !s.inFunc || s.arguments == map[] then (s, [])
    else
      var idxs := Sorted(s.arguments.Keys);
      (s.(n := s.n + 2 * |idxs|, inFunc := false), ToolsDone(s, u, idxs))
  }

  ghost function AllClosed(s: State, u: Setup): (State, seq<Event>) {
    var a := BlocksClosed(s);
    Then(a, ToolsClosed(a.0, u))
  }

  function ReasoningOpened(s: State): (State, seq<Event>) {
    if s.reasoningActive then (s, [])
    else
      var id := ReasoningID(s.responseID);
      (s.(n := s.n + 2, reasoningActive := true, reasoning := "", reasoningID := id, partAdded := true),
       [ItemAdded(s.n + 1, 0, Reasoning, id, "", "", ""), PartAdded(s.n + 2, id, 0)])
  }

  /** Reasoning that is opened again starts with an empty summary. */
  lemma ReopenedReasoningIsNew(s: State, text: string)
    requires !s.reasoningActive
    ensures ReasoningHandled(s, text).0.reasoning == text
  {
    assert "" + text == text;
  }

  function ReasoningHandled(s: State, text: string): (State, seq<Event>) {
    var a := ReasoningOpened(s);
    Then(a, (a.0.(n := a.0.n + 1, reasoning := a.0.reasoning + text), [Delta(a.0.n + 1, a.0.reasoningID, 0, text)]))
  }

  function TextOpened(s: State): (State, seq<Event>) {
    if s.inText then (s, [])
    else
      var id := MessageID(s.responseID, s.partAdded);
      (s.(n := s.n + 2, inText := true, msgID := id),
       [ItemAdded(s.n + 1, TextIndex(s), Text, id, "", "", ""), PartAdded(s.n + 2, id, TextIndex(s))])
  }

  function ContentHandled(s: State, text: string): (State, seq<Event>) {
    var a := ReasoningClosed(s);
    var b := Then(a, TextOpened(a.0));
    Then(b, (b.0.(n := b.0.n + 1, text := b.0.text + text), [Delta(b.0.n + 1, b.0.msgID, TextIndex(b.0), text)]))
  }

  /** The id of a tool call arrives; without compatibility its item is announced at once. */
  function ToolNamed(s: State, u: Setup, idx: int, id: string): (State, seq<Event>) {
    var t := s.(arguments := s.arguments[idx := Get(s.arguments, idx)]);
    if id == "" then (t, [])
    else
      var k := t.(callIDs := t.callIDs[idx := id], inFunc := true);
      if u.compat then (k, [])
      else
        (k.(n := k.n + 1, added := k.added + {idx}),
         [ItemAdded(k.n + 1, OutputIndex(k, idx), FunctionKind, FunctionID(id), id, "", "")])
  }

  /** addToolCallItemIfNeeded */
  function ToolAdded(s: State, u: Setup, idx: int): (State, seq<Event>) {
    var callID, name := Get(s.callIDs, idx), Get(s.names, idx);
    if idx in s.added || callID == "" || name == "" then (s, [])
    else
      (s.(n := s.n + 1, added := s.added + {idx}),
       if IsProxy(u, name)
       then [ItemAdded(s.n + 1, OutputIndex(s, idx), CustomKind, CustomID(callID), callID, u.original(name), "")]
       else [ItemAdded(s.n + 1, OutputIndex(s, idx), FunctionKind, FunctionID(callID), callID, u.display(name), u.namespace(name))])
  }

  function ArgumentsHandled(s: State, u: Setup, idx: int, arguments: string): (State, seq<Event>) {
    if arguments == "" then (s, [])
    else
      var t := s.(arguments := s.arguments[idx := Get(s.arguments, idx) + arguments]);
      var a := ToolAdded(t, u, idx);
      if IsProxy(u, Get(a.0.names, idx)) then a
      else
        Then(a, (a.0.(n := a.0.n + 1), [Delta(a.0.n + 1, FunctionID(Get(a.0.callIDs, idx)), OutputIndex(a.0, idx), arguments)]))
  }

  function FunctionHandled(s: State, u: Setup, idx: int, function_: Function): (State, seq<Event>) {
    var t := if function_.name != "" then s.(names := s.names[idx := function_.name]) else s;
    var a := ToolAdded(t, u, idx);
    Then(a, ArgumentsHandled(a.0, u, idx, function_.arguments))
  }

  function ToolHandled(s: State, u: Setup, f: Fragment): (State, seq<Event>) {
    var a := BlocksClosed(s);
    var b := Then(a, ToolNamed(a.0, u, f.index, f.id));
    if f.function_.None? then b else Then(b, FunctionHandled(b.0, u, f.index, f.function_.value))
  }

  // ---------- Whole chunks ----------

  /** The parts of a stream, whatever chunks they come in. */
  datatype Part =
    | ReasoningPart(text: string)
    | ContentPart(text: string)
    | ToolPart(fragment: Fragment)
    | FinishPart

  ghost function PartHandled(s: State, u: Setup, p: Part): (State, seq<Event>) {
    match p
    case ReasoningPart(text) => ReasoningHandled(s, text)
    case ContentPart(text) => ContentHandled(s, text)
    case ToolPart(f) => ToolHandled(s, u, f)
    case FinishPart => AllClosed(s, u)
  }

  ghost function PartsHandled(s: State, u: Setup, parts: seq<Part>): (State, seq<Event>) {
    if parts == [] then (s, [])
    else
      var a := PartsHandled(s, u, parts[..|parts| - 1]);
      Then(a, PartHandled(a.0, u, parts[|parts| - 1]))
  }

  function ToolParts(tools: seq<Fragment>): (r: seq<Part>)
    ensures |r| == |tools|
    ensures forall i :: 0 <= i < |tools| ==> r[i] == ToolPart(tools[i])
  {
    seq(|tools|, i requires 0 <= i < |tools| => ToolPart(tools[i]))
  }

  function TextParts(reasoning: string, content: string): seq<Part> {
    (if reasoning != "" then [ReasoningPart(reasoning)] else []) + (if content != "" then [ContentPart(content)] else [])
  }

  function PartsOf(c: Choice): seq<Part> {
    match c
    case NoDelta => []
    case Choice(reasoning, content, tools, finished) =>
      TextParts(reasoning, content) + ToolParts(tools) + (if finished then [FinishPart] else [])
  }

  function PartsOfAll(choices: seq<Choice>): seq<Part> {
    if choices == [] then [] else PartsOfAll(choices[..|choices| - 1]) + PartsOf(choices[|choices| - 1])
  }

  /** The first chunk opens the response and starts from a clean state. */
  function Opened(s: State, id: Option<string>, fallback: string): (State, seq<Event>) {
    var t := Clean(s, if id.Some? then id.value else fallback);
    (t.(n := t.n + 2), [Created(t.n + 1, t.responseID), InProgress(t.n + 2, t.responseID)])
  }

  function Clean(s: State, id: string): State {
    State(s.n, id, false, "", false, false, map[], map[], map[], {}, "", false, "", "", false, Cleared(s.tally))
  }

  /** A chunk without choices ends here, even if it carries usage. */
  ghost function ChunkHandled(s: State, u: Setup, c: Chunk): (State, seq<Event>) {
    if c.choices.None? then (s, [])
    else
      var a := PartsHandled(s, u, PartsOfAll(c.choices.value));
      (a.0.(tally := if c.usage.Some? then Taken(a.0.tally, c.usage.value) else a.0.tally), a.1)
  }

  ghost function Step(s: State, u: Setup, c: Chunk, fallback: string): (State, seq<Event>) {
    if s.firstChunk then var a := Opened(s, c.id, fallback); Then(a, ChunkHandled(a.0, u, c)) else ChunkHandled(s, u, c)
  }

  /** Length in bytes of the UTF-8 encoding. */
  function Bytes(s: string): nat {
    if s == "" then 0
    else
      var c := s[|s| - 1] as int;
      Bytes(s[..|s| - 1]) + if c < 0x80 then 1 else if c < 0x800 then 2 else if c < 0x10000 then 3 else 4
  }

  lemma {:induction false} BytesAppend(a: string, b: string)
    ensures Bytes(a + b) == Bytes(a) + Bytes(b)
  {
    if b == "" {
      assert a + b == a;
    } else {
      assert (a + b)[..|a + b| - 1] == a + b[..|b| - 1];
      BytesAppend(a, b[..|b| - 1]);
    }
  }

  /** How many bytes a character takes, by the code point ranges of UTF-8 (RFC 3629, section 3). */
  lemma BytesOfOne(c: char)
    ensures c as int <= 0x7F ==> Bytes([c]) == 1
    ensures 0x80 <= c as int <= 0x7FF ==> Bytes([c]) == 2
    ensures 0x800 <= c as int <= 0xFFFF ==> Bytes([c]) == 3
    ensures 0x10000 <= c as int ==> Bytes([c]) == 4
  {
    assert [c][..0] == "";
  }

  function ToolItems(s: State, u: Setup, idxs: seq<int>): (r: seq<Item>)
    ensures |r| == |idxs|
    ensures forall i :: 0 <= i < |idxs| ==>
      r[i] == ToolItem(u, Get(s.callIDs, idxs[i]), Get(s.names, idxs[i]), Get(s.arguments, idxs[i]))
  {
    seq(|idxs|, i requires 0 <= i < |idxs| =>
      ToolItem(u, Get(s.callIDs, idxs[i]), Get(s.names, idxs[i]), Get(s.arguments, idxs[i])))
  }

  function BlockItems(s: State): seq<Item> {
    (if s.reasoning != "" || s.partAdded then [ReasoningItem(s.reasoningID, s.reasoning)] else [])
    + (if s.text != "" || s.msgID != "" then [MessageItem(s.msgID, s.text)] else [])
  }

  ghost function Output(s: State, u: Setup): seq<Item> {
    BlockItems(s) + ToolItems(s, u, Sorted(s.arguments.Keys))
  }

  /** The end marker of the stream. */
  ghost function Done(s: State, u: Setup): (State, seq<Event>) {
    var a := AllClosed(s, u);
    Then(a, (a.0.(n := a.0.n + 1),
             [Completed(a.0.n + 1, a.0.responseID, Output(a.0, u), Reported(a.0.tally, Bytes(a.0.reasoning)))]))
  }

  // ---------- The converter ----------

  class Converter {
    const setup: Setup
    const counters: Counters
    var seqNumber: nat
    var responseID: string
    var firstChunk: bool
    var currentMsgID: string
    var inTextBlock: bool
    var inFuncBlock: bool
    var funcArgsBuf: map<int, string>
    var funcNames: map<int, string>
    var funcCallIDs: map<int, string>
    var funcItemAdded: set<int>
    var textBuf: string
    var reasoningActive: bool
    var reasoningItemID: string
    var reasoningBuf: string
    var reasoningPartAdded: bool

    ghost function Current(): State
      reads this, counters
    {
      State(seqNumber, responseID, firstChunk, currentMsgID, inTextBlock, inFuncBlock, funcArgsBuf, funcNames, funcCallIDs,
        funcItemAdded, textBuf, reasoningActive, reasoningItemID, reasoningBuf, reasoningPartAdded, counters.Current())
    }

    constructor (u: Setup)
      ensures Current() == INITIAL && setup == u
    {
      setup := u;
      counters := new Counters();
      seqNumber, responseID, firstChunk, currentMsgID, inTextBlock, inFuncBlock := 0, "", true, "", false, false;
      funcArgsBuf, funcNames, funcCallIDs, funcItemAdded := map[], map[], map[], {};
      textBuf, reasoningActive, reasoningItemID, reasoningBuf, reasoningPartAdded := "", false, "", "", false;
    }

    method NextSeq() returns (n: nat)
      modifies this`seqNumber
      ensures n == seqNumber == old(seqNumber) + 1
    {
      seqNumber := seqNumber + 1;
      n := seqNumber;
    }

    method CloseReasoningBlock() returns (out: seq<Event>)
      modifies this`seqNumber, this`reasoningActive
      ensures (Current(), out) == ReasoningClosed(old(Current()))
    {
      if !reasoningActive {
        return [];
      }
      var n := NextSeq();
      var m := NextSeq();
      var k := NextSeq();
      out := [TextDone(n, reasoningItemID, 0, reasoningBuf), PartDone(m, reasoningItemID, 0, reasoningBuf),
        ItemDone(k, 0, ReasoningItem(reasoningItemID, reasoningBuf))];
      reasoningActive := false;
    }

    method CloseTextBlock() returns (out: seq<Event>)
      modifies this`seqNumber, this`inTextBlock
      ensures (Current(), out) == TextClosed(old(Current()))
    {
      if !inTextBlock {
        return [];
      }
      var outputIndex := 0;
      if reasoningPartAdded {
        outputIndex := 1;
      }
      var n := NextSeq();
      var m := NextSeq();
      var k := NextSeq();
      out := [TextDone(n, currentMsgID, outputIndex, textBuf), PartDone(m, currentMsgID, outputIndex, textBuf),
        ItemDone(k, outputIndex, MessageItem(currentMsgID, textBuf))];
      inTextBlock := false;
    }

    method CloseBlocks() returns (out: seq<Event>)
      modifies this`seqNumber, this`reasoningActive, this`inTextBlock
      ensures (Current(), out) == BlocksClosed(old(Current()))
    {
      hide ReasoningClosed, TextClosed;
      out := CloseReasoningBlock();
      var more := CloseTextBlock();
      out := out + more;
    }

    method CustomToolOutputIndex(idx: int) returns (outputIndex: int)
      ensures outputIndex == OutputIndex(Current(), idx)
    {
      outputIndex := idx;
      if reasoningPartAdded {
        outputIndex := outputIndex + 1;
      }
      if currentMsgID != "" {
        outputIndex := outputIndex + 1;
      }
    }

    method CloseTool(idx: int) returns (out: seq<Event>)
      modifies this`seqNumber
      ensures seqNumber == old(seqNumber) + 2
      ensures out == ToolDone(old(Current()), setup, idx, old(seqNumber))
    {
      var args := "{}";
      if idx in funcArgsBuf && |funcArgsBuf[idx]| > 0 {
        args := funcArgsBuf[idx];
      }
      var callID, name := Get(funcCallIDs, idx), Get(funcNames, idx);
      var outputIndex := CustomToolOutputIndex(idx);
      var n := NextSeq();
      var m := NextSeq();
      if name != "" && name in setup.proxies {
        var customInput := setup.rebuild(name, args);
        out := [InputDelta(n, CustomID(callID), callID, outputIndex, customInput),
          ItemDone(m, outputIndex, CustomCall(CustomID(callID), callID, setup.original(name), customInput))];
        return;
      }
      out := [TextDone(n, FunctionID(callID), outputIndex, args),
        ItemDone(m, outputIndex, FunctionCall(FunctionID(callID), callID, setup.display(name), setup.namespace(name), args))];
    }

    /** The loop over the sorted indexes. */
    method CloseTools(idxs: seq<int>) returns (out: seq<Event>)
      modifies this`seqNumber
      ensures seqNumber == old(seqNumber) + 2 * |idxs|
      ensures out == ToolsDone(old(Current()), setup, idxs)
    {
      hide ToolDone;
      ghost var s := Current();
      out := [];
      for i := 0 to |idxs|
        invariant out == ToolsDone(s, setup, idxs[..i])
        invariant Current() == s.(n := s.n + 2 * i)
      {
        ToolDoneSame(s, setup, idxs[i], i);
        var more := CloseTool(idxs[i]);
        out := out + more;
        assert idxs[..i + 1][..i] == idxs[..i];
      }
      assert idxs[..|idxs|] == idxs;
    }

    method CloseFuncBlocks() returns (out: seq<Event>)
      modifies this`seqNumber, this`inFuncBlock
      ensures (Current(), out) == ToolsClosed(old(Current()), setup)
    {
      hide ToolsDone, Covers, Ascending;
      if !inFuncBlock || funcArgsBuf == map[] {
        return [];
      }
      var idxs := SortedIndexes(funcArgsBuf.Keys);
      out := CloseTools(idxs);
      inFuncBlock := false;
    }

    method CloseAll() returns (out: seq<Event>)
      modifies this`seqNumber, this`reasoningActive, this`inTextBlock, this`inFuncBlock
      ensures (Current(), out) == AllClosed(old(Current()), setup)
    {
      hide BlocksClosed, ToolsClosed;
      out := CloseBlocks();
      var more := CloseFuncBlocks();
      out := out + more;
    }

    method OpenReasoning() returns (out: seq<Event>)
      modifies this`seqNumber, this`reasoningActive, this`reasoningBuf, this`reasoningItemID, this`reasoningPartAdded
      ensures (Current(), out) == ReasoningOpened(old(Current()))
    {
      hide ReasoningID, Counters.Current;
      if reasoningActive {
        return [];
      }
      BeginReasoning();
      out := AnnounceReasoning();
    }

    method BeginReasoning()
      modifies this`reasoningActive, this`reasoningBuf, this`reasoningItemID, this`reasoningPartAdded
      ensures Current() == old(Current()).(
        reasoningActive := true, reasoning := "", reasoningID := ReasoningID(responseID), partAdded := true)
    {
      hide ReasoningID, Counters.Current;
      reasoningActive := true;
      reasoningBuf := "";
      reasoningItemID := ReasoningID(responseID);
      reasoningPartAdded := true;
    }

    method AnnounceReasoning() returns (out: seq<Event>)
      modifies this`seqNumber
      ensures Current() == old(Current()).(n := seqNumber) && seqNumber == old(seqNumber) + 2
      ensures out == [ItemAdded(seqNumber - 1, 0, Reasoning, reasoningItemID, "", "", ""),
        PartAdded(seqNumber, reasoningItemID, 0)]
    {
      var n := NextSeq();
      var m := NextSeq();
      out := [ItemAdded(n, 0, Reasoning, reasoningItemID, "", "", ""), PartAdded(m, reasoningItemID, 0)];
    }

    method HandleReasoning(reasoningText: string) returns (out: seq<Event>)
      modifies this`seqNumber, this`reasoningActive, this`reasoningBuf, this`reasoningItemID, this`reasoningPartAdded
      ensures (Current(), out) == ReasoningHandled(old(Current()), reasoningText)
    {
      hide ReasoningOpened;
      out := OpenReasoning();
      reasoningBuf := reasoningBuf + reasoningText;
      var n := NextSeq();
      out := out + [Delta(n, reasoningItemID, 0, reasoningText)];
    }

    method OpenText() returns (out: seq<Event>)
      modifies this`seqNumber, this`inTextBlock, this`currentMsgID
      ensures (Current(), out) == TextOpened(old(Current()))
    {
      if inTextBlock {
        return [];
      }
      inTextBlock := true;
      var outputIndex := 0;
      if reasoningPartAdded {
        outputIndex := 1;
      }
      currentMsgID := MessageID(responseID, outputIndex == 1);
      var n := NextSeq();
      var m := NextSeq();
      out := [ItemAdded(n, outputIndex, Text, currentMsgID, "", "", ""), PartAdded(m, currentMsgID, outputIndex)];
    }

    method HandleContent(contentText: string) returns (out: seq<Event>)
      modifies this`seqNumber, this`reasoningActive, this`inTextBlock, this`currentMsgID, this`textBuf
      ensures (Current(), out) == ContentHandled(old(Current()), contentText)
    {
      hide ReasoningClosed, TextOpened;
      out := CloseReasoningBlock();
      var more := OpenText();
      textBuf := textBuf + contentText;
      var outputIndex := 0;
      if reasoningPartAdded {
        outputIndex := 1;
      }
      var n := NextSeq();
      out := out + more + [Delta(n, currentMsgID, outputIndex, contentText)];
    }

    method NoteCallID(idx: int, id: string)
      modifies this`funcArgsBuf, this`funcCallIDs, this`inFuncBlock
      ensures var s := old(Current());
        var t := s.(arguments := s.arguments[idx := Get(s.arguments, idx)]);
        Current() == if id == "" then t else t.(callIDs := t.callIDs[idx := id], inFunc := true)
    {
      hide Get, Counters.Current;
      funcArgsBuf := funcArgsBuf[idx := Get(funcArgsBuf, idx)];
      if id != "" {
        funcCallIDs := funcCallIDs[idx := id];
        inFuncBlock := true;
      }
    }

    method NameTool(idx: int, id: string) returns (out: seq<Event>)
      modifies this`seqNumber, this`funcArgsBuf, this`funcCallIDs, this`inFuncBlock, this`funcItemAdded
      ensures (Current(), out) == ToolNamed(old(Current()), setup, idx, id)
    {
      hide Get, OutputIndex, FunctionID, Counters.Current;
      NoteCallID(idx, id);
      if id == "" || setup.compat {
        return [];
      }
      out := AnnounceFunction(idx, id);
    }

    method AnnounceFunction(idx: int, id: string) returns (out: seq<Event>)
      modifies this`seqNumber, this`funcItemAdded
      ensures Current() == old(Current()).(n := old(seqNumber) + 1, added := old(funcItemAdded) + {idx})
      ensures out ==
        [ItemAdded(old(seqNumber) + 1, OutputIndex(old(Current()), idx), FunctionKind, FunctionID(id), id, "", "")]
    {
      hide OutputIndex, FunctionID;
      var outputIndex := CustomToolOutputIndex(idx);
      var n := NextSeq();
      funcItemAdded := funcItemAdded + {idx};
      out := [ItemAdded(n, outputIndex, FunctionKind, FunctionID(id), id, "", "")];
    }

    method AddToolCallItemIfNeeded(idx: int) returns (out: seq<Event>)
      modifies this`seqNumber, this`funcItemAdded
      ensures (Current(), out) == ToolAdded(old(Current()), setup, idx)
    {
      if idx in funcItemAdded || Get(funcCallIDs, idx) == "" || Get(funcNames, idx) == "" {
        return [];
      }
      var callID, name := funcCallIDs[idx], funcNames[idx];
      var outputIndex := CustomToolOutputIndex(idx);
      var n := NextSeq();
      if name in setup.proxies {
        out := [ItemAdded(n, outputIndex, CustomKind, CustomID(callID), callID, setup.original(name), "")];
      } else {
        out := [ItemAdded(n, outputIndex, FunctionKind, FunctionID(callID), callID, setup.display(name), setup.namespace(name))];
      }
      funcItemAdded := funcItemAdded + {idx};
    }

    method HandleArguments(idx: int, arguments: string) returns (out: seq<Event>)
      modifies this`seqNumber, this`funcArgsBuf, this`funcItemAdded
      ensures (Current(), out) == ArgumentsHandled(old(Current()), setup, idx, arguments)
    {
      hide ToolAdded;
      out := [];
      if arguments != "" {
        funcArgsBuf := funcArgsBuf[idx := Get(funcArgsBuf, idx) + arguments];
        out := AddToolCallItemIfNeeded(idx);
        var name := Get(funcNames, idx);
        if name != "" && name in setup.proxies {
          return;
        }
        var outputIndex := CustomToolOutputIndex(idx);
        var n := NextSeq();
        out := out + [Delta(n, FunctionID(Get(funcCallIDs, idx)), outputIndex, arguments)];
      }
    }

    method HandleFunction(idx: int, function_: Function) returns (out: seq<Event>)
      modifies this`seqNumber, this`funcNames, this`funcArgsBuf, this`funcItemAdded
      ensures (Current(), out) == FunctionHandled(old(Current()), setup, idx, function_)
    {
      hide ToolAdded, ArgumentsHandled;
      if function_.name != "" {
        funcNames := funcNames[idx := function_.name];
      }
      out := AddToolCallItemIfNeeded(idx);
      var more := HandleArguments(idx, function_.arguments);
      out := out + more;
    }

    method HandleToolCall(f: Fragment) returns (out: seq<Event>)
      modifies this`seqNumber, this`reasoningActive, this`inTextBlock, this`funcArgsBuf, this`funcCallIDs, this`inFuncBlock,
        this`funcItemAdded, this`funcNames
      ensures (Current(), out) == ToolHandled(old(Current()), setup, f)
    {
      hide BlocksClosed, ToolNamed, FunctionHandled;
      out := CloseBlocks();
      var more := NameTool(f.index, f.id);
      out := out + more;
      if f.function_.Some? {
        var rest := HandleFunction(f.index, f.function_.value);
        out := out + rest;
      }
    }

    method HandleToolCalls(ghost s: State, ghost parts: seq<Part>, sofar: seq<Event>, tools: seq<Fragment>) returns (out: seq<Event>)
      requires (Current(), sofar) == PartsHandled(s, setup, parts)
      modifies this`seqNumber, this`reasoningActive, this`inTextBlock, this`funcArgsBuf, this`funcCallIDs, this`inFuncBlock,
        this`funcItemAdded, this`funcNames
      ensures (Current(), out) == PartsHandled(s, setup, parts + ToolParts(tools))
    {
      hide PartsHandled, ToolHandled;
      out := sofar;
      assert parts + ToolParts([]) == parts;
      assert tools[..0] == [];
      for i := 0 to |tools|
        invariant (Current(), out) == PartsHandled(s, setup, parts + ToolParts(tools[..i]))
      {
        PartsSnoc(s, setup, parts + ToolParts(tools[..i]), ToolPart(tools[i]));
        assert parts + ToolParts(tools[..i + 1]) == parts + ToolParts(tools[..i]) + [ToolPart(tools[i])];
        var more := HandleToolCall(tools[i]);
        out := out + more;
      }
      assert tools[..|tools|] == tools;
    }

    /** The reasoning and content of a delta. */
    method HandleText(ghost s: State, ghost parts: seq<Part>, sofar: seq<Event>, c: Choice) returns (out: seq<Event>)
      requires c.Choice? && (Current(), sofar) == PartsHandled(s, setup, parts)
      modifies this`seqNumber, this`reasoningActive, this`reasoningBuf, this`reasoningItemID, this`reasoningPartAdded,
        this`inTextBlock, this`currentMsgID, this`textBuf
      ensures (Current(), out) == PartsHandled(s, setup, parts + TextParts(c.reasoning, c.content))
    {
      hide PartsHandled, ReasoningHandled, ContentHandled;
      out := sofar;
      ghost var sofarParts := parts;
      if c.reasoning != "" {
        PartsSnoc(s, setup, sofarParts, ReasoningPart(c.reasoning));
        var more := HandleReasoning(c.reasoning);
        out := out + more;
        sofarParts := sofarParts + [ReasoningPart(c.reasoning)];
      }
      assert sofarParts == parts + (if c.reasoning != "" then [ReasoningPart(c.reasoning)] else []);
      if c.content != "" {
        PartsSnoc(s, setup, sofarParts, ContentPart(c.content));
        var more := HandleContent(c.content);
        out := out + more;
        sofarParts := sofarParts + [ContentPart(c.content)];
      }
      assert sofarParts == parts + TextParts(c.reasoning, c.content);
    }

    method HandleChoice(ghost s: State, ghost parts: seq<Part>, sofar: seq<Event>, c: Choice) returns (out: seq<Event>)
      requires (Current(), sofar) == PartsHandled(s, setup, parts)
      modifies this`seqNumber, this`reasoningActive, this`reasoningBuf, this`reasoningItemID, this`reasoningPartAdded,
        this`inTextBlock, this`currentMsgID, this`textBuf, this`funcArgsBuf, this`funcCallIDs, this`inFuncBlock,
        this`funcItemAdded, this`funcNames
      ensures (Current(), out) == PartsHandled(s, setup, parts + PartsOf(c))
    {
      hide PartsHandled, AllClosed, TextParts, ToolParts;
      out := sofar;
      if c == NoDelta {
        assert parts + [] == parts;
        return;
      }
      ghost var front := parts + TextParts(c.reasoning, c.content);
      out := HandleText(s, parts, out, c);
      out := HandleToolCalls(s, front, out, c.tools);
      ghost var all := front + ToolParts(c.tools);
      assert parts + PartsOf(c) == all + if c.finished then [FinishPart] else [];
      if c.finished {
        PartsSnoc(s, setup, all, FinishPart);
        var more := CloseAll();
        out := out + more;
      } else {
        assert all + [] == all;
      }
    }

    /** The choices and the usage of a chunk. */
    method HandleChunk(c: Chunk) returns (out: seq<Event>)
      modifies this, counters
      ensures (Current(), out) == ChunkHandled(old(Current()), setup, c)
    {
      hide PartsHandled, PartsOf, Taken;
      if c.choices.None? {
        return [];
      }
      ghost var s := Current();
      var choices := c.choices.value;
      out := [];
      NoParts(s, setup);
      for i := 0 to |choices|
        invariant (Current(), out) == PartsHandled(s, setup, PartsOfAll(choices[..i]))
      {
        assert choices[..i + 1][..i] == choices[..i];
        out := HandleChoice(s, PartsOfAll(choices[..i]), out, choices[i]);
      }
      assert choices[..|choices|] == choices;
      if c.usage.Some? {
        counters.Take(c.usage.value);
      }
    }

    method ResetBlocks()
      modifies this`textBuf, this`reasoningBuf, this`reasoningActive, this`inTextBlock, this`inFuncBlock, this`currentMsgID,
        this`reasoningItemID, this`reasoningPartAdded
      ensures textBuf == reasoningBuf == currentMsgID == reasoningItemID == ""
      ensures !reasoningActive && !inTextBlock && !inFuncBlock && !reasoningPartAdded
    {
      textBuf, reasoningBuf, currentMsgID, reasoningItemID := "", "", "", "";
      reasoningActive, inTextBlock, inFuncBlock, reasoningPartAdded := false, false, false, false;
    }

    method ResetTools()
      modifies this`funcArgsBuf, this`funcNames, this`funcCallIDs, this`funcItemAdded
      ensures funcArgsBuf == funcNames == funcCallIDs == map[] && funcItemAdded == {}
    {
      funcArgsBuf, funcNames, funcCallIDs, funcItemAdded := map[], map[], map[], {};
    }

    method ResetState(id: string)
      modifies this, counters
      ensures Current() == Clean(old(Current()), id)
    {
      hide Cleared;
      counters.Reset();
      firstChunk, responseID := false, id;
      ResetBlocks();
      ResetTools();
    }

    method Open(id: Option<string>, fallback: string) returns (out: seq<Event>)
      modifies this, counters
      ensures (Current(), out) == Opened(old(Current()), id, fallback)
    {
      hide Clean;
      ResetState(if id.Some? then id.value else fallback);
      assert responseID == Current().responseID;
      out := [Created(seqNumber + 1, responseID), InProgress(seqNumber + 2, responseID)];
      seqNumber := seqNumber + 2;
    }

    /** ConvertOpenAIChatToResponses for one parsed chunk. */
    method Convert(c: Chunk, fallback: string) returns (out: seq<Event>)
      modifies this, counters
      ensures (Current(), out) == Step(old(Current()), setup, c, fallback)
    {
      hide ChunkHandled, Opened;
      out := [];
      if firstChunk {
        out := Open(c.id, fallback);
      }
      var more := HandleChunk(c);
      assert [] + more == more;
      out := out + more;
    }

    /** The output array of response.completed. */
    method CollectOutput() returns (outputs: seq<Item>)
      ensures outputs == Output(Current(), setup)
    {
      var front := CollectBlocks();
      var idxs := SortedIndexes(funcArgsBuf.Keys);
      var tools := CollectTools(idxs);
      outputs := front + tools;
    }

    method CollectBlocks() returns (outputs: seq<Item>)
      ensures outputs == BlockItems(Current())
    {
      outputs := [];
      if reasoningBuf != "" || reasoningPartAdded {
        outputs := outputs + [ReasoningItem(reasoningItemID, reasoningBuf)];
      }
      if textBuf != "" || currentMsgID != "" {
        outputs := outputs + [MessageItem(currentMsgID, textBuf)];
      }
    }

    method CollectTools(idxs: seq<int>) returns (tools: seq<Item>)
      ensures tools == ToolItems(Current(), setup, idxs)
    {
      tools := [];
      for i := 0 to |idxs|
        invariant |tools| == i && forall j :: 0 <= j < i ==> tools[j] == ToolItems(Current(), setup, idxs)[j]
      {
        var args := Get(funcArgsBuf, idxs[i]);
        if args == "" {
          args := "{}";
        }
        var callID, name := Get(funcCallIDs, idxs[i]), Get(funcNames, idxs[i]);
        if name != "" && name in setup.proxies {
          tools := tools + [CustomCall(CustomID(callID), callID, setup.original(name), setup.rebuild(name, args))];
        } else {
          tools := tools + [FunctionCall(FunctionID(callID), callID, setup.display(name), setup.namespace(name), args)];
        }
      }
    }

    method GenerateCompletedEvents() returns (out: seq<Event>)
      modifies this`seqNumber, this`reasoningActive, this`inTextBlock, this`inFuncBlock
      ensures (Current(), out) == Done(old(Current()), setup)
    {
      hide AllClosed, Output, Reported, Bytes;
      out := CloseAll();
      var n := NextSeq();
      var outputs := CollectOutput();
      var usage := counters.Summarize(Bytes(reasoningBuf));
      assert outputs == Output(Current().(n := n - 1), setup) by { OutputSame(Current(), setup, n - 1); }
      out := out + [Completed(n, responseID, outputs, usage)];
    }
  }

  lemma OutputSame(s: State, u: Setup, n: nat)
    ensures Output(s, u) == Output(s.(n := n), u)
  {
  }

  lemma PartsSnoc(s: State, u: Setup, parts: seq<Part>, p: Part)
    ensures PartsHandled(s, u, parts + [p])
         == Then(PartsHandled(s, u, parts), PartHandled(PartsHandled(s, u, parts).0, u, p))
  {
    assert (parts + [p])[..|parts|] == parts;
  }

  lemma NoParts(s: State, u: Setup)
    ensures PartsHandled(s, u, []) == (s, [])
  {
  }

  lemma ToolDoneSame(s: State, u: Setup, idx: int, i: nat)
    ensures ToolDone(s.(n := s.n + 2 * i), u, idx, s.n + 2 * i) == ToolDone(s, u, idx, s.n + 2 * i)
  {
  }
}
