// Streaming conversion of Claude Messages chunks to Responses events.
module ClaudeToResponses {
  import opened Common
  import opened TextLines

  // ---------- Chunks and events ----------

  datatype Chunk =
    | MessageStart(id: string, inputTokens: Option<int>)
    | StartThinking(text: string)
    | StartText(text: string)
    | StartToolUse(callID: string, name: string)
    | StartOther
    | ThinkingDelta(text: string)
    | TextDelta(text: string)
    | InputJSONDelta(text: string)
    | OtherDelta
    | BlockStop
    | MessageDelta(inputTokens: Option<int>, outputTokens: Option<int>)
    | MessageStop
    | OtherChunk

  datatype Kind = Reasoning | Text | Tool

  /** A finished output item; text is the summary, the message text or the arguments. */
  datatype Item = Item(id: string, kind: Kind, text: string, callID: string, name: string)

  datatype Event =
    | Created(n: nat, id: string)
    | InProgress(n: nat, id: string)
    | ItemAdded(n: nat, index: nat, id: string, kind: Kind, callID: string, name: string)
    | PartAdded(n: nat, id: string, index: nat)
    | Delta(n: nat, id: string, index: nat, text: string)
    | TextDone(n: nat, id: string, index: nat, text: string)
    | PartDone(n: nat, id: string, index: nat, text: string)
    | ItemDone(n: nat, index: nat, item: Item)
    | Completed(n: nat, id: string, output: seq<Item>, inputTokens: int, outputTokens: int, totalTokens: int)

  // ---------- The converter's state ----------

  /** The item of one kind that was started last. */
  datatype Open = Open(id: string, index: nat, buffer: string)

  const NOT_OPEN := Open("", 0, "")

  datatype State = State(
    n: nat,
    responseID: string,
    firstChunk: bool,
    nextOutputIndex: nat,
    active: Option<Kind>,
    reasoning: Open,
    text: Open,
    tool: Open,
    callID: string,
    name: string,
    completed: seq<Item>,
    inputTokens: int,
    outputTokens: int)

  const INITIAL := State(0, "", true, 0, None, NOT_OPEN, NOT_OPEN, NOT_OPEN, "", "", [], 0, 0)

  function Slot(s: State, kind: Kind): Open {
    match kind
    case Reasoning => s.reasoning
    case Text => s.text
    case Tool => s.tool
  }

  function WithSlot(s: State, kind: Kind, open: Open): State {
    match kind
    case Reasoning => s.(reasoning := open)
    case Text => s.(text := open)
    case Tool => s.(tool := open)
  }

  function Digits(n: nat): string {
    if n < 10 then ["0123456789"[n]] else Digits(n / 10) + ["0123456789"[n % 10]]
  }

  function ItemID(kind: Kind, responseID: string, index: nat, callID: string): string {
    match kind
    case Reasoning => "rs_" + responseID + "_" + Digits(index)
    case Text => "msg_" + responseID + "_" + Digits(index)
    case Tool => if callID != "" then "fc_" + callID else "fc_" + responseID + "_" + Digits(index)
  }

  /** What a closed item shows: blank tool arguments become an empty object. */
  function Shown(kind: Kind, text: string): string {
    if kind == Tool && TrimSpace(text) == "" then "{}" else text
  }

  function Started(s: State, kind: Kind, callID: string, name: string): (State, seq<Event>) {
    var index := s.nextOutputIndex;
    var id := ItemID(kind, s.responseID, index, callID);
    var t := WithSlot(s, kind, Open(id, index, ""));
    if kind == Tool then
      (t.(n := s.n + 1, active := Some(Tool), nextOutputIndex := index + 1, callID := callID, name := name),
       [ItemAdded(s.n + 1, index, id, Tool, callID, name)])
    else
      (t.(n := s.n + 2, active := Some(kind), nextOutputIndex := index + 1),
       [ItemAdded(s.n + 1, index, id, kind, "", ""), PartAdded(s.n + 2, id, index)])
  }

  function Appended(s: State, kind: Kind, text: string): (State, seq<Event>) {
    var open := Slot(s, kind);
    (WithSlot(s, kind, open.(buffer := open.buffer + text)).(n := s.n + 1), [Delta(s.n + 1, open.id, open.index, text)])
  }

  function Closed(s: State, kind: Kind): (State, seq<Event>) {
    var open := Slot(s, kind);
    var full := Shown(kind, open.buffer);
    if kind == Tool then
      var item := Item(open.id, Tool, full, s.callID, s.name);
      (s.(n := s.n + 2, active := None, completed := s.completed + [item]),
       [TextDone(s.n + 1, open.id, open.index, full), ItemDone(s.n + 2, open.index, item)])
    else
      var item := Item(open.id, kind, full, "", "");
      (s.(n := s.n + 3, active := None, completed := if full != "" then s.completed + [item] else s.completed),
       [TextDone(s.n + 1, open.id, open.index, full), PartDone(s.n + 2, open.id, open.index, full),
        ItemDone(s.n + 3, open.index, item)])
  }

  function Ended(s: State): (State, seq<Event>) {
    (s.(n := s.n + 1),
     [Completed(s.n + 1, s.responseID, s.completed, s.inputTokens, s.outputTokens, s.inputTokens + s.outputTokens)])
  }

  /** One after the other. */
  function Then(a: (State, seq<Event>), b: (State, seq<Event>)): (State, seq<Event>) {
    (b.0, a.1 + b.1)
  }

  function StartedWith(s: State, kind: Kind, text: string): (State, seq<Event>) {
    var a := Started(s, kind, "", "");
    if text == "" then a else Then(a, Appended(a.0, kind, text))
  }

  function AppendedTo(s: State, kind: Kind, text: string): (State, seq<Event>) {
    if text == "" then (s, [])
    else if s.active == Some(kind) then Appended(s, kind, text)
    else if kind == Tool then (s, [])
    else StartedWith(s, kind, text)
  }

  function ClosedActive(s: State): (State, seq<Event>) {
    if s.active.Some? then Closed(s, s.active.value) else (s, [])
  }

  function Given(o: Option<int>, otherwise: int): int {
    if o.Some? then o.value else otherwise
  }

  function Handled(s: State, c: Chunk): (State, seq<Event>) {
    match c
    case MessageStart(id, input) =>
      (s.(responseID := if id != "" then id else s.responseID, inputTokens := Given(input, s.inputTokens)), [])
    case StartThinking(text) => StartedWith(s, Reasoning, text)
    case StartText(text) => StartedWith(s, Text, text)
    case StartToolUse(callID, name) => Started(s, Tool, callID, name)
    case ThinkingDelta(text) => AppendedTo(s, Reasoning, text)
    case TextDelta(text) => AppendedTo(s, Text, text)
    case InputJSONDelta(text) => AppendedTo(s, Tool, text)
    case BlockStop => ClosedActive(s)
    case MessageDelta(input, output) =>
      (s.(inputTokens := Given(input, s.inputTokens), outputTokens := Given(output, s.outputTokens)), [])
    case MessageStop => var a := ClosedActive(s); Then(a, Ended(a.0))
    case StartOther => (s, [])
    case OtherDelta => (s, [])
    case OtherChunk => (s, [])
  }

  /** The first chunk opens the response; fallback stands for the generated id. */
  function Opened(s: State, c: Chunk, fallback: string): (State, seq<Event>) {
    var id := if c.MessageStart? && c.id != "" then c.id else fallback;
    (s.(firstChunk := false, responseID := id, n := s.n + 2), [Created(s.n + 1, id), InProgress(s.n + 2, id)])
  }

  function Step(s: State, c: Chunk, fallback: string): (State, seq<Event>) {
    if s.firstChunk then var a := Opened(s, c, fallback); Then(a, Handled(a.0, c)) else Handled(s, c)
  }

  // ---------- The converter ----------

  class Converter {
    var seqNumber: nat
    var responseID: string
    var firstChunk: bool
    var nextOutputIndex: nat
    var activeItemType: Option<Kind>
    var reasoning: Open
    var text: Open
    var tool: Open
    var currentToolCallID: string
    var currentToolName: string
    var completedOutput: seq<Item>
    var inputTokens: int
    var outputTokens: int

    ghost function Current(): State
      reads this
    {
      State(seqNumber, responseID, firstChunk, nextOutputIndex, activeItemType, reasoning, text, tool,
        currentToolCallID, currentToolName, completedOutput, inputTokens, outputTokens)
    }

    constructor ()
      ensures Current() == INITIAL
    {
      seqNumber, responseID, firstChunk, nextOutputIndex, activeItemType := 0, "", true, 0, None;
      reasoning, text, tool := NOT_OPEN, NOT_OPEN, NOT_OPEN;
      currentToolCallID, currentToolName, completedOutput := "", "", [];
      inputTokens, outputTokens := 0, 0;
    }

    method NextSeq() returns (n: nat)
      modifies this`seqNumber
      ensures n == seqNumber == old(seqNumber) + 1
    {
      seqNumber := seqNumber + 1;
      n := seqNumber;
    }

    method StartReasoning() returns (out: seq<Event>)
      modifies this`seqNumber, this`nextOutputIndex, this`activeItemType, this`reasoning
      ensures (Current(), out) == Started(old(Current()), Reasoning, "", "")
    {
      hide Digits;
      activeItemType := Some(Reasoning);
      reasoning := Open(ItemID(Reasoning, responseID, nextOutputIndex, ""), nextOutputIndex, "");
      nextOutputIndex := nextOutputIndex + 1;
      var n := NextSeq();
      var m := NextSeq();
      out := [ItemAdded(n, reasoning.index, reasoning.id, Reasoning, "", ""), PartAdded(m, reasoning.id, reasoning.index)];
    }

    method AppendReasoningDelta(delta: string) returns (out: seq<Event>)
      modifies this`seqNumber, this`reasoning
      ensures (Current(), out) == Appended(old(Current()), Reasoning, delta)
    {
      reasoning := reasoning.(buffer := reasoning.buffer + delta);
      var n := NextSeq();
      out := [Delta(n, reasoning.id, reasoning.index, delta)];
    }

    method CloseReasoning() returns (out: seq<Event>)
      modifies this`seqNumber, this`activeItemType, this`completedOutput
      ensures (Current(), out) == Closed(old(Current()), Reasoning)
    {
      var full := reasoning.buffer;
      var n := NextSeq();
      var m := NextSeq();
      var k := NextSeq();
      var item := Item(reasoning.id, Reasoning, full, "", "");
      if full != "" {
        completedOutput := completedOutput + [item];
      }
      activeItemType := None;
      out := [TextDone(n, reasoning.id, reasoning.index, full), PartDone(m, reasoning.id, reasoning.index, full),
        ItemDone(k, reasoning.index, item)];
    }

    method StartText() returns (out: seq<Event>)
      modifies this`seqNumber, this`nextOutputIndex, this`activeItemType, this`text
      ensures (Current(), out) == Started(old(Current()), Text, "", "")
    {
      hide Digits;
      activeItemType := Some(Text);
      text := Open(ItemID(Text, responseID, nextOutputIndex, ""), nextOutputIndex, "");
      nextOutputIndex := nextOutputIndex + 1;
      var n := NextSeq();
      var m := NextSeq();
      out := [ItemAdded(n, text.index, text.id, Text, "", ""), PartAdded(m, text.id, text.index)];
    }

    method AppendTextDelta(delta: string) returns (out: seq<Event>)
      modifies this`seqNumber, this`text
      ensures (Current(), out) == Appended(old(Current()), Text, delta)
    {
      text := text.(buffer := text.buffer + delta);
      var n := NextSeq();
      out := [Delta(n, text.id, text.index, delta)];
    }

    method CloseText() returns (out: seq<Event>)
      modifies this`seqNumber, this`activeItemType, this`completedOutput
      ensures (Current(), out) == Closed(old(Current()), Text)
    {
      var full := text.buffer;
      var n := NextSeq();
      var m := NextSeq();
      var k := NextSeq();
      var item := Item(text.id, Text, full, "", "");
      if full != "" {
        completedOutput := completedOutput + [item];
      }
      activeItemType := None;
      out := [TextDone(n, text.id, text.index, full), PartDone(m, text.id, text.index, full), ItemDone(k, text.index, item)];
    }

    method StartToolUse(callID: string, name: string) returns (out: seq<Event>)
      modifies this`seqNumber, this`nextOutputIndex, this`activeItemType, this`tool, this`currentToolCallID, this`currentToolName
      ensures (Current(), out) == Started(old(Current()), Tool, callID, name)
    {
      hide Digits;
      BeginToolUse(callID, name);
      var n := NextSeq();
      out := [ItemAdded(n, tool.index, tool.id, Tool, callID, name)];
    }

    method BeginToolUse(callID: string, name: string)
      modifies this`nextOutputIndex, this`activeItemType, this`tool, this`currentToolCallID, this`currentToolName
      ensures Current() == Started(old(Current()), Tool, callID, name).0.(n := old(seqNumber))
    {
      hide ItemID;
      activeItemType := Some(Tool);
      tool := Open(ItemID(Tool, responseID, nextOutputIndex, callID), nextOutputIndex, "");
      nextOutputIndex := nextOutputIndex + 1;
      currentToolCallID, currentToolName := callID, name;
    }

    method AppendToolUseDelta(partialJSON: string) returns (out: seq<Event>)
      modifies this`seqNumber, this`tool
      ensures (Current(), out) == Appended(old(Current()), Tool, partialJSON)
    {
      tool := tool.(buffer := tool.buffer + partialJSON);
      var n := NextSeq();
      out := [Delta(n, tool.id, tool.index, partialJSON)];
    }

    method CloseToolUse() returns (out: seq<Event>)
      modifies this`seqNumber, this`activeItemType, this`completedOutput
      ensures (Current(), out) == Closed(old(Current()), Tool)
    {
      hide TrimSpace;
      var args := tool.buffer;
      if TrimSpace(args) == "" {
        args := "{}";
      }
      var n := NextSeq();
      var m := NextSeq();
      var item := Item(tool.id, Tool, args, currentToolCallID, currentToolName);
      completedOutput := completedOutput + [item];
      activeItemType := None;
      out := [TextDone(n, tool.id, tool.index, args), ItemDone(m, tool.index, item)];
    }

    /** Whichever item is open. */
    method CloseActive() returns (out: seq<Event>)
      modifies this`seqNumber, this`activeItemType, this`completedOutput
      ensures (Current(), out) == ClosedActive(old(Current()))
    {
      hide Closed;
      match activeItemType {
        case None => out := [];
        case Some(kind) =>
          match kind {
            case Reasoning => out := CloseReasoning();
            case Text => out := CloseText();
            case Tool => out := CloseToolUse();
          }
      }
    }

    method ThinkingBlock(thinking: string) returns (out: seq<Event>)
      modifies this`seqNumber, this`nextOutputIndex, this`activeItemType, this`reasoning
      ensures (Current(), out) == StartedWith(old(Current()), Reasoning, thinking)
    {
      hide Started, Appended;
      out := StartReasoning();
      if thinking != "" {
        var more := AppendReasoningDelta(thinking);
        out := out + more;
      }
    }

    method TextBlock(content: string) returns (out: seq<Event>)
      modifies this`seqNumber, this`nextOutputIndex, this`activeItemType, this`text
      ensures (Current(), out) == StartedWith(old(Current()), Text, content)
    {
      hide Started, Appended;
      out := StartText();
      if content != "" {
        var more := AppendTextDelta(content);
        out := out + more;
      }
    }

    method BlockDelta(c: Chunk) returns (out: seq<Event>)
      requires c.ThinkingDelta? || c.TextDelta? || c.InputJSONDelta?
      modifies this`seqNumber, this`nextOutputIndex, this`activeItemType, this`reasoning, this`text, this`tool
      ensures (Current(), out) == Handled(old(Current()), c)
    {
      hide Started, Appended;
      out := [];
      match c {
        case ThinkingDelta(thinking) =>
          if thinking != "" {
            if activeItemType != Some(Reasoning) {
              out := ThinkingBlock(thinking);
            } else {
              out := AppendReasoningDelta(thinking);
            }
          }
        case TextDelta(content) =>
          if content != "" {
            if activeItemType != Some(Text) {
              out := TextBlock(content);
            } else {
              out := AppendTextDelta(content);
            }
          }
        case InputJSONDelta(partialJSON) =>
          if partialJSON != "" && activeItemType == Some(Tool) {
            out := AppendToolUseDelta(partialJSON);
          }
      }
    }

    method MessageStopped() returns (out: seq<Event>)
      modifies this`seqNumber, this`activeItemType, this`completedOutput
      ensures (Current(), out) == Handled(old(Current()), MessageStop)
    {
      hide Closed;
      out := CloseActive();
      var n := NextSeq();
      out := out + [Completed(n, responseID, completedOutput, inputTokens, outputTokens, inputTokens + outputTokens)];
    }

    /** The switch over the chunk's type. */
    method Handle(c: Chunk) returns (out: seq<Event>)
      modifies this
      ensures (Current(), out) == Handled(old(Current()), c)
    {
      hide Started, StartedWith, ClosedActive, Ended;
      out := [];
      match c {
        case MessageStart(id, input) =>
          if id != "" {
            responseID := id;
          }
          if input.Some? {
            inputTokens := input.value;
          }
        case StartThinking(thinking) => out := ThinkingBlock(thinking);
        case StartText(content) => out := TextBlock(content);
        case StartToolUse(callID, name) => out := StartToolUse(callID, name);
        case ThinkingDelta(_) => out := BlockDelta(c);
        case TextDelta(_) => out := BlockDelta(c);
        case InputJSONDelta(_) => out := BlockDelta(c);
        case BlockStop => out := CloseActive();
        case MessageDelta(input, output) =>
          if input.Some? {
            inputTokens := input.value;
          }
          if output.Some? {
            outputTokens := output.value;
          }
        case MessageStop => out := MessageStopped();
        case _ =>
      }
    }

    /** ConvertClaudeMessagesToResponses for one parsed chunk. */
    method Convert(c: Chunk, fallback: string) returns (out: seq<Event>)
      modifies this
      ensures (Current(), out) == Step(old(Current()), c, fallback)
    {
      hide Handled;
      out := [];
      if firstChunk {
        firstChunk := false;
        responseID := if c.MessageStart? && c.id != "" then c.id else fallback;
        var n := NextSeq();
        var m := NextSeq();
        out := [Created(n, responseID), InProgress(m, responseID)];
      }
      var more := Handle(c);
      assert [] + more == more;
      out := out + more;
    }
  }
}
