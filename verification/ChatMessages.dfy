// Non-streaming conversion of a whole chat completion to a Responses object.
module ChatMessages {
  import opened Common
  import opened ChatUsage
  import opened ChatToResponses

  datatype Call = Call(id: string, name: string, arguments: string)

  datatype Message = Message(reasoning: string, content: string, calls: seq<Call>)

  /** A choice without a message is skipped. */
  datatype Completion = Completion(id: string, choices: seq<Option<Message>>, usage: Option<Usage>)

  datatype Response = Response(id: string, output: seq<Item>, usage: Report)

  function Reasonings(choices: seq<Option<Message>>): string {
    if choices == [] then ""
    else
      var last := choices[|choices| - 1];
      Reasonings(choices[..|choices| - 1]) + if last.Some? then last.value.reasoning else ""
  }

  function Contents(choices: seq<Option<Message>>): string {
    if choices == [] then ""
    else
      var last := choices[|choices| - 1];
      Contents(choices[..|choices| - 1]) + if last.Some? then last.value.content else ""
  }

  function CallItems(u: Setup, calls: seq<Call>): (r: seq<Item>)
    ensures |r| == |calls|
    ensures forall i :: 0 <= i < |calls| ==> r[i] == ToolItem(u, calls[i].id, calls[i].name, calls[i].arguments)
  {
    seq(|calls|, i requires 0 <= i < |calls| => ToolItem(u, calls[i].id, calls[i].name, calls[i].arguments))
  }

  function AllCalls(u: Setup, choices: seq<Option<Message>>): seq<Item> {
    if choices == [] then []
    else
      var last := choices[|choices| - 1];
      AllCalls(u, choices[..|choices| - 1]) + if last.Some? then CallItems(u, last.value.calls) else []
  }

  function FrontItems(id: string, reasoning: string, content: string): seq<Item> {
    (if reasoning != "" then [ReasoningItem(ReasoningID(id), reasoning)] else [])
    + (if content != "" then [MessageItem(MessageID(id, reasoning != ""), content)] else [])
  }

  /** Without choices neither output nor usage is filled in. */
  function Converted(u: Setup, c: Completion, fallback: string): Response {
    var id := if c.id == "" then fallback else c.id;
    if c.choices == [] then Response(id, [], NO_REPORT)
    else
      var reasoning := Reasonings(c.choices);
      Response(id,
        FrontItems(id, reasoning, Contents(c.choices)) + AllCalls(u, c.choices),
        if c.usage.Some? then Reported(Taken(NO_TALLY, c.usage.value), Bytes(reasoning)) else NO_REPORT)
  }

  // ---------- What the output says ----------

  /** The item of a call: for a proxy the original tool with its rebuilt input, else the function with its arguments. */
  predicate SpellsCall(u: Setup, call: Call, item: Item) {
    var arguments := if call.arguments == "" then "{}" else call.arguments;
    if call.name != "" && call.name in u.proxies
    then item == CustomCall("ctc_" + call.id, call.id, u.original(call.name), u.rebuild(call.name, arguments))
    else item == FunctionCall("fc_" + call.id, call.id, u.display(call.name), u.namespace(call.name), arguments)
  }

  /** Reasoning first, then the message, both only if there is any, then the calls in order. */
  ghost predicate Spells(u: Setup, id: string, reasoning: string, content: string, calls: seq<Call>, output: seq<Item>) {
    var r := if reasoning != "" then 1 else 0;
    var m := if content != "" then 1 else 0;
    && |output| == r + m + |calls|
    && (reasoning != "" ==> output[0] == ReasoningItem("rs_" + id + "_0", reasoning))
    && (content != "" ==> output[r] == MessageItem("msg_" + id + (if r == 1 then "_1" else "_0"), content))
    && forall i :: 0 <= i < |calls| ==> SpellsCall(u, calls[i], output[r + m + i])
  }

  lemma OutputSpells(u: Setup, id: string, reasoning: string, content: string, calls: seq<Call>)
    ensures Spells(u, id, reasoning, content, calls, FrontItems(id, reasoning, content) + CallItems(u, calls))
  {
    var front, items := FrontItems(id, reasoning, content), CallItems(u, calls);
    forall i | 0 <= i < |calls|
      ensures SpellsCall(u, calls[i], (front + items)[|front| + i])
    {
      assert (front + items)[|front| + i] == items[i];
    }
  }

  /** Pieces put one after the other. */
  function Joined<T>(pieces: seq<seq<T>>): seq<T> {
    if pieces == [] then [] else pieces[0] + Joined(pieces[1..])
  }

  lemma {:induction false} JoinedLast<T>(pieces: seq<seq<T>>, last: seq<T>)
    ensures Joined(pieces + [last]) == Joined(pieces) + last
  {
    var more := pieces + [last];
    if pieces == [] {
      assert more == [last] && more[1..] == [];
    } else {
      assert more[1..] == pieces[1..] + [last];
      JoinedLast(pieces[1..], last);
      assert pieces[0] + (Joined(pieces[1..]) + last) == (pieces[0] + Joined(pieces[1..])) + last;
    }
  }

  function MessageAt(choice: Option<Message>): Message {
    if choice.Some? then choice.value else Message("", "", [])
  }

  /** The reasoning of all messages, in order; likewise their content and their calls. */
  function ReasoningIn(choices: seq<Option<Message>>): string {
    Joined(seq(|choices|, i requires 0 <= i < |choices| => MessageAt(choices[i]).reasoning))
  }

  function ContentIn(choices: seq<Option<Message>>): string {
    Joined(seq(|choices|, i requires 0 <= i < |choices| => MessageAt(choices[i]).content))
  }

  function CallsIn(choices: seq<Option<Message>>): seq<Call> {
    Joined(seq(|choices|, i requires 0 <= i < |choices| => MessageAt(choices[i]).calls))
  }

  lemma ChoiceLast(init: seq<Option<Message>>, last: Option<Message>)
    ensures ReasoningIn(init + [last]) == ReasoningIn(init) + MessageAt(last).reasoning
    ensures ContentIn(init + [last]) == ContentIn(init) + MessageAt(last).content
    ensures CallsIn(init + [last]) == CallsIn(init) + MessageAt(last).calls
  {
    hide MessageAt, Joined;
    var all := init + [last];
    var n := |init|;
    var r := seq(n, i requires 0 <= i < n => MessageAt(init[i]).reasoning);
    var t := seq(n, i requires 0 <= i < n => MessageAt(init[i]).content);
    var k := seq(n, i requires 0 <= i < n => MessageAt(init[i]).calls);
    assert seq(|all|, i requires 0 <= i < |all| => MessageAt(all[i]).reasoning) == r + [MessageAt(last).reasoning];
    assert seq(|all|, i requires 0 <= i < |all| => MessageAt(all[i]).content) == t + [MessageAt(last).content];
    assert seq(|all|, i requires 0 <= i < |all| => MessageAt(all[i]).calls) == k + [MessageAt(last).calls];
    JoinedLast(r, MessageAt(last).reasoning);
    JoinedLast(t, MessageAt(last).content);
    JoinedLast(k, MessageAt(last).calls);
  }

  lemma CallItemsAppend(u: Setup, a: seq<Call>, b: seq<Call>)
    ensures CallItems(u, a + b) == CallItems(u, a) + CallItems(u, b)
  {
    hide ToolItem;
  }

  lemma {:induction false} GatheredInOrder(u: Setup, choices: seq<Option<Message>>)
    ensures Reasonings(choices) == ReasoningIn(choices) && Contents(choices) == ContentIn(choices)
    ensures AllCalls(u, choices) == CallItems(u, CallsIn(choices))
  {
    hide CallItems, ReasoningIn, ContentIn, CallsIn;
    if choices != [] {
      var init, last := choices[..|choices| - 1], choices[|choices| - 1];
      GatheredInOrder(u, init);
      ChoiceLast(init, last);
      assert choices == init + [last];
      CallItemsAppend(u, CallsIn(init), MessageAt(last).calls);
    } else {
      NothingGathered(u);
    }
  }

  lemma NothingGathered(u: Setup)
    ensures ReasoningIn([]) == "" && ContentIn([]) == "" && CallsIn([]) == [] && CallItems(u, []) == []
  {
  }

  /**
   * The response to a completion with choices spells out the reasoning, the
   * text and the calls of all its messages, joined in order, and its usage
   * tells what the usage object says.
   */
  lemma ResponseSpells(u: Setup, c: Completion, fallback: string)
    requires c.choices != []
    ensures var r := Converted(u, c, fallback);
      var reasoning := ReasoningIn(c.choices);
      && r.id == (if c.id == "" then fallback else c.id)
      && Spells(u, r.id, reasoning, ContentIn(c.choices), CallsIn(c.choices), r.output)
      && (c.usage.Some? ==> Tells(c.usage.value, Bytes(reasoning), r.usage))
      && (c.usage.None? ==> r.usage == NO_REPORT)
  {
    hide Spells, FrontItems, CallItems, Tells, Reported, Taken, Bytes;
    GatheredInOrder(u, c.choices);
    OutputSpells(u, Converted(u, c, fallback).id, ReasoningIn(c.choices), ContentIn(c.choices), CallsIn(c.choices));
    if c.usage.Some? {
      ReportTells(c.usage.value, Bytes(ReasoningIn(c.choices)));
    }
  }

  // ---------- The conversion ----------

  method ConvertCall(u: Setup, tc: Call) returns (item: Item)
    requires ValidSetup(u)
    ensures item == ToolItem(u, tc.id, tc.name, tc.arguments)
  {
    var funcArgs := tc.arguments;
    if funcArgs == "" {
      funcArgs := "{}";
    }
    if tc.name in u.proxies {
      item := CustomCall(CustomID(tc.id), tc.id, u.original(tc.name), u.rebuild(tc.name, funcArgs));
      return;
    }
    item := FunctionCall(FunctionID(tc.id), tc.id, u.display(tc.name), u.namespace(tc.name), funcArgs);
  }

  method ConvertCalls(u: Setup, calls: seq<Call>) returns (items: seq<Item>)
    requires ValidSetup(u)
    ensures items == CallItems(u, calls)
  {
    items := [];
    for i := 0 to |calls|
      invariant |items| == i && forall j :: 0 <= j < i ==> items[j] == CallItems(u, calls)[j]
    {
      var item := ConvertCall(u, calls[i]);
      items := items + [item];
    }
  }

  /** The loop over the choices. */
  method GatherChoices(u: Setup, choices: seq<Option<Message>>)
      returns (reasoning: string, content: string, tools: seq<Item>)
    requires ValidSetup(u)
    ensures reasoning == Reasonings(choices) && content == Contents(choices) && tools == AllCalls(u, choices)
  {
    hide CallItems;
    reasoning, content, tools := "", "", [];
    for i := 0 to |choices|
      invariant reasoning == Reasonings(choices[..i]) && content == Contents(choices[..i]) && tools == AllCalls(u, choices[..i])
    {
      assert choices[..i + 1][..i] == choices[..i];
      if choices[i].Some? {
        var message := choices[i].value;
        if message.reasoning != "" {
          reasoning := reasoning + message.reasoning;
        }
        if message.content != "" {
          content := content + message.content;
        }
        var items := ConvertCalls(u, message.calls);
        tools := tools + items;
      }
    }
    assert choices[..|choices|] == choices;
  }

  /** Puts the reasoning item first and the message behind it, in front of the tool calls. */
  method Arrange(id: string, reasoning: string, content: string, tools: seq<Item>) returns (outputs: seq<Item>)
    ensures outputs == FrontItems(id, reasoning, content) + tools
  {
    hide MessageID, ReasoningID;
    outputs := tools;
    var outputIndex := 0;
    var currentMsgID := MessageID(id, false);
    if reasoning != "" {
      outputs := [ReasoningItem(ReasoningID(id), reasoning)] + outputs;
      outputIndex := 1;
      currentMsgID := MessageID(id, true);
    }
    if content != "" {
      var m := MessageItem(currentMsgID, content);
      if outputIndex > 0 {
        outputs := [outputs[0]] + [m] + outputs[1..];
      } else {
        outputs := [m] + outputs;
      }
    }
  }

  method ConvertOpenAIChatToResponsesNonStream(u: Setup, c: Completion, fallback: string) returns (r: Response)
    requires ValidSetup(u)
    ensures r == Converted(u, c, fallback)
    ensures c.choices != [] ==>
      Spells(u, r.id, ReasoningIn(c.choices), ContentIn(c.choices), CallsIn(c.choices), r.output)
  {
    hide FrontItems, Taken, Reported, Bytes, ValidSetup, Spells, Tells, ReasoningIn, ContentIn, CallsIn;
    if c.choices != [] {
      ResponseSpells(u, c, fallback);
    }
    var responseID := c.id;
    if responseID == "" {
      responseID := fallback;
    }
    if |c.choices| == 0 {
      return Response(responseID, [], NO_REPORT);
    }
    var reasoning, content, tools := GatherChoices(u, c.choices);
    var outputs := Arrange(responseID, reasoning, content, tools);
    var usage := NO_REPORT;
    if c.usage.Some? {
      usage := NonStreamUsage(c.usage.value, Bytes(reasoning));
    }
    r := Response(responseID, outputs, usage);
  }
}
