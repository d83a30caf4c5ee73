// Reordering of chat messages so that an assistant message with tool calls is
// followed at once by the replies to them.
module ToolCallOrder {

  datatype Role = Assistant | Tool | OtherRole

  /** The fields the reordering looks at; body stands for all the others. */
  datatype Message = Message(role: Role, toolCalls: seq<string>, toolCallID: string, body: int)

  /** The non-empty call ids of an assistant message. */
  function CallIDs(m: Message): set<string> {
    if m.role == Assistant then set id | id in m.toolCalls && id != "" else {}
  }

  /** The call a tool message answers, or "". */
  function ReplyID(m: Message): string {
    if m.role == Tool then m.toolCallID else ""
  }

  // ---------- Specification ----------

  datatype ScanResult = ScanResult(tools: seq<Message>, deferred: seq<Message>, rest: seq<Message>, left: set<string>)

  /** Takes the first reply to each pending id out of ms, until none is pending. */
  function Scan(ms: seq<Message>, pending: set<string>): (r: ScanResult)
    ensures |r.tools| + |r.deferred| + |r.rest| == |ms|
  {
    if ms == [] || pending == {} then ScanResult([], [], ms, pending)
    else
      var id := ReplyID(ms[0]);
      if id != "" && id in pending then
        var r := Scan(ms[1..], pending - {id});
        r.(tools := [ms[0]] + r.tools)
      else
        var r := Scan(ms[1..], pending);
        r.(deferred := [ms[0]] + r.deferred)
  }

  /** The first message is answered, but not directly. */
  predicate Moves(ms: seq<Message>)
    requires ms != []
  {
    var scan := Scan(ms[1..], CallIDs(ms[0]));
    CallIDs(ms[0]) != {} && scan.left == {} && scan.deferred != []
  }

  /** What one step of the outer loop puts in its final place. */
  function Front(ms: seq<Message>): seq<Message>
    requires ms != []
  {
    if Moves(ms) then [ms[0]] + Scan(ms[1..], CallIDs(ms[0])).tools else [ms[0]]
  }

  function Remainder(ms: seq<Message>): (r: seq<Message>)
    requires ms != []
    ensures |Front(ms)| + |r| == |ms|
  {
    var scan := Scan(ms[1..], CallIDs(ms[0]));
    if Moves(ms) then scan.deferred + scan.rest else ms[1..]
  }

  function Normalize(ms: seq<Message>): (r: seq<Message>)
    ensures |r| == |ms|
    decreases |ms|
  {
    if ms == [] then [] else Front(ms) + Normalize(Remainder(ms))
  }

  // ---------- The loop ----------

  lemma ScanSplit(ms: seq<Message>, pending: set<string>)
    ensures var r := Scan(ms, pending);
      && r.rest == ms[|ms| - |r.rest|..]
      && (r.deferred == [] && r.left == {} ==> ms == r.tools + r.rest)
  {
    if ms != [] && pending != {} {
      var id := ReplyID(ms[0]);
      var p := if id != "" && id in pending then pending - {id} else pending;
      ScanSplit(ms[1..], p);
      assert ms == [ms[0]] + ms[1..];
      var k := |ms[1..]| - |Scan(ms[1..], p).rest|;
      assert ms[1..][k..] == ms[k + 1..];
    }
  }

  lemma ScanStep(ms: seq<Message>, j: nat, pending: set<string>)
    requires j <= |ms|
    ensures j == |ms| || pending == {} ==> Scan(ms[j..], pending) == ScanResult([], [], ms[j..], pending)
    ensures j < |ms| && pending != {} ==>
      var id := ReplyID(ms[j]);
      if id != "" && id in pending then
        var r := Scan(ms[j + 1..], pending - {id});
        Scan(ms[j..], pending) == r.(tools := [ms[j]] + r.tools)
      else
        var r := Scan(ms[j + 1..], pending);
        Scan(ms[j..], pending) == r.(deferred := [ms[j]] + r.deferred)
  {
    if j < |ms| {
      assert ms[j..][0] == ms[j] && ms[j..][1..] == ms[j + 1..];
    }
  }

  /** The inner loop: collects the replies to pendingIDs from position j on. */
  method CollectReplies(ms: seq<Message>, from: nat, ids: set<string>)
    returns (toolMessages: seq<Message>, deferredMessages: seq<Message>, end: nat, pendingIDs: set<string>)
    requires from <= |ms|
    ensures from <= end <= |ms|
    ensures Scan(ms[from..], ids) == ScanResult(toolMessages, deferredMessages, ms[end..], pendingIDs)
  {
    hide ReplyID, Scan;
    toolMessages, deferredMessages, end, pendingIDs := [], [], from, ids;
    ghost var scan := Scan(ms[from..], ids);
    while end < |ms| && pendingIDs != {}
      invariant from <= end <= |ms|
      invariant var r := Scan(ms[end..], pendingIDs);
        scan == ScanResult(toolMessages + r.tools, deferredMessages + r.deferred, r.rest, r.left)
    {
      ScanStep(ms, end, pendingIDs);
      ghost var r := Scan(ms[end..], pendingIDs);
      var id := ReplyID(ms[end]);
      if id != "" && id in pendingIDs {
        toolMessages := toolMessages + [ms[end]];
        pendingIDs := pendingIDs - {id};
      } else {
        deferredMessages := deferredMessages + [ms[end]];
      }
      end := end + 1;
      ghost var s := Scan(ms[end..], pendingIDs);
      assert scan.tools == toolMessages + s.tools;
      assert scan.deferred == deferredMessages + s.deferred;
    }
    ScanStep(ms, end, pendingIDs);
  }

  lemma FrontNotEmpty(ms: seq<Message>)
    requires ms != []
    ensures Front(ms) != []
  {
  }

  lemma NormalizeNothing()
    ensures Normalize([]) == []
  {
  }

  /** One outer step, told by the scan from position i + 1. */
  lemma StepAt(ms: seq<Message>, i: nat)
    requires i < |ms|
    ensures var scan := Scan(ms[i + 1..], CallIDs(ms[i]));
      var moves := CallIDs(ms[i]) != {} && scan.left == {} && scan.deferred != [];
      && Front(ms[i..]) == (if moves then [ms[i]] + scan.tools else [ms[i]])
      && Remainder(ms[i..]) == if moves then scan.deferred + scan.rest else ms[i + 1..]
  {
    hide Scan, CallIDs;
    assert ms[i..][0] == ms[i] && ms[i..][1..] == ms[i + 1..];
  }

  /** Placing the front and going on with the remainder keeps the result. */
  lemma Advance(done: seq<Message>, ms: seq<Message>)
    requires ms != []
    ensures done + Normalize(ms) == (done + Front(ms)) + Normalize(Remainder(ms))
  {
    hide Front, Remainder;
  }

  lemma Splice(ms: seq<Message>, i: nat, tools: seq<Message>, deferred: seq<Message>, end: nat)
    requires i < end <= |ms|
    ensures var spliced := ms[..i + 1] + tools + deferred + ms[end..];
      && |spliced| == i + 1 + |tools| + |deferred| + (|ms| - end)
      && spliced[..i + 1 + |tools|] == ms[..i] + ([ms[i]] + tools)
      && spliced[i + 1 + |tools|..] == deferred + ms[end..]
  {
  }

  method NormalizeOpenAIToolCallMessageOrder(messages: seq<Message>) returns (normalized: seq<Message>)
    ensures normalized == Normalize(messages)
  {
    hide Scan, Normalize, CallIDs, ReplyID, Front, Remainder;
    normalized := messages;
    var i := 0;
    while i < |normalized|
      invariant i <= |normalized| == |messages|
      invariant normalized[..i] + Normalize(normalized[i..]) == Normalize(messages)
    {
      StepAt(normalized, i);
      ghost var front, rest := Front(normalized[i..]), Remainder(normalized[i..]);
      Advance(normalized[..i], normalized[i..]);
      ghost var done := normalized[..i] + front;
      var ids := CallIDs(normalized[i]);
      if ids == {} {
        i := i + 1;
        assert normalized[..i] == done;
        continue;
      }
      var toolMessages, deferredMessages, end, pendingIDs := CollectReplies(normalized, i + 1, ids);
      if pendingIDs != {} || |deferredMessages| == 0 {
        i := i + 1;
        assert normalized[..i] == done;
        continue;
      }
      Splice(normalized, i, toolMessages, deferredMessages, end);
      normalized := normalized[..i + 1] + toolMessages + deferredMessages + normalized[end..];
      i := i + |toolMessages| + 1;
      assert normalized[..i] == done && normalized[i..] == rest;
    }
    assert normalized[i..] == [] && Normalize([]) == [] by { NormalizeNothing(); }
  }

  // ---------- Nothing is lost, and order is kept within a class ----------

  function Pick(m: Message, id: string): seq<Message> {
    if ReplyID(m) == id then [m] else []
  }

  /** The messages that answer id; for "" the messages that answer nothing. */
  function Class(ms: seq<Message>, id: string): seq<Message> {
    if ms == [] then [] else Pick(ms[0], id) + Class(ms[1..], id)
  }

  lemma {:induction false} ClassAppend(a: seq<Message>, b: seq<Message>, id: string)
    ensures Class(a + b, id) == Class(a, id) + Class(b, id)
  {
    hide Pick;
    if a == [] {
      assert a + b == b;
    } else {
      assert (a + b)[0] == a[0] && (a + b)[1..] == a[1..] + b;
      ClassAppend(a[1..], b, id);
    }
  }

  lemma ClassCons(m: Message, ms: seq<Message>, id: string)
    ensures Class([m] + ms, id) == Pick(m, id) + Class(ms, id)
  {
    hide Pick;
    assert ([m] + ms)[0] == m && ([m] + ms)[1..] == ms;
  }

  lemma Regroup(a: seq<Message>, x: seq<Message>, y: seq<Message>, z: seq<Message>)
    ensures (a + x) + (y + z) == a + (x + (y + z))
    ensures x == [] || a == [] ==> x + ((a + y) + z) == a + (x + (y + z))
  {
  }

  /** A scan takes at most the first message of each class, so no class is reordered. */
  lemma {:induction false} ScanKeepsClasses(ms: seq<Message>, pending: set<string>, id: string)
    ensures var r := Scan(ms, pending);
      Class(r.tools, id) + (Class(r.deferred, id) + Class(r.rest, id)) == Class(ms, id)
    ensures id !in pending || id == "" ==> Class(Scan(ms, pending).tools, id) == []
  {
    var r := Scan(ms, pending);
    if ms == [] || pending == {} {
      assert Class([], id) == [];
    } else {
      hide Class, ReplyID;
      var head := ReplyID(ms[0]);
      var taken := head != "" && head in pending;
      var s := Scan(ms[1..], if taken then pending - {head} else pending);
      ScanKeepsClasses(ms[1..], if taken then pending - {head} else pending, id);
      assert ms == [ms[0]] + ms[1..];
      ClassCons(ms[0], ms[1..], id);
      Regroup(Pick(ms[0], id), Class(s.tools, id), Class(s.deferred, id), Class(s.rest, id));
      if taken {
        ClassCons(ms[0], s.tools, id);
      } else {
        ClassCons(ms[0], s.deferred, id);
      }
    }
  }

  lemma FrontKeepsClasses(ms: seq<Message>, id: string)
    requires ms != []
    ensures Class(Front(ms), id) + Class(Remainder(ms), id) == Class(ms, id)
  {
    hide Scan, CallIDs, Pick;
    var ids := CallIDs(ms[0]);
    var scan := Scan(ms[1..], ids);
    assert Class([ms[0]], id) == Pick(ms[0], id) by { assert [ms[0]][1..] == []; }
    if Moves(ms) {
      ScanKeepsClasses(ms[1..], ids, id);
      ClassAppend(scan.deferred, scan.rest, id);
      ClassAppend([ms[0]], scan.tools, id);
    }
  }

  /**
   * Messages that answer the same call, and those that answer none, keep
   * their relative order.
   */
  lemma {:induction false} NormalizeKeepsClasses(ms: seq<Message>, id: string)
    ensures Class(Normalize(ms), id) == Class(ms, id)
    decreases |ms|
  {
    hide Remainder, Class;
    if ms != [] {
      FrontNotEmpty(ms);
      hide Front;
      FrontKeepsClasses(ms, id);
      NormalizeKeepsClasses(Remainder(ms), id);
      ClassAppend(Front(ms), Normalize(Remainder(ms)), id);
    }
  }

  lemma {:induction false} ScanPermutes(ms: seq<Message>, pending: set<string>)
    ensures var r := Scan(ms, pending); multiset(r.tools) + multiset(r.deferred) + multiset(r.rest) == multiset(ms)
  {
    hide ReplyID;
    if ms != [] && pending != {} {
      assert ms == [ms[0]] + ms[1..];
      var id := ReplyID(ms[0]);
      ScanPermutes(ms[1..], if id != "" && id in pending then pending - {id} else pending);
    }
  }

  lemma {:induction false} NormalizePermutes(ms: seq<Message>)
    ensures multiset(Normalize(ms)) == multiset(ms)
    decreases |ms|
  {
    hide Scan, CallIDs;
    if ms != [] {
      assert ms == [ms[0]] + ms[1..];
      ScanPermutes(ms[1..], CallIDs(ms[0]));
      NormalizePermutes(Remainder(ms));
    }
  }

  // ---------- A second pass changes nothing ----------

  function Replies(ms: seq<Message>): set<string> {
    set m | m in ms && ReplyID(m) != "" :: ReplyID(m)
  }

  /** What stays pending is exactly what nobody answers. */
  lemma {:induction false} ScanLeft(ms: seq<Message>, pending: set<string>)
    requires "" !in pending
    ensures Scan(ms, pending).left == pending - Replies(ms)
  {
    if ms != [] && pending != {} {
      var id := ReplyID(ms[0]);
      assert ms == [ms[0]] + ms[1..];
      assert Replies(ms) == Replies(ms[1..]) + (if id != "" then {id} else {});
      ScanLeft(ms[1..], if id != "" && id in pending then pending - {id} else pending);
    }
  }

  lemma SameReplies(a: seq<Message>, b: seq<Message>)
    requires multiset(a) == multiset(b)
    ensures Replies(a) == Replies(b)
  {
    assert forall m :: m in a <==> m in multiset(a);
    assert forall m :: m in b <==> m in multiset(b);
  }

  predicate AllReplies(ms: seq<Message>) {
    forall i :: 0 <= i < |ms| ==> ms[i].role == Tool
  }

  /** A scan whose replies stand in front finds them at once. */
  lemma {:induction false} ScanFindsTools(ms: seq<Message>, pending: set<string>, more: seq<Message>)
    requires Scan(ms, pending).left == {}
    ensures var tools := Scan(ms, pending).tools;
      && AllReplies(tools)
      && Scan(tools + more, pending) == ScanResult(tools, [], more, {})
    decreases |ms|
  {
    var r := Scan(ms, pending);
    if ms == [] || pending == {} {
      assert r.tools + more == more;
    } else {
      var id := ReplyID(ms[0]);
      if id != "" && id in pending {
        var s := Scan(ms[1..], pending - {id});
        ScanFindsTools(ms[1..], pending - {id}, more);
        assert (r.tools + more)[0] == ms[0] && (r.tools + more)[1..] == s.tools + more;
      } else {
        ScanFindsTools(ms[1..], pending, more);
      }
    }
  }

  lemma NormalizeFirst(m: Message, ms: seq<Message>)
    requires CallIDs(m) == {}
    ensures Normalize([m] + ms) == [m] + Normalize(ms)
  {
    hide Scan, CallIDs;
    assert ([m] + ms)[0] == m && ([m] + ms)[1..] == ms;
  }

  lemma {:induction false} NormalizeAfterReplies(tools: seq<Message>, rest: seq<Message>)
    requires AllReplies(tools)
    ensures Normalize(tools + rest) == tools + Normalize(rest)
  {
    hide Normalize;
    if tools == [] {
      assert tools + rest == rest;
    } else {
      assert tools + rest == [tools[0]] + (tools[1..] + rest);
      NormalizeFirst(tools[0], tools[1..] + rest);
      NormalizeAfterReplies(tools[1..], rest);
      assert tools == [tools[0]] + tools[1..];
    }
  }

  /** No assistant message in ms would be reordered. */
  predicate Settled(ms: seq<Message>) {
    ms != [] ==> !Moves(ms) && Settled(ms[1..])
  }

  lemma {:induction false} SettledIsFixed(ms: seq<Message>)
    requires Settled(ms)
    ensures Normalize(ms) == ms
  {
    if ms != [] {
      SettledIsFixed(ms[1..]);
    }
  }

  lemma SettledFirst(m: Message, ms: seq<Message>)
    requires CallIDs(m) == {} && Settled(ms)
    ensures Settled([m] + ms)
  {
    hide Scan, CallIDs;
    assert ([m] + ms)[0] == m && ([m] + ms)[1..] == ms;
  }

  lemma {:induction false} SettledAfterReplies(tools: seq<Message>, rest: seq<Message>)
    requires AllReplies(tools) && Settled(rest)
    ensures Settled(tools + rest)
  {
    hide Settled;
    if tools == [] {
      assert tools + rest == rest;
    } else {
      SettledAfterReplies(tools[1..], rest);
      SettledFirst(tools[0], tools[1..] + rest);
      assert tools + rest == [tools[0]] + (tools[1..] + rest);
    }
  }

  /** An unanswered message stays unanswered when the messages after it move. */
  lemma UnansweredStays(tail: seq<Message>, ids: set<string>)
    requires "" !in ids
    ensures Scan(Normalize(tail), ids).left == Scan(tail, ids).left
  {
    hide Scan, Normalize, Replies;
    NormalizePermutes(tail);
    SameReplies(Normalize(tail), tail);
    ScanLeft(tail, ids);
    ScanLeft(Normalize(tail), ids);
  }

  /** What an answered message and its replies are followed by. */
  function AfterReplies(ms: seq<Message>): seq<Message>
    requires ms != []
  {
    var scan := Scan(ms[1..], CallIDs(ms[0]));
    scan.deferred + scan.rest
  }

  lemma NormalizeAnswered(ms: seq<Message>)
    requires ms != [] && Scan(ms[1..], CallIDs(ms[0])).left == {}
    ensures Normalize(ms) == [ms[0]] + (Scan(ms[1..], CallIDs(ms[0])).tools + Normalize(AfterReplies(ms)))
  {
    hide Scan, CallIDs, ReplyID;
    var ids := CallIDs(ms[0]);
    var scan := Scan(ms[1..], ids);
    ScanFindsTools(ms[1..], ids, []);
    if ids == {} || scan.deferred == [] {
      ScanSplit(ms[1..], ids);
      assert scan.deferred == [] by { NoCallsNoScan(ms[1..], ids); }
      NormalizeAfterReplies(scan.tools, scan.rest);
      assert AfterReplies(ms) == scan.rest;
    }
  }

  lemma NoCallsNoScan(ms: seq<Message>, ids: set<string>)
    ensures ids == {} ==> Scan(ms, ids).deferred == []
  {
  }

  lemma {:induction false} NormalizeSettles(ms: seq<Message>)
    ensures Settled(Normalize(ms))
    decreases |ms|
  {
    hide Scan, CallIDs, ReplyID;
    if ms != [] {
      var ids := CallIDs(ms[0]);
      var scan := Scan(ms[1..], ids);
      var out := Normalize(ms);
      if scan.left != {} {
        NormalizeSettles(ms[1..]);
        assert out[1..] == Normalize(ms[1..]);
        CallIDsNotEmpty(ms[0]);
        UnansweredStays(ms[1..], ids);
      } else {
        var after := Normalize(AfterReplies(ms));
        NormalizeSettles(AfterReplies(ms));
        NormalizeAnswered(ms);
        ScanFindsTools(ms[1..], ids, after);
        assert out[0] == ms[0] && out[1..] == scan.tools + after;
        SettledAfterReplies(scan.tools, after);
      }
    }
  }

  lemma CallIDsNotEmpty(m: Message)
    ensures "" !in CallIDs(m)
  {
  }

  lemma NormalizeIdempotent(ms: seq<Message>)
    ensures Normalize(Normalize(ms)) == Normalize(ms)
  {
    NormalizeSettles(ms);
    SettledIsFixed(Normalize(ms));
  }

  // ---------- What a scan takes ----------

  lemma {:induction false} ScanTakesOnePerID(ms: seq<Message>, pending: set<string>)
    requires "" !in pending && Scan(ms, pending).left == {}
    ensures |Scan(ms, pending).tools| == |pending|
    ensures Replies(Scan(ms, pending).tools) == pending
  {
    if ms != [] && pending != {} {
      var id := ReplyID(ms[0]);
      if id != "" && id in pending {
        ScanTakesOnePerID(ms[1..], pending - {id});
        var s := Scan(ms[1..], pending - {id});
        assert Replies([ms[0]] + s.tools) == {id} + Replies(s.tools);
      } else {
        ScanTakesOnePerID(ms[1..], pending);
      }
    }
  }

  lemma RepliesCons(m: Message, ms: seq<Message>)
    ensures Replies([m] + ms) == Replies(ms) + (if ReplyID(m) != "" then {ReplyID(m)} else {})
  {
    assert m in [m] + ms;
  }
}
