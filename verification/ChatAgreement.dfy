// Streaming and non-streaming conversion agree on canonical streams.
module ChatAgreement {
  import opened Common
  import opened ChatUsage
  import opened ToolIndexes
  import opened ChatToResponses
  import opened ChatMessages
  import opened ChatStreams
  import opened ChatToolStreams

  // ---------- Canonical sequences of parts ----------

  predicate Canonical(t: Told, parts: seq<Part>)
    decreases parts
  {
    parts != [] ==> Fits(t, parts[0]) && Canonical(Hear(t, parts[0]), parts[1..])
  }

  function ToldBy(t: Told, parts: seq<Part>): Told
    requires Canonical(t, parts)
    decreases parts
  {
    if parts == [] then t else ToldBy(Hear(t, parts[0]), parts[1..])
  }

  lemma {:induction false} CanonicalSplits(t: Told, a: seq<Part>, b: seq<Part>)
    requires Canonical(t, a + b)
    ensures Canonical(t, a) && Canonical(ToldBy(t, a), b)
    ensures ToldBy(t, a + b) == ToldBy(ToldBy(t, a), b)
    decreases a
  {
    hide Fits, Hear;
    if a == [] {
      assert a + b == b;
    } else {
      assert (a + b)[1..] == a[1..] + b;
      CanonicalSplits(Hear(t, a[0]), a[1..], b);
    }
  }

  lemma {:induction false} PartsMove(u: Setup, id: string, t: Told, n: nat, tally: Tally, parts: seq<Part>)
    requires ValidSetup(u) && Proper(t) && Canonical(t, parts)
    ensures Moves(u, id, t, n, tally, PartsHandled(StateFor(id, t, n, tally), u, parts), ToldBy(t, parts))
    ensures Proper(ToldBy(t, parts))
    decreases |parts|
  {
    hide StateFor, ClientFor, Leads, Proper, PartHandled, Fits, Hear;
    if parts == [] {
      Stays(u, id, t, n, tally);
    } else {
      var init, last := parts[..|parts| - 1], parts[|parts| - 1];
      assert parts == init + [last];
      CanonicalSplits(t, init, [last]);
      PartsMove(u, id, t, n, tally, init);
      var t1 := ToldBy(t, init);
      OnePart(t1, last);
      var a := PartsHandled(StateFor(id, t, n, tally), u, init);
      PartMoves(u, id, t1, a.0.n, tally, last);
      MovesOn(u, id, t, n, tally, a, t1, PartHandled(a.0, u, last), ToldBy(t, parts));
    }
  }

  lemma OnePart(t: Told, p: Part)
    requires Canonical(t, [p])
    ensures Fits(t, p) && ToldBy(t, [p]) == Hear(t, p)
  {
    assert [p][1..] == [];
    assert ToldBy(Hear(t, p), []) == Hear(t, p);
  }

  // ---------- Streams ----------

  /** The parts of a stream; a chunk without choices has none. */
  function StreamParts(chunks: seq<Chunk>): seq<Part>
    decreases chunks
  {
    if chunks == [] then []
    else (if chunks[0].choices.Some? then PartsOfAll(chunks[0].choices.value) else []) + StreamParts(chunks[1..])
  }

  /** What a choice tells: its reasoning, its text, its tool fragments in order, and whether it is the end. */
  function ChoiceTells(c: Choice): seq<Part> {
    match c
    case NoDelta => []
    case Choice(reasoning, content, tools, finished) =>
      (if reasoning == "" then [] else [ReasoningPart(reasoning)])
      + (if content == "" then [] else [ContentPart(content)])
      + seq(|tools|, i requires 0 <= i < |tools| => ToolPart(tools[i]))
      + (if finished then [FinishPart] else [])
  }

  function ChoicesTell(choices: seq<Choice>): seq<Part> {
    if choices == [] then [] else ChoiceTells(choices[0]) + ChoicesTell(choices[1..])
  }

  /** What a stream tells, chunk by chunk. */
  function StreamTells(chunks: seq<Chunk>): seq<Part> {
    if chunks == [] then []
    else (match chunks[0].choices case None => [] case Some(choices) => ChoicesTell(choices)) + StreamTells(chunks[1..])
  }

  lemma ChoicePartsTell(c: Choice)
    ensures PartsOf(c) == ChoiceTells(c)
  {
  }

  lemma {:induction false} ChoicesTellLast(choices: seq<Choice>, last: Choice)
    ensures ChoicesTell(choices + [last]) == ChoicesTell(choices) + ChoiceTells(last)
  {
    hide ChoiceTells;
    var all := choices + [last];
    if choices == [] {
      assert all == [last] && all[1..] == [];
    } else {
      assert all[1..] == choices[1..] + [last];
      ChoicesTellLast(choices[1..], last);
    }
  }

  lemma {:induction false} ChunkPartsTell(choices: seq<Choice>)
    ensures PartsOfAll(choices) == ChoicesTell(choices)
  {
    hide ChoiceTells, PartsOf;
    if choices != [] {
      var init, last := choices[..|choices| - 1], choices[|choices| - 1];
      ChunkPartsTell(init);
      ChoicePartsTell(last);
      ChoicesTellLast(init, last);
      assert choices == init + [last];
    }
  }

  lemma {:induction false} StreamPartsTell(chunks: seq<Chunk>)
    ensures StreamParts(chunks) == StreamTells(chunks)
  {
    hide PartsOfAll, ChoicesTell;
    if chunks != [] {
      StreamPartsTell(chunks[1..]);
      if chunks[0].choices.Some? {
        ChunkPartsTell(chunks[0].choices.value);
      }
    }
  }

  /** The usage objects that count: those of chunks with choices. */
  function Usages(chunks: seq<Chunk>): seq<Usage>
    decreases chunks
  {
    if chunks == [] then []
    else
      (if chunks[0].choices.Some? && chunks[0].usage.Some? then [chunks[0].usage.value] else []) + Usages(chunks[1..])
  }

  function TakenAll(t: Tally, usages: seq<Usage>): Tally
    decreases usages
  {
    if usages == [] then t else TakenAll(Taken(t, usages[0]), usages[1..])
  }

  /** The converter run over a stream. */
  ghost function Streamed(s: State, u: Setup, chunks: seq<Chunk>, fallback: string): (State, seq<Event>)
    decreases chunks
  {
    if chunks == [] then (s, [])
    else
      var a := Step(s, u, chunks[0], fallback);
      Then(a, Streamed(a.0, u, chunks[1..], fallback))
  }

  /** What the converter and the client have come to. */
  ghost predicate Reaches(u: Setup, id: string, t: Told, n: nat, r: (State, seq<Event>), t': Told, tally: Tally) {
    && r.0 == StateFor(id, t', r.0.n, tally)
    && Leads(ClientFor(u, id, t, n), r.1, ClientFor(u, id, t', r.0.n))
  }

  lemma ReachesOn(u: Setup, id: string, t: Told, n: nat, a: (State, seq<Event>), t1: Told, tally1: Tally,
                  b: (State, seq<Event>), t2: Told, tally2: Tally)
    requires Reaches(u, id, t, n, a, t1, tally1) && Reaches(u, id, t1, a.0.n, b, t2, tally2)
    ensures Reaches(u, id, t, n, Then(a, b), t2, tally2)
  {
    hide StateFor, ClientFor, Leads;
    LeadsOn(ClientFor(u, id, t, n), a.1, ClientFor(u, id, t1, a.0.n), b.1, ClientFor(u, id, t2, b.0.n));
  }

  lemma OtherTally(id: string, t: Told, n: nat, tally: Tally, tally': Tally)
    ensures StateFor(id, t, n, tally).(tally := tally') == StateFor(id, t, n, tally')
    ensures StateFor(id, t, n, tally).tally == tally && StateFor(id, t, n, tally).n == n
    ensures !StateFor(id, t, n, tally).firstChunk
  {
  }

  /** One chunk, once the response is opened. */
  lemma ChunkReaches(u: Setup, id: string, t: Told, n: nat, tally: Tally, c: Chunk)
    requires ValidSetup(u) && Proper(t) && Canonical(t, StreamParts([c]))
    ensures Reaches(u, id, t, n, ChunkHandled(StateFor(id, t, n, tally), u, c), ToldBy(t, StreamParts([c])),
      TakenAll(tally, Usages([c])))
    ensures Proper(ToldBy(t, StreamParts([c])))
  {
    hide StateFor, ClientFor, Leads, Proper, PartsHandled, PartsOfAll, Canonical, ToldBy, Taken;
    var s, parts := StateFor(id, t, n, tally), if c.choices.Some? then PartsOfAll(c.choices.value) else [];
    assert [c][1..] == [];
    assert parts + [] == parts;
    assert StreamParts([c]) == parts;
    PartsMove(u, id, t, n, tally, parts);
    var a := PartsHandled(s, u, parts);
    if c.choices.None? {
      NoParts(s, u);
      assert Usages([c]) == [];
      NumberIn(id, t, n, tally);
    } else {
      var tally' := if c.usage.Some? then Taken(tally, c.usage.value) else tally;
      OtherTally(id, ToldBy(t, parts), a.0.n, tally, tally');
      OneUsage(tally, c);
    }
  }

  lemma OneUsage(tally: Tally, c: Chunk)
    requires c.choices.Some?
    ensures TakenAll(tally, Usages([c])) == if c.usage.Some? then Taken(tally, c.usage.value) else tally
  {
    hide Taken;
    assert Usages([c][1..]) == [];
    if c.usage.Some? {
      assert Usages([c]) == [c.usage.value];
      assert TakenAll(Taken(tally, c.usage.value), [c.usage.value][1..]) == Taken(tally, c.usage.value);
    }
  }

  lemma {:induction false} TakenSplits(t: Tally, a: seq<Usage>, b: seq<Usage>)
    ensures TakenAll(t, a + b) == TakenAll(TakenAll(t, a), b)
    decreases a
  {
    hide Taken;
    if a == [] {
      assert a + b == b;
    } else {
      assert (a + b)[1..] == a[1..] + b;
      TakenSplits(Taken(t, a[0]), a[1..], b);
    }
  }

  lemma FirstAndRest(chunks: seq<Chunk>)
    requires chunks != []
    ensures StreamParts(chunks) == StreamParts([chunks[0]]) + StreamParts(chunks[1..])
    ensures Usages(chunks) == Usages([chunks[0]]) + Usages(chunks[1..])
  {
    hide PartsOfAll;
    var c := chunks[0];
    assert [c][1..] == [];
    var parts := if c.choices.Some? then PartsOfAll(c.choices.value) else [];
    assert parts + [] == parts;
    assert StreamParts([c]) == parts;
    assert Usages([c]) == if c.choices.Some? && c.usage.Some? then [c.usage.value] else [];
  }

  lemma {:induction false} RestReaches(u: Setup, id: string, t: Told, n: nat, tally: Tally, chunks: seq<Chunk>, fallback: string)
    requires ValidSetup(u) && Proper(t) && Canonical(t, StreamParts(chunks))
    ensures Reaches(u, id, t, n, Streamed(StateFor(id, t, n, tally), u, chunks, fallback), ToldBy(t, StreamParts(chunks)),
      TakenAll(tally, Usages(chunks)))
    ensures Proper(ToldBy(t, StreamParts(chunks)))
    decreases |chunks|
  {
    hide StateFor, ClientFor, Leads, Proper, ChunkHandled, Reaches, ToldBy, Canonical;
    if chunks == [] {
      NoChunks(u, id, t, n, tally, fallback);
    } else {
      FirstAndRest(chunks);
      CanonicalSplits(t, StreamParts([chunks[0]]), StreamParts(chunks[1..]));
      TakenSplits(tally, Usages([chunks[0]]), Usages(chunks[1..]));
      RestStep(u, id, t, n, tally, chunks, fallback);
    }
  }

  lemma NoChunks(u: Setup, id: string, t: Told, n: nat, tally: Tally, fallback: string)
    ensures Reaches(u, id, t, n, Streamed(StateFor(id, t, n, tally), u, [], fallback), ToldBy(t, StreamParts([])),
      TakenAll(tally, Usages([])))
    ensures ToldBy(t, StreamParts([])) == t
  {
    hide ClientFor;
    Nothing(ClientFor(u, id, t, n));
  }

  lemma {:induction false} RestStep(u: Setup, id: string, t: Told, n: nat, tally: Tally, chunks: seq<Chunk>, fallback: string)
    requires ValidSetup(u) && Proper(t) && chunks != []
    requires Canonical(t, StreamParts([chunks[0]]))
    requires Canonical(ToldBy(t, StreamParts([chunks[0]])), StreamParts(chunks[1..]))
    ensures var t' := ToldBy(ToldBy(t, StreamParts([chunks[0]])), StreamParts(chunks[1..]));
      Reaches(u, id, t, n, Streamed(StateFor(id, t, n, tally), u, chunks, fallback), t',
        TakenAll(TakenAll(tally, Usages([chunks[0]])), Usages(chunks[1..])))
      && Proper(t')
    decreases |chunks|, 0
  {
    hide ClientFor, Leads, Proper, ChunkHandled, ToldBy, Canonical, StreamParts, Usages, StateFor;
    var c, rest, s := chunks[0], chunks[1..], StateFor(id, t, n, tally);
    var t1, tally1 := ToldBy(t, StreamParts([c])), TakenAll(tally, Usages([c]));
    OtherTally(id, t, n, tally, tally);
    ChunkReaches(u, id, t, n, tally, c);
    var a := ChunkHandled(s, u, c);
    RestReaches(u, id, t1, a.0.n, tally1, rest, fallback);
    ReachesOn(u, id, t, n, a, t1, tally1, Streamed(a.0, u, rest, fallback), ToldBy(t1, StreamParts(rest)),
      TakenAll(tally1, Usages(rest)));
  }

  // ---------- Opening and ending ----------

  /** The response id of a stream. */
  function Given(id: Option<string>, fallback: string): string {
    if id.Some? then id.value else fallback
  }

  lemma OpeningReaches(u: Setup, id: Option<string>, fallback: string)
    ensures var r := Opened(INITIAL, id, fallback); var rid := Given(id, fallback);
      && r.0 == StateFor(rid, UNTOLD, 2, NO_TALLY)
      && Leads(NEW_CLIENT, r.1, ClientFor(u, rid, UNTOLD, 2))
  {
    hide Leads, ToolReadings, ToolResults, ReasoningID, MessageID;
    var rid := Given(id, fallback);
    Two(NEW_CLIENT, Created(1, rid), InProgress(2, rid));
    assert ClientFor(u, rid, UNTOLD, 2) == Client(2, map[], map[], None);
    assert StateFor(rid, UNTOLD, 2, NO_TALLY).arguments == map[];
  }

  /** Opening the response first and then handling the first chunk is the same as its step. */
  lemma OpensThenRuns(u: Setup, chunks: seq<Chunk>, fallback: string)
    requires chunks != []
    ensures var opening := Opened(INITIAL, chunks[0].id, fallback);
      Streamed(INITIAL, u, chunks, fallback) == Then(opening, Streamed(opening.0, u, chunks, fallback))
  {
    hide ChunkHandled;
    var opening := Opened(INITIAL, chunks[0].id, fallback);
    var a := ChunkHandled(opening.0, u, chunks[0]);
    var rest := Streamed(a.0, u, chunks[1..], fallback);
    assert Step(opening.0, u, chunks[0], fallback) == a;
    assert (opening.1 + a.1) + rest.1 == opening.1 + (a.1 + rest.1);
  }

  /** The tool calls of the message, in index order. */
  ghost function CallList(calls: map<int, Call>): (r: seq<Call>)
    ensures |r| == |Sorted(calls.Keys)|
    ensures forall i :: 0 <= i < |r| ==> Sorted(calls.Keys)[i] in calls && r[i] == calls[Sorted(calls.Keys)[i]]
  {
    var idxs := Sorted(calls.Keys);
    seq(|idxs|, i requires 0 <= i < |idxs| => calls[idxs[i]])
  }

  /** The message the parts of the stream make up. */
  ghost function MessageOf(t: Told): Message {
    Message(t.reasoning, t.content, CallList(t.calls))
  }

  /** The output of a finished stream is the output of its message. */
  lemma OutputAgrees(u: Setup, id: string, t: Told, n: nat, tally: Tally)
    ensures Output(StateFor(id, t, n, tally), u) == FrontItems(id, t.reasoning, t.content) + CallItems(u, CallList(t.calls))
  {
    hide ReasoningID, ToolItem;
    var s := StateFor(id, t, n, tally);
    var idxs := Sorted(t.calls.Keys);
    ArgumentKeys(t.calls);
    assert MessageID(id, t.reasoning != "")[0] == 'm';
    forall i | 0 <= i < |idxs|
      ensures ToolItems(s, u, idxs)[i] == CallItems(u, CallList(t.calls))[i]
    {
      KnownCall(t.calls, idxs[i]);
    }
    assert ToolItems(s, u, idxs) == CallItems(u, CallList(t.calls));
  }

  /** The tool indexes are 0, 1, 2 and so on. */
  ghost predicate Gapless(keys: set<int>) {
    forall k :: k in keys <==> 0 <= k < |keys|
  }

  lemma {:induction false} SizeOf(s: seq<int>, keys: set<int>)
    requires Ascending(s) && Covers(s, keys)
    ensures |s| == |keys|
  {
    EmptyCovers(s, keys);
    if s != [] {
      var last := s[|s| - 1];
      CoversInit(s, keys);
      SizeOf(s[..|s| - 1], keys - {last});
      assert last in keys;
    }
  }

  lemma {:induction false} RangeSize(keys: set<int>, n: nat)
    requires forall k :: k in keys <==> 0 <= k < n
    ensures |keys| == n
  {
    if n == 0 {
      assert forall k :: k !in keys;
      assert keys <= {};
    } else {
      RangeSize(keys - {n - 1}, n - 1);
    }
  }

  lemma FrontAt(id: string, t: Told, k: int)
    requires t.phase == AtEnd
    ensures var items := FrontItems(id, t.reasoning, t.content);
      && |items| == Front(t)
      && (k in FrontDone(id, t) <==> 0 <= k < Front(t))
      && (0 <= k < Front(t) ==> FrontDone(id, t)[k] == items[k])
  {
    hide ReasoningID, MessageID;
  }

  /** Without gaps, position k of the output is what is done at index k. */
  lemma OutputAt(u: Setup, id: string, t: Told, k: int)
    requires t.phase == AtEnd && Gapless(t.calls.Keys)
    ensures var output := FrontItems(id, t.reasoning, t.content) + CallItems(u, CallList(t.calls));
      var done := FrontDone(id, t) + ToolResults(u, t.calls, Front(t));
      && (k in done <==> 0 <= k < |output|)
      && (0 <= k < |output| ==> done[k] == output[k])
  {
    hide FrontItems, FrontDone, Front, ToolItem, ToolResults, CallItem;
    FrontAt(id, t, k);
    ResultAt(u, t.calls, Front(t), k);
    SortedRange(t.calls.Keys, |t.calls.Keys|);
    CallItemIs(u, t.calls, k - Front(t));
  }

  lemma CallItemIs(u: Setup, calls: map<int, Call>, i: int)
    requires Sorted(calls.Keys) == seq(|calls.Keys|, i => i)
    ensures |CallList(calls)| == |calls.Keys|
    ensures 0 <= i < |calls.Keys| ==> i in calls && CallItems(u, CallList(calls))[i] == CallItem(u, calls[i])
  {
    if 0 <= i < |calls.Keys| {
      assert Sorted(calls.Keys)[i] == i;
    }
  }

  lemma SameSize(a: set<int>, b: set<int>)
    requires a <= b && |a| == |b|
    ensures a == b
  {
    assert b == a + (b - a);
  }

  lemma {:induction false} RangeSet(n: nat) returns (r: set<int>)
    ensures |r| == n && forall k :: k in r <==> 0 <= k < n
  {
    if n == 0 {
      r := {};
    } else {
      var less := RangeSet(n - 1);
      r := less + {n - 1};
    }
  }

  lemma PositionedCovers(output: seq<Item>, done: map<int, Item>, k: int)
    requires Positioned(output, done)
    ensures k in done <==> 0 <= k < |output|
  {
    var range := RangeSet(|output|);
    forall i | i in range
      ensures i in done.Keys
    {
      assert output[i] == done[i];
    }
    SameSize(range, done.Keys);
  }

  /** An output whose every position was done leaves no gap. */
  lemma PositionedHasNoGap(u: Setup, id: string, t: Told)
    requires t.phase == AtEnd && Proper(t)
    requires Positioned(FrontItems(id, t.reasoning, t.content) + CallItems(u, CallList(t.calls)),
      FrontDone(id, t) + ToolResults(u, t.calls, Front(t)))
    ensures Gapless(t.calls.Keys)
  {
    hide FrontItems, FrontDone, Front, ToolItem, ToolResults, CallItem, CallItems, CallList, Positioned;
    var items := FrontItems(id, t.reasoning, t.content);
    var output, done := items + CallItems(u, CallList(t.calls)), FrontDone(id, t) + ToolResults(u, t.calls, Front(t));
    SizeOf(Sorted(t.calls.Keys), t.calls.Keys);
    FrontAt(id, t, 0);
    assert |output| == Front(t) + |t.calls.Keys|;
    forall k
      ensures k in t.calls.Keys <==> 0 <= k < |t.calls.Keys|
    {
      ResultAt(u, t.calls, Front(t), k + Front(t));
      FrontAt(id, t, k + Front(t));
      PositionedCovers(output, done, k + Front(t));
    }
  }

  /** In the finished output each item stands at the index it was streamed with, if and only if no tool index is left out. */
  lemma OutputIsPositioned(u: Setup, id: string, t: Told, n: nat)
    requires t.phase == AtEnd && Proper(t)
    ensures Positioned(FrontItems(id, t.reasoning, t.content) + CallItems(u, CallList(t.calls)), ClientFor(u, id, t, n).done)
       <==> Gapless(t.calls.Keys)
  {
    hide FrontItems, FrontDone, Front, ToolItem, ToolResults, CallItem, CallItems, ClientFor;
    var output := FrontItems(id, t.reasoning, t.content) + CallItems(u, CallList(t.calls));
    var done := FrontDone(id, t) + ToolResults(u, t.calls, Front(t));
    DoneIs(u, id, t, n);
    if Gapless(t.calls.Keys) {
      forall k
        ensures k in done <==> 0 <= k < |output|
        ensures 0 <= k < |output| ==> done[k] == output[k]
      {
        OutputAt(u, id, t, k);
      }
      RangeSize(done.Keys, |output|);
    } else if Positioned(output, done) {
      PositionedHasNoGap(u, id, t);
    }
  }

  lemma DoneIs(u: Setup, id: string, t: Told, n: nat)
    requires t.phase == AtEnd
    ensures ClientFor(u, id, t, n).done == FrontDone(id, t) + ToolResults(u, t.calls, Front(t))
  {
    hide ToolResults, ReasoningDone, TextDoneFor;
  }

  /** The stream ends: everything is closed, and the completed event accepted if no tool index is left out. */
  lemma DoneReaches(u: Setup, id: string, t: Told, n: nat, tally: Tally)
    requires ValidSetup(u) && Proper(t)
    ensures var s, c := StateFor(id, t, n, tally), ClientFor(u, id, t, n);
      var d, a := Done(s, u), AllClosed(s, u);
      var e := Completed(d.0.n, id, FrontItems(id, t.reasoning, t.content) + CallItems(u, CallList(t.calls)),
                         Reported(tally, Bytes(t.reasoning)));
      && d.1 == a.1 + [e]
      && AcceptsAll(c, a.1)
      && (Accepts(ObservedAll(c, a.1), e) <==> Gapless(t.calls.Keys))
  {
    hide ClientFor, StateFor, AllClosed, Output, Reported, Bytes, FrontItems, CallItems, Positioned, Gapless, CallList;
    var s, c, end := StateFor(id, t, n, tally), ClientFor(u, id, t, n), t.(phase := AtEnd);
    AllMove(u, id, t, n, tally);
    var a := AllClosed(s, u);
    OutputAgrees(u, id, end, a.0.n, tally);
    EndIsProper(t);
    OutputIsPositioned(u, id, end, a.0.n);
    FieldsOf(id, end, a.0.n, tally);
    EndClient(u, id, end, a.0.n);
  }

  lemma EndIsProper(t: Told)
    requires Proper(t)
    ensures Proper(t.(phase := AtEnd))
  {
  }

  lemma FieldsOf(id: string, t: Told, n: nat, tally: Tally)
    ensures var s := StateFor(id, t, n, tally);
      s.responseID == id && s.reasoning == t.reasoning && s.tally == tally
  {
  }

  lemma EndClient(u: Setup, id: string, t: Told, n: nat)
    requires t.phase == AtEnd
    ensures var c := ClientFor(u, id, t, n); c.open == map[] && c.seen == n && c.finished == None
  {
  }

  // ---------- Agreement ----------

  /** One more event is accepted if it is accepted where the others lead. */
  lemma {:induction false} AcceptsLast(c: Client, events: seq<Event>, e: Event)
    requires AcceptsAll(c, events)
    ensures AcceptsAll(c, events + [e]) <==> Accepts(ObservedAll(c, events), e)
    decreases events
  {
    hide Accepts, Observed;
    if events == [] {
      assert events + [e] == [e] && [e][1..] == [];
    } else {
      assert (events + [e])[1..] == events[1..] + [e];
      AcceptsLast(Observed(c, events[0]), events[1..], e);
    }
  }

  /**
   * For every canonical stream, in whatever chunks, that carries one usage
   * object: id, output and usage of the completed event are those of the
   * non-streaming conversion of the message under the same response id, and
   * the output spells out what the stream told and the usage what its usage
   * object says. A strict client accepts all the other events, and it accepts
   * the completed one, in which position i is the item streamed with index i,
   * if and only if the tool indexes have no gap.
   */
  lemma StreamAgreesWithMessage(u: Setup, chunks: seq<Chunk>, id: string, usage: Usage, fallback: string, fallback': string)
    requires ValidSetup(u) && chunks != []
    requires Canonical(UNTOLD, StreamTells(chunks)) && Usages(chunks) == [usage]
    requires Given(chunks[0].id, fallback) == (if id == "" then fallback' else id)
    ensures var t := ToldBy(UNTOLD, StreamTells(chunks));
      var a := Streamed(INITIAL, u, chunks, fallback);
      var d, closing := Done(a.0, u), AllClosed(a.0, u).1;
      var response := Converted(u, Completion(id, [Some(MessageOf(t))], Some(usage)), fallback');
      && d.1 == closing + [Completed(d.0.n, response.id, response.output, response.usage)]
      && Spells(u, response.id, t.reasoning, t.content, MessageOf(t).calls, response.output)
      && Tells(usage, Bytes(t.reasoning), response.usage)
      && AcceptsAll(NEW_CLIENT, a.1 + closing)
      && (AcceptsAll(NEW_CLIENT, a.1 + d.1) <==> Gapless(t.calls.Keys))
  {
    hide StateFor, ClientFor, Done, Converted, Opened, StreamParts, StreamTells, Usages, Canonical, ToldBy, Proper, Gapless, AllClosed,
         MessageOf, Accepts, Taken, Tells, Spells;
    StreamPartsTell(chunks);
    var t, rid := ToldBy(UNTOLD, StreamParts(chunks)), Given(chunks[0].id, fallback);
    var opening := Opened(INITIAL, chunks[0].id, fallback);
    OpeningReaches(u, chunks[0].id, fallback);
    UntoldIsProper();
    RestReaches(u, rid, UNTOLD, 2, NO_TALLY, chunks, fallback);
    var rest := Streamed(opening.0, u, chunks, fallback);
    OpensThenRuns(u, chunks, fallback);
    var a := Streamed(INITIAL, u, chunks, fallback);
    var tally := TakenAll(NO_TALLY, [usage]);
    var c := ClientFor(u, rid, t, a.0.n);
    LeadsOn(NEW_CLIENT, opening.1, ClientFor(u, rid, UNTOLD, 2), rest.1, c);
    DoneReaches(u, rid, t, a.0.n, tally);
    OneTaken(usage);
    ReportTells(usage, Bytes(t.reasoning));
    MessageConverts(u, id, t, usage, fallback');
    MessageSpells(u, rid, t);
    Concludes(c, a.1, AllClosed(a.0, u).1, Done(a.0, u).1);
  }

  lemma MessageSpells(u: Setup, id: string, t: Told)
    ensures Spells(u, id, t.reasoning, t.content, MessageOf(t).calls,
      FrontItems(id, t.reasoning, t.content) + CallItems(u, CallList(t.calls)))
  {
    hide Spells, FrontItems, CallItems, CallList;
    OutputSpells(u, id, t.reasoning, t.content, CallList(t.calls));
  }

  /** The events of the end, after those of the stream. */
  lemma Concludes(c: Client, before: seq<Event>, closing: seq<Event>, ending: seq<Event>)
    requires Leads(NEW_CLIENT, before, c) && AcceptsAll(c, closing)
    requires ending != [] && ending == closing + [ending[|ending| - 1]]
    ensures AcceptsAll(NEW_CLIENT, before + closing)
    ensures AcceptsAll(NEW_CLIENT, before + ending) <==> Accepts(ObservedAll(c, closing), ending[|ending| - 1])
  {
    hide Accepts, Observed, AcceptsAll, ObservedAll;
    var e := ending[|ending| - 1];
    AcceptsMore(NEW_CLIENT, before, closing);
    AcceptsLast(NEW_CLIENT, before + closing, e);
    assert before + ending == (before + closing) + [e];
  }

  lemma UntoldIsProper()
    ensures Proper(UNTOLD)
  {
  }

  lemma OneTaken(usage: Usage)
    ensures TakenAll(NO_TALLY, [usage]) == Taken(NO_TALLY, usage)
  {
    hide Taken;
    assert TakenAll(Taken(NO_TALLY, usage), [usage][1..]) == Taken(NO_TALLY, usage);
  }

  lemma MessageConverts(u: Setup, id: string, t: Told, usage: Usage, fallback: string)
    ensures var rid := if id == "" then fallback else id;
      Converted(u, Completion(id, [Some(MessageOf(t))], Some(usage)), fallback) ==
        Response(rid, FrontItems(rid, t.reasoning, t.content) + CallItems(u, CallList(t.calls)),
          Reported(Taken(NO_TALLY, usage), Bytes(t.reasoning)))
  {
    hide FrontItems, CallItems, Reported, Taken, Bytes, CallList;
    var message := MessageOf(t);
    var choices := [Some(message)];
    assert choices[..0] == [];
    assert Reasonings(choices) == "" + message.reasoning == message.reasoning;
    assert Contents(choices) == "" + message.content == message.content;
    assert AllCalls(u, choices) == [] + CallItems(u, message.calls) == CallItems(u, message.calls);
  }

  /** A call at index 1 without one at index 0: the completed event puts it at position 0. */
  lemma SkippedIndexIsMisplaced(u: Setup, id: string, call: Call, n: nat)
    requires call.id != "" && call.name != ""
    ensures var t := Told(AtEnd, "", "", map[1 := call]);
      && Proper(t)
      && MessageOf(t).calls == [call]
      && !Positioned(CallItems(u, [call]), ClientFor(u, id, t, n).done)
  {
    hide FrontDone, Front, ToolItem, ToolResults, CallItem, CallItems, ClientFor, Positioned;
    var t := Told(AtEnd, "", "", map[1 := call]);
    assert t.calls.Keys == {1};
    OnlyOneOrder(Sorted({1}), [1], {1});
    assert CallList(t.calls) == [call];
    OutputIsPositioned(u, id, t, n);
    assert 0 !in t.calls.Keys && |t.calls.Keys| == 1;
    assert FrontItems(id, "", "") + CallItems(u, [call]) == CallItems(u, [call]);
  }
}
