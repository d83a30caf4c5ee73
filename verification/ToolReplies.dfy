// When the reordering puts the replies behind every answered tool call.
module ToolReplies {
  import opened Common
  import opened ToolCallOrder

  function RepliesTo(ms: seq<Message>, id: string): nat {
    if ms == [] then 0 else (if ReplyID(ms[0]) == id then 1 else 0) + RepliesTo(ms[1..], id)
  }

  /** The first message calls tools, and each call is answered later. */
  predicate Answered(ms: seq<Message>) {
    && ms != [] && CallIDs(ms[0]) != {}
    && forall id :: id in CallIDs(ms[0]) ==> RepliesTo(ms[1..], id) > 0
  }

  predicate AnsweredAt(ms: seq<Message>, p: nat) {
    p < |ms| && Answered(ms[p..])
  }

  /** How many answered messages use a call id. */
  function Callers(ms: seq<Message>, id: string): nat {
    if ms == [] then 0 else (if Answered(ms) && id in CallIDs(ms[0]) then 1 else 0) + Callers(ms[1..], id)
  }

  /** Behind every answered message, each of its ids has a reply for every answered message from there on. */
  predicate EnoughReplies(ms: seq<Message>) {
    ms != [] ==>
      && (Answered(ms) ==> forall id :: id in CallIDs(ms[0]) ==> Callers(ms, id) <= RepliesTo(ms[1..], id))
      && EnoughReplies(ms[1..])
  }

  /** The message at q is followed by one reply to each of its calls. */
  predicate BlockAt(ms: seq<Message>, q: nat) {
    && q < |ms|
    && var n := |CallIDs(ms[q])|;
       && q + n < |ms|
       && AllReplies(ms[q + 1..q + 1 + n])
       && Replies(ms[q + 1..q + 1 + n]) == CallIDs(ms[q])
  }

  ghost predicate FollowedByReplies(ms: seq<Message>, m: Message) {
    exists q: nat :: BlockAt(ms, q) && ms[q] == m
  }

  // ---------- What a scan leaves ----------

  /** ms without the first reply to each pending id. */
  function Kept(ms: seq<Message>, pending: set<string>): (k: seq<Message>)
    ensures |k| <= |ms|
  {
    if ms == [] then []
    else
      var id := ReplyID(ms[0]);
      if id != "" && id in pending then Kept(ms[1..], pending - {id}) else [ms[0]] + Kept(ms[1..], pending)
  }

  lemma {:induction false} KeptAll(ms: seq<Message>)
    ensures Kept(ms, {}) == ms
  {
    if ms != [] {
      KeptAll(ms[1..]);
    }
  }

  lemma {:induction false} ScanKeeps(ms: seq<Message>, pending: set<string>)
    ensures Scan(ms, pending).deferred + Scan(ms, pending).rest == Kept(ms, pending)
  {
    hide ReplyID;
    if ms == [] || pending == {} {
      KeptAll(ms);
    } else {
      var id := ReplyID(ms[0]);
      if id != "" && id in pending {
        ScanKeeps(ms[1..], pending - {id});
      } else {
        ScanKeeps(ms[1..], pending);
        var s := Scan(ms[1..], pending);
        assert ([ms[0]] + s.deferred) + s.rest == [ms[0]] + (s.deferred + s.rest);
      }
    }
  }

  lemma {:induction false} KeptReplies(ms: seq<Message>, pending: set<string>, id: string)
    requires "" !in pending && id != ""
    ensures RepliesTo(Kept(ms, pending), id)
         == RepliesTo(ms, id) - if id in pending && RepliesTo(ms, id) > 0 then 1 else 0
  {
    hide ReplyID;
    if ms != [] {
      var head := ReplyID(ms[0]);
      if head != "" && head in pending {
        KeptReplies(ms[1..], pending - {head}, id);
      } else {
        KeptReplies(ms[1..], pending, id);
        var k := Kept(ms[1..], pending);
        assert ([ms[0]] + k)[1..] == k;
      }
    }
  }

  /** Everything answered in ms is still answered without the first replies to the pending ids. */
  predicate KeepsAnswers(ms: seq<Message>, pending: set<string>) {
    ms != [] ==>
      var id := ReplyID(ms[0]);
      if id != "" && id in pending then KeepsAnswers(ms[1..], pending - {id})
      else
        && (Answered(ms) ==> Answered([ms[0]] + Kept(ms[1..], pending)))
        && KeepsAnswers(ms[1..], pending)
  }

  lemma ReplyIsNoCaller(m: Message)
    ensures ReplyID(m) != "" ==> CallIDs(m) == {}
    ensures "" !in CallIDs(m)
  {
  }

  lemma {:induction false} EnoughInAll(ms: seq<Message>, id: string)
    requires EnoughReplies(ms)
    ensures Callers(ms, id) <= RepliesTo(ms, id)
  {
    if ms != [] && !(Answered(ms) && id in CallIDs(ms[0])) {
      EnoughInAll(ms[1..], id);
    }
  }

  /** The head of a list whose tail is thinned out by a scan. */
  lemma HeadKept(ms: seq<Message>, pending: set<string>)
    requires ms != [] && "" !in pending
    ensures Answered([ms[0]] + Kept(ms[1..], pending)) ==> Answered(ms)
    ensures Answered(ms) && (forall id :: id in CallIDs(ms[0]) && id in pending ==> RepliesTo(ms[1..], id) > 1) ==>
      Answered([ms[0]] + Kept(ms[1..], pending))
  {
    hide CallIDs, ReplyID;
    var k := Kept(ms[1..], pending);
    assert ([ms[0]] + k)[1..] == k;
    ReplyIsNoCaller(ms[0]);
    forall id | id in CallIDs(ms[0])
      ensures RepliesTo(k, id) == RepliesTo(ms[1..], id) - if id in pending && RepliesTo(ms[1..], id) > 0 then 1 else 0
    {
      KeptReplies(ms[1..], pending, id);
    }
  }

  lemma {:induction false} SameCallers(ms: seq<Message>, pending: set<string>, id: string)
    requires "" !in pending && KeepsAnswers(ms, pending)
    ensures Callers(Kept(ms, pending), id) == Callers(ms, id)
  {
    hide CallIDs, ReplyID, Answered;
    if ms != [] {
      var head := ReplyID(ms[0]);
      if head != "" && head in pending {
        SameCallers(ms[1..], pending - {head}, id);
        NotAnswered(ms);
      } else {
        SameCallers(ms[1..], pending, id);
        HeadKept(ms, pending);
        var k := Kept(ms[1..], pending);
        assert ([ms[0]] + k)[1..] == k;
      }
    }
  }

  lemma NotAnswered(ms: seq<Message>)
    ensures ms != [] && ReplyID(ms[0]) != "" ==> !Answered(ms)
  {
  }

  /** With a spare reply to each pending id, the scan takes nothing that somebody else needs. */
  lemma {:induction false} EnoughSurvives(ms: seq<Message>, pending: set<string>)
    requires "" !in pending && EnoughReplies(ms)
    requires forall id :: id in pending ==> Callers(ms, id) < RepliesTo(ms, id)
    ensures KeepsAnswers(ms, pending) && EnoughReplies(Kept(ms, pending))
  {
    hide CallIDs, ReplyID, Answered;
    if ms != [] {
      var head := ReplyID(ms[0]);
      if head != "" && head in pending {
        NotAnswered(ms);
        EnoughSurvives(ms[1..], pending - {head});
      } else {
        EnoughSurvives(ms[1..], pending);
        EnoughAtHead(ms, pending);
        var k := Kept(ms[1..], pending);
        assert ([ms[0]] + k)[1..] == k;
      }
    }
  }

  lemma EnoughAtHead(ms: seq<Message>, pending: set<string>)
    requires "" !in pending && ms != [] && EnoughReplies(ms) && KeepsAnswers(ms[1..], pending)
    requires ReplyID(ms[0]) == "" || ReplyID(ms[0]) !in pending
    requires forall id :: id in pending ==> Callers(ms, id) < RepliesTo(ms, id)
    ensures Answered(ms) ==> Answered([ms[0]] + Kept(ms[1..], pending))
    ensures var k := Kept(ms[1..], pending);
      Answered([ms[0]] + k) ==> forall id :: id in CallIDs(ms[0]) ==> Callers([ms[0]] + k, id) <= RepliesTo(k, id)
  {
    hide CallIDs, ReplyID, Answered;
    var k := Kept(ms[1..], pending);
    assert ([ms[0]] + k)[1..] == k;
    ReplyIsNoCaller(ms[0]);
    HeadKept(ms, pending);
    forall id | id in CallIDs(ms[0])
      ensures Answered(ms) ==> Callers(ms, id) <= RepliesTo(k, id)
      ensures Callers(k, id) == Callers(ms[1..], id)
    {
      KeptReplies(ms[1..], pending, id);
      SameCallers(ms[1..], pending, id);
    }
  }

  /** If the scan takes nothing that somebody else needs, there was a spare reply to each pending id. */
  lemma {:induction false} EnoughReturns(ms: seq<Message>, pending: set<string>)
    requires "" !in pending && KeepsAnswers(ms, pending) && EnoughReplies(Kept(ms, pending))
    ensures EnoughReplies(ms)
    ensures forall id :: id in pending && RepliesTo(ms, id) > 0 ==> Callers(ms, id) < RepliesTo(ms, id)
  {
    hide CallIDs, ReplyID, Answered;
    if ms != [] {
      var head := ReplyID(ms[0]);
      if head != "" && head in pending {
        NotAnswered(ms);
        EnoughReturns(ms[1..], pending - {head});
      } else {
        var k := Kept(ms[1..], pending);
        assert ([ms[0]] + k)[1..] == k;
        EnoughReturns(ms[1..], pending);
        EnoughWasAtHead(ms, pending);
      }
    }
    forall id | id in pending && RepliesTo(ms, id) > 0
      ensures Callers(ms, id) < RepliesTo(ms, id)
    {
      KeptReplies(ms, pending, id);
      SameCallers(ms, pending, id);
      EnoughInAll(Kept(ms, pending), id);
    }
  }

  lemma EnoughWasAtHead(ms: seq<Message>, pending: set<string>)
    requires "" !in pending && ms != [] && (ReplyID(ms[0]) == "" || ReplyID(ms[0]) !in pending)
    requires KeepsAnswers(ms, pending) && EnoughReplies(Kept(ms, pending))
    ensures Answered(ms) ==> forall id :: id in CallIDs(ms[0]) ==> Callers(ms, id) <= RepliesTo(ms[1..], id)
  {
    hide CallIDs, ReplyID, Answered;
    var k := Kept(ms[1..], pending);
    assert ([ms[0]] + k)[1..] == k;
    ReplyIsNoCaller(ms[0]);
    forall id | id in CallIDs(ms[0])
      ensures Answered(ms) ==> Callers(ms, id) <= RepliesTo(ms[1..], id)
    {
      KeptReplies(ms[1..], pending, id);
      SameCallers(ms, pending, id);
    }
  }

  // ---------- One step of the reordering ----------

  lemma {:induction false} RepliesCounted(ms: seq<Message>, id: string)
    requires id != ""
    ensures id in Replies(ms) <==> RepliesTo(ms, id) > 0
  {
    hide ReplyID;
    if ms != [] {
      RepliesCounted(ms[1..], id);
      RepliesCons(ms[0], ms[1..]);
      assert ms == [ms[0]] + ms[1..];
    }
  }

  lemma AnsweredMeansNoneLeft(ms: seq<Message>)
    requires ms != []
    ensures Answered(ms) <==> CallIDs(ms[0]) != {} && Scan(ms[1..], CallIDs(ms[0])).left == {}
  {
    hide CallIDs, ReplyID, Replies, Scan;
    var ids := CallIDs(ms[0]);
    ReplyIsNoCaller(ms[0]);
    ScanLeft(ms[1..], ids);
    forall id | id in ids
      ensures id in Replies(ms[1..]) <==> RepliesTo(ms[1..], id) > 0
    {
      RepliesCounted(ms[1..], id);
    }
    var replies := Replies(ms[1..]);
    assert ids - replies == {} <==> forall id :: id in ids ==> id in replies by {
      assert forall id :: id in ids - replies <==> id in ids && id !in replies;
    }
  }

  lemma UnansweredStep(ms: seq<Message>)
    requires ms != [] && !Answered(ms)
    ensures Normalize(ms) == [ms[0]] + Normalize(ms[1..])
  {
    hide CallIDs, Scan, Answered;
    AnsweredMeansNoneLeft(ms);
  }

  /** An answered message is followed by its replies and what the scan leaves. */
  lemma AnsweredStep(ms: seq<Message>) returns (tools: seq<Message>)
    requires Answered(ms)
    ensures AllReplies(tools) && |tools| == |CallIDs(ms[0])| && Replies(tools) == CallIDs(ms[0])
    ensures Normalize(ms) == ([ms[0]] + tools) + Normalize(Kept(ms[1..], CallIDs(ms[0])))
  {
    hide CallIDs, ReplyID, Replies, Scan, Normalize, RepliesTo, AllReplies;
    var ids := CallIDs(ms[0]);
    tools := Scan(ms[1..], ids).tools;
    AnsweredMeansNoneLeft(ms);
    ReplyIsNoCaller(ms[0]);
    ScanTakesOnePerID(ms[1..], ids);
    ScanFindsTools(ms[1..], ids, []);
    NormalizeAnswered(ms);
    ScanKeeps(ms[1..], ids);
  }

  lemma BlockShifts(pre: seq<Message>, ms: seq<Message>, q: nat)
    requires q < |ms|
    ensures BlockAt(pre + ms, |pre| + q) <==> BlockAt(ms, q)
    ensures (pre + ms)[|pre| + q] == ms[q]
  {
    hide CallIDs, Replies, AllReplies;
    var n := |CallIDs(ms[q])|;
    if q + n < |ms| {
      assert (pre + ms)[|pre| + q + 1..|pre| + q + 1 + n] == ms[q + 1..q + 1 + n];
    }
  }

  lemma AnsweredGetsBlock(ms: seq<Message>)
    requires Answered(ms)
    ensures BlockAt(Normalize(ms), 0) && Normalize(ms)[0] == ms[0]
  {
    hide CallIDs, Replies, Normalize, AllReplies;
    var tools := AnsweredStep(ms);
    assert Normalize(ms)[1..1 + |tools|] == tools;
  }

  // ---------- Positions before and after a scan ----------

  lemma AnsweredTail(ms: seq<Message>, p: nat)
    requires ms != []
    ensures AnsweredAt(ms, p + 1) <==> AnsweredAt(ms[1..], p)
    ensures p + 1 < |ms| ==> ms[p + 1] == ms[1..][p]
  {
    hide Answered;
    if p + 1 < |ms| {
      assert ms[1..][p..] == ms[p + 1..];
    }
  }

  lemma AnsweredCons(m: Message, ms: seq<Message>, p: nat)
    ensures AnsweredAt([m] + ms, p + 1) <==> AnsweredAt(ms, p)
    ensures p < |ms| ==> ([m] + ms)[p + 1] == ms[p]
  {
    hide Answered;
    assert ([m] + ms)[1..] == ms;
    AnsweredTail([m] + ms, p);
  }

  /** Where an answered message stands after the scan. */
  lemma {:induction false} KeptPosition(ms: seq<Message>, pending: set<string>, p: nat) returns (p': nat)
    requires KeepsAnswers(ms, pending) && AnsweredAt(ms, p)
    ensures AnsweredAt(Kept(ms, pending), p') && Kept(ms, pending)[p'] == ms[p]
  {
    hide CallIDs, ReplyID, Answered;
    var id := ReplyID(ms[0]);
    NotAnswered(ms);
    assert ms[0..] == ms;
    if id != "" && id in pending {
      AnsweredTail(ms, p - 1);
      p' := KeptPosition(ms[1..], pending - {id}, p - 1);
    } else {
      var k := Kept(ms[1..], pending);
      if p == 0 {
        assert ([ms[0]] + k)[0..] == [ms[0]] + k;
        p' := 0;
      } else {
        AnsweredTail(ms, p - 1);
        var q := KeptPosition(ms[1..], pending, p - 1);
        AnsweredCons(ms[0], k, q);
        p' := q + 1;
      }
    }
  }

  /** Whoever is answered after the scan was answered before. */
  lemma {:induction false} KeptFrom(ms: seq<Message>, pending: set<string>, p': nat) returns (p: nat)
    requires "" !in pending && AnsweredAt(Kept(ms, pending), p')
    ensures AnsweredAt(ms, p) && ms[p] == Kept(ms, pending)[p']
  {
    hide CallIDs, ReplyID, Answered;
    var id := ReplyID(ms[0]);
    assert ms[0..] == ms;
    if id != "" && id in pending {
      var q := KeptFrom(ms[1..], pending - {id}, p');
      AnsweredTail(ms, q);
      p := q + 1;
    } else {
      var k := Kept(ms[1..], pending);
      if p' == 0 {
        assert ([ms[0]] + k)[0..] == [ms[0]] + k;
        HeadKept(ms, pending);
        p := 0;
      } else {
        AnsweredCons(ms[0], k, p' - 1);
        var q := KeptFrom(ms[1..], pending, p' - 1);
        AnsweredTail(ms, q);
        p := q + 1;
      }
    }
  }

  // ---------- Enough replies serve everybody ----------

  lemma {:induction false} EnoughServes(ms: seq<Message>, p: nat) returns (q: nat)
    requires EnoughReplies(ms) && AnsweredAt(ms, p)
    ensures BlockAt(Normalize(ms), q) && Normalize(ms)[q] == ms[p]
    decreases |ms|
  {
    hide CallIDs, Normalize, BlockAt, Answered, Replies, AllReplies, AnsweredAt;
    assert AnsweredAt(ms, p) && p == 0 ==> Answered(ms) by { HeadAnswered(ms); }
    assert p < |ms| by { AnsweredInRange(ms, p); }
    if p == 0 {
      AnsweredGetsBlock(ms);
      q := 0;
    } else {
      AnsweredTail(ms, p - 1);
      if Answered(ms) {
        var ids := CallIDs(ms[0]);
        ReplyIsNoCaller(ms[0]);
        ReplyToTail(ms);
        EnoughSurvives(ms[1..], ids);
        var tools := AnsweredStep(ms);
        var p' := KeptPosition(ms[1..], ids, p - 1);
        var r := EnoughServes(Kept(ms[1..], ids), p');
        assert r < |Normalize(Kept(ms[1..], ids))| by { BlockInRange(Normalize(Kept(ms[1..], ids)), r); }
        BlockShifts([ms[0]] + tools, Normalize(Kept(ms[1..], ids)), r);
        q := 1 + |tools| + r;
      } else {
        UnansweredStep(ms);
        var r := EnoughServes(ms[1..], p - 1);
        assert r < |Normalize(ms[1..])| by { BlockInRange(Normalize(ms[1..]), r); }
        BlockShifts([ms[0]], Normalize(ms[1..]), r);
        q := 1 + r;
      }
    }
  }

  lemma HeadAnswered(ms: seq<Message>)
    ensures AnsweredAt(ms, 0) <==> Answered(ms)
  {
    assert ms[0..] == ms;
  }

  lemma AnsweredInRange(ms: seq<Message>, p: nat)
    requires AnsweredAt(ms, p)
    ensures p < |ms|
  {
  }

  lemma BlockInRange(ms: seq<Message>, q: nat)
    requires BlockAt(ms, q)
    ensures q < |ms|
  {
  }

  /** An answered caller needs one reply more than the callers behind it. */
  lemma ReplyToTail(ms: seq<Message>)
    requires ms != [] && Answered(ms) && EnoughReplies(ms)
    ensures forall id :: id in CallIDs(ms[0]) ==> Callers(ms[1..], id) < RepliesTo(ms[1..], id)
  {
    hide CallIDs, Answered;
    forall id | id in CallIDs(ms[0])
      ensures Callers(ms[1..], id) < RepliesTo(ms[1..], id)
    {
      assert Callers(ms, id) == 1 + Callers(ms[1..], id);
    }
  }

  // ---------- Whoever is served was answered and had enough ----------

  lemma HeadBlockWasAnswered(ms: seq<Message>)
    requires ms != [] && CallIDs(ms[0]) != {} && Normalize(ms) != [] && Normalize(ms)[0] == ms[0]
    requires BlockAt(Normalize(ms), 0)
    ensures AnsweredAt(ms, 0)
  {
    hide CallIDs, ReplyID, Replies, Normalize;
    var out, ids := Normalize(ms), CallIDs(ms[0]);
    NormalizePermutes(ms);
    SameTails(out, ms);
    SameReplies(out[1..], ms[1..]);
    ReplyIsNoCaller(ms[0]);
    assert out[1..1 + |ids|] + out[1 + |ids|..] == out[1..];
    RepliesOfPart(out[1..1 + |ids|], out[1 + |ids|..]);
    forall id | id in ids
      ensures RepliesTo(ms[1..], id) > 0
    {
      RepliesCounted(ms[1..], id);
    }
    HeadAnswered(ms);
  }

  lemma SameTails(a: seq<Message>, b: seq<Message>)
    requires a != [] && b != [] && a[0] == b[0] && multiset(a) == multiset(b)
    ensures multiset(a[1..]) == multiset(b[1..])
  {
    assert a == [a[0]] + a[1..] && b == [b[0]] + b[1..];
    assert multiset(a[1..]) == multiset(a) - multiset([a[0]]);
    assert multiset(b[1..]) == multiset(b) - multiset([b[0]]);
  }

  lemma RepliesOfPart(a: seq<Message>, b: seq<Message>)
    ensures Replies(a) <= Replies(a + b)
  {
    assert forall m :: m in a ==> m in a + b;
  }

  /** The replies behind a message never come from before it. */
  lemma {:induction false} BlockWasAnswered(ms: seq<Message>, q: nat) returns (p: nat)
    requires BlockAt(Normalize(ms), q) && CallIDs(Normalize(ms)[q]) != {}
    ensures AnsweredAt(ms, p) && ms[p] == Normalize(ms)[q]
    decreases |ms|
  {
    hide CallIDs, ReplyID, Normalize, BlockAt, Answered, Replies, AllReplies, AnsweredAt;
    var out := Normalize(ms);
    assert q < |out| by { BlockInRange(out, q); }
    if Answered(ms) {
      assert ms != [] by { HeadAnswered(ms); AnsweredInRange(ms, 0); }
      var ids := CallIDs(ms[0]);
      var tools := AnsweredStep(ms);
      var k := Kept(ms[1..], ids);
      if q == 0 {
        HeadAnswered(ms);
        p := 0;
      } else {
        assert q > |tools| by { ToolsCallNothing(tools, q - 1, out[q]); }
        var r := q - 1 - |tools|;
        BlockShifts([ms[0]] + tools, Normalize(k), r);
        var p' := BlockWasAnswered(k, r);
        ReplyIsNoCaller(ms[0]);
        var p'' := KeptFrom(ms[1..], ids, p');
        AnsweredTail(ms, p'');
        assert p'' < |ms[1..]| by { AnsweredInRange(ms[1..], p''); }
        p := p'' + 1;
      }
    } else {
      UnansweredStep(ms);
      if q == 0 {
        HeadBlockWasAnswered(ms);
        p := 0;
      } else {
        BlockShifts([ms[0]], Normalize(ms[1..]), q - 1);
        var p' := BlockWasAnswered(ms[1..], q - 1);
        AnsweredTail(ms, p');
        assert p' < |ms[1..]| by { AnsweredInRange(ms[1..], p'); }
        p := p' + 1;
      }
    }
  }

  lemma ToolsCallNothing(tools: seq<Message>, i: nat, m: Message)
    requires AllReplies(tools) && CallIDs(m) != {} && (i < |tools| ==> tools[i] == m)
    ensures i >= |tools|
  {
  }

  ghost predicate AllServed(ms: seq<Message>) {
    forall p: nat :: AnsweredAt(ms, p) ==> FollowedByReplies(Normalize(ms), ms[p])
  }

  ghost predicate StillAnswered(ms: seq<Message>, m: Message) {
    exists p: nat :: AnsweredAt(ms, p) && ms[p] == m
  }

  /** With distinct messages, answers are kept if every answered message still is answered somewhere. */
  lemma {:induction false} AnswersKept(ms: seq<Message>, pending: set<string>)
    requires Distinct(ms)
    requires forall p: nat :: AnsweredAt(ms, p) ==> StillAnswered(Kept(ms, pending), ms[p])
    ensures KeepsAnswers(ms, pending)
  {
    hide CallIDs, ReplyID, Answered;
    if ms != [] {
      var id := ReplyID(ms[0]);
      var skip := id != "" && id in pending;
      var rest := if skip then pending - {id} else pending;
      var k := Kept(ms[1..], rest);
      KeptWithin(ms[1..], rest);
      forall p: nat | AnsweredAt(ms[1..], p)
        ensures StillAnswered(k, ms[1..][p])
      {
        AnsweredTail(ms, p);
        if !skip {
          AnsweredBehind(ms[0], k, ms[p + 1]);
        }
      }
      AnswersKept(ms[1..], rest);
      if !skip && Answered(ms) {
        HeadAnswered(ms);
        AnsweredFirst(ms[0], k);
      }
    }
  }

  lemma {:induction false} KeptWithin(ms: seq<Message>, pending: set<string>)
    ensures forall m :: m in Kept(ms, pending) ==> m in ms
    ensures Distinct(ms) ==> Distinct(Kept(ms, pending))
  {
    hide ReplyID;
    if ms != [] {
      var id := ReplyID(ms[0]);
      var rest := if id != "" && id in pending then pending - {id} else pending;
      KeptWithin(ms[1..], rest);
      assert forall m :: m in ms[1..] ==> m in ms;
      if Distinct(ms) {
        assert ms[0] !in ms[1..];
        assert Distinct(ms[1..]);
      }
    }
  }

  lemma AnsweredBehind(h: Message, k: seq<Message>, m: Message)
    requires StillAnswered([h] + k, m) && m != h
    ensures StillAnswered(k, m)
  {
    hide Answered;
    var p: nat :| AnsweredAt([h] + k, p) && ([h] + k)[p] == m;
    AnsweredCons(h, k, p - 1);
  }

  lemma AnsweredFirst(h: Message, k: seq<Message>)
    requires StillAnswered([h] + k, h) && h !in k
    ensures Answered([h] + k)
  {
    hide Answered;
    assert forall i :: 0 < i < |[h] + k| ==> ([h] + k)[i] in k;
    var p: nat :| AnsweredAt([h] + k, p) && ([h] + k)[p] == h;
    HeadAnswered([h] + k);
  }

  /** Someone behind the front is served there or not at all. */
  lemma ServedBehind(front: seq<Message>, ms: seq<Message>, m: Message)
    requires FollowedByReplies(front + ms, m) && m !in front
    ensures FollowedByReplies(ms, m)
  {
    hide CallIDs, Replies, AllReplies;
    assert forall i :: 0 <= i < |front| ==> (front + ms)[i] in front;
    var q: nat :| BlockAt(front + ms, q) && (front + ms)[q] == m;
    BlockShifts(front, ms, q - |front|);
  }

  lemma UnansweredServed(ms: seq<Message>)
    requires Distinct(ms) && AllServed(ms) && ms != [] && !Answered(ms)
    ensures Distinct(ms[1..]) && AllServed(ms[1..])
  {
    hide Answered, Normalize, BlockAt;
    UnansweredStep(ms);
    forall p: nat | AnsweredAt(ms[1..], p)
      ensures FollowedByReplies(Normalize(ms[1..]), ms[1..][p])
    {
      AnsweredTail(ms, p);
      ServedBehind([ms[0]], Normalize(ms[1..]), ms[p + 1]);
    }
  }

  /** Behind an answered message the others are served among what the scan leaves. */
  lemma AnsweredServed(ms: seq<Message>)
    requires Distinct(ms) && AllServed(ms) && Answered(ms) && ms != []
    ensures var k := Kept(ms[1..], CallIDs(ms[0]));
      forall p: nat :: AnsweredAt(ms[1..], p) ==> FollowedByReplies(Normalize(k), ms[1..][p])
  {
    hide RepliesTo, CallIDs, Normalize, BlockAt, Kept, Replies, AllReplies;
    var tools := AnsweredStep(ms);
    var k := Kept(ms[1..], CallIDs(ms[0]));
    forall p: nat | AnsweredAt(ms[1..], p)
      ensures FollowedByReplies(Normalize(k), ms[1..][p])
    {
      AnsweredTail(ms, p);
      assert ms[1..][p..][0] == ms[p + 1];
      CallerNotIn(tools, ms[p + 1]);
      ServedBehind([ms[0]] + tools, Normalize(k), ms[p + 1]);
    }
  }

  lemma CallerNotIn(tools: seq<Message>, m: Message)
    requires AllReplies(tools) && CallIDs(m) != {}
    ensures m !in tools
  {
  }

  lemma KeptServed(ms: seq<Message>)
    requires Distinct(ms) && AllServed(ms) && Answered(ms) && ms != []
    ensures var ids := CallIDs(ms[0]); KeepsAnswers(ms[1..], ids) && AllServed(Kept(ms[1..], ids))
  {
    hide RepliesTo, CallIDs, Normalize, BlockAt, Kept, KeepsAnswers;
    var ids := CallIDs(ms[0]);
    var k := Kept(ms[1..], ids);
    AnsweredServed(ms);
    ReplyIsNoCaller(ms[0]);
    forall p: nat | AnsweredAt(ms[1..], p)
      ensures StillAnswered(k, ms[1..][p])
    {
      assert ms[1..][p..][0] == ms[1..][p];
      ServedStill(k, ms[1..][p]);
    }
    AnswersKept(ms[1..], ids);
    forall p': nat | AnsweredAt(k, p')
      ensures FollowedByReplies(Normalize(k), k[p'])
    {
      var p := KeptFrom(ms[1..], ids, p');
    }
  }

  lemma ServedStill(ms: seq<Message>, m: Message)
    requires FollowedByReplies(Normalize(ms), m) && CallIDs(m) != {}
    ensures StillAnswered(ms, m)
  {
    hide CallIDs, Replies, AllReplies, Normalize, Answered;
    var q: nat :| BlockAt(Normalize(ms), q) && Normalize(ms)[q] == m;
    var p := BlockWasAnswered(ms, q);
  }

  lemma {:induction false} ServedHasEnough(ms: seq<Message>)
    requires Distinct(ms) && AllServed(ms)
    ensures EnoughReplies(ms)
    decreases |ms|
  {
    hide Answered, CallIDs, AllServed, KeepsAnswers, Kept;
    if ms == [] {
    } else if Answered(ms) {
      var ids := CallIDs(ms[0]);
      KeptServed(ms);
      KeptWithin(ms[1..], ids);
      ServedHasEnough(Kept(ms[1..], ids));
      ReplyIsNoCaller(ms[0]);
      EnoughReturns(ms[1..], ids);
      CallsAnswered(ms);
    } else {
      UnansweredServed(ms);
      ServedHasEnough(ms[1..]);
    }
  }

  lemma CallsAnswered(ms: seq<Message>)
    requires Answered(ms)
    ensures ms != [] && forall id :: id in CallIDs(ms[0]) ==> RepliesTo(ms[1..], id) > 0
  {
  }

  // ---------- Telling equal messages apart ----------

  /** The same messages with other bodies. */
  function Rebody(ms: seq<Message>, f: int -> int): (r: seq<Message>)
    ensures |r| == |ms|
    ensures forall i :: 0 <= i < |r| ==> r[i] == ms[i].(body := f(ms[i].body))
  {
    seq(|ms|, i requires 0 <= i < |ms| => ms[i].(body := f(ms[i].body)))
  }

  /** Every message marked with its position. */
  function Tagged(ms: seq<Message>): (r: seq<Message>)
    ensures |r| == |ms|
    ensures forall i :: 0 <= i < |r| ==> r[i] == ms[i].(body := i)
    ensures Distinct(r)
  {
    seq(|ms|, i requires 0 <= i < |ms| => ms[i].(body := i))
  }

  lemma SameFields(m: Message, b: int)
    ensures CallIDs(m.(body := b)) == CallIDs(m) && ReplyID(m.(body := b)) == ReplyID(m)
  {
  }

  lemma {:induction false} ScanRebody(ms: seq<Message>, f: int -> int, pending: set<string>)
    ensures var s := Scan(ms, pending);
      Scan(Rebody(ms, f), pending) == ScanResult(Rebody(s.tools, f), Rebody(s.deferred, f), Rebody(s.rest, f), s.left)
  {
    hide CallIDs, ReplyID;
    if ms != [] && pending != {} {
      var id := ReplyID(ms[0]);
      SameFields(ms[0], f(ms[0].body));
      assert Rebody(ms, f)[1..] == Rebody(ms[1..], f);
      ScanRebody(ms[1..], f, if id != "" && id in pending then pending - {id} else pending);
    }
  }

  lemma RebodyAppend(a: seq<Message>, b: seq<Message>, f: int -> int)
    ensures Rebody(a + b, f) == Rebody(a, f) + Rebody(b, f)
  {
  }

  lemma StepRebody(ms: seq<Message>, f: int -> int)
    requires ms != []
    ensures Front(Rebody(ms, f)) == Rebody(Front(ms), f)
    ensures Remainder(Rebody(ms, f)) == Rebody(Remainder(ms), f)
  {
    hide CallIDs, ReplyID, Scan, Rebody;
    var r := Rebody(ms, f);
    var s := Scan(ms[1..], CallIDs(ms[0]));
    SameFields(ms[0], f(ms[0].body));
    assert r[1..] == Rebody(ms[1..], f);
    assert [r[0]] == Rebody([ms[0]], f);
    ScanRebody(ms[1..], f, CallIDs(ms[0]));
    RebodyAppend([ms[0]], s.tools, f);
    RebodyAppend(s.deferred, s.rest, f);
  }

  /** The reordering does not look at bodies. */
  lemma {:induction false} NormalizeRebody(ms: seq<Message>, f: int -> int)
    ensures Normalize(Rebody(ms, f)) == Rebody(Normalize(ms), f)
    decreases |ms|
  {
    if ms == [] {
      assert Rebody(ms, f) == [];
    } else {
      hide Front, Remainder, Rebody;
      assert |Front(ms)| > 0 by { FrontNotEmpty(ms); }
      StepRebody(ms, f);
      NormalizeRebody(Remainder(ms), f);
      RebodyAppend(Front(ms), Normalize(Remainder(ms)), f);
    }
  }

  lemma {:induction false} RepliesRebody(ms: seq<Message>, f: int -> int, id: string)
    ensures RepliesTo(Rebody(ms, f), id) == RepliesTo(ms, id)
  {
    hide ReplyID;
    if ms != [] {
      SameFields(ms[0], f(ms[0].body));
      assert Rebody(ms, f)[1..] == Rebody(ms[1..], f);
      RepliesRebody(ms[1..], f, id);
    }
  }

  lemma AnsweredRebody(ms: seq<Message>, f: int -> int)
    ensures Answered(Rebody(ms, f)) <==> Answered(ms)
  {
    hide CallIDs;
    if ms != [] {
      SameFields(ms[0], f(ms[0].body));
      assert Rebody(ms, f)[1..] == Rebody(ms[1..], f);
      forall id
        ensures RepliesTo(Rebody(ms, f)[1..], id) == RepliesTo(ms[1..], id)
      {
        RepliesRebody(ms[1..], f, id);
      }
    }
  }

  lemma {:induction false} CallersRebody(ms: seq<Message>, f: int -> int, id: string)
    ensures Callers(Rebody(ms, f), id) == Callers(ms, id)
  {
    hide CallIDs, Answered;
    if ms != [] {
      SameFields(ms[0], f(ms[0].body));
      assert Rebody(ms, f)[1..] == Rebody(ms[1..], f);
      AnsweredRebody(ms, f);
      CallersRebody(ms[1..], f, id);
    }
  }

  lemma {:induction false} EnoughRebody(ms: seq<Message>, f: int -> int)
    ensures EnoughReplies(Rebody(ms, f)) <==> EnoughReplies(ms)
  {
    hide CallIDs, Answered, Callers, RepliesTo;
    if ms != [] {
      SameFields(ms[0], f(ms[0].body));
      var r := Rebody(ms, f);
      assert r[1..] == Rebody(ms[1..], f);
      AnsweredRebody(ms, f);
      EnoughRebody(ms[1..], f);
      forall id
        ensures Callers(r, id) == Callers(ms, id) && RepliesTo(r[1..], id) == RepliesTo(ms[1..], id)
      {
        CallersRebody(ms, f, id);
        RepliesRebody(ms[1..], f, id);
      }
    }
  }

  lemma BlockRebody(ms: seq<Message>, f: int -> int, q: nat)
    ensures BlockAt(Rebody(ms, f), q) <==> BlockAt(ms, q)
  {
    hide CallIDs, ReplyID;
    if q < |ms| {
      SameFields(ms[q], f(ms[q].body));
      var n := |CallIDs(ms[q])|;
      if q + n < |ms| {
        var part := ms[q + 1..q + 1 + n];
        assert Rebody(ms, f)[q + 1..q + 1 + n] == Rebody(part, f);
        SetRebody(part, f);
        RolesRebody(part, f);
      }
    }
  }

  lemma RolesRebody(ms: seq<Message>, f: int -> int)
    ensures AllReplies(Rebody(ms, f)) <==> AllReplies(ms)
  {
    var r := Rebody(ms, f);
    assert forall i :: 0 <= i < |ms| ==> r[i].role == ms[i].role;
  }

  lemma SetRebody(ms: seq<Message>, f: int -> int)
    ensures Replies(Rebody(ms, f)) == Replies(ms)
  {
    hide Rebody, RepliesTo;
    var r := Rebody(ms, f);
    forall id: string
      ensures id in Replies(r) <==> id in Replies(ms)
    {
      if id != "" {
        RepliesRebody(ms, f, id);
        RepliesCounted(ms, id);
        RepliesCounted(r, id);
      }
    }
  }

  // ---------- When everybody is served ----------

  /** The message at p ends up at q. */
  predicate EndsAt(ms: seq<Message>, p: nat, q: nat) {
    p < |ms| && q < |ms| && Normalize(Tagged(ms))[q] == Tagged(ms)[p]
  }

  lemma Untag(ms: seq<Message>) returns (f: int -> int)
    ensures Rebody(Tagged(ms), f) == ms
  {
    f := i => if 0 <= i < |ms| then ms[i].body else 0;
  }

  lemma DistinctOnce(a: seq<Message>, b: seq<Message>)
    requires Distinct(a) && multiset(a) == multiset(b)
    ensures Distinct(b)
  {
    forall i, j | 0 <= i < j < |b|
      ensures b[i] != b[j]
    {
      if b[i] == b[j] {
        assert b == b[..j] + [b[j]] + b[j + 1..] && b[i] in b[..j];
        assert multiset(a)[b[i]] >= 2;
        AtMostOnce(a, b[i]);
      }
    }
  }

  lemma {:induction false} AtMostOnce(a: seq<Message>, m: Message)
    requires Distinct(a)
    ensures multiset(a)[m] <= 1
  {
    if a != [] {
      assert a == [a[0]] + a[1..];
      AtMostOnce(a[1..], m);
    }
  }

  /** Every message ends up in one place, as it is. */
  lemma EndsOnce(ms: seq<Message>, p: nat) returns (q: nat)
    requires p < |ms|
    ensures EndsAt(ms, p, q) && Normalize(ms)[q] == ms[p]
    ensures forall q': nat :: EndsAt(ms, p, q') ==> q' == q
  {
    hide Normalize;
    var t := Tagged(ms);
    NormalizePermutes(t);
    DistinctOnce(t, Normalize(t));
    assert t[p] in multiset(t) && t[p] in multiset(Normalize(t));
    q :| 0 <= q < |Normalize(t)| && Normalize(t)[q] == t[p];
    var f := Untag(ms);
    NormalizeRebody(t, f);
  }

  /**
   * Each assistant message whose calls are all answered later ends up directly
   * in front of one reply per call, if and only if replies suffice: behind
   * every such message, each of its ids has at least as many replies as there
   * are such messages using it from there on.
   */
  lemma RepliesFollowExactlyWhen(ms: seq<Message>)
    ensures EnoughReplies(ms) <==>
      forall p: nat, q: nat :: AnsweredAt(ms, p) && EndsAt(ms, p, q) ==> BlockAt(Normalize(ms), q)
  {
    hide Normalize, BlockAt, Answered, EnoughReplies;
    var t := Tagged(ms);
    var f := Untag(ms);
    EnoughRebody(t, f);
    NormalizeRebody(t, f);
    if EnoughReplies(ms) {
      forall p: nat, q: nat | AnsweredAt(ms, p) && EndsAt(ms, p, q)
        ensures BlockAt(Normalize(ms), q)
      {
        AnsweredAtTagged(ms, p);
        var q' := EnoughServes(t, p);
        BlockInRange(Normalize(t), q');
        assert EndsAt(ms, p, q');
        var end := EndsOnce(ms, p);
        BlockRebody(Normalize(t), f, q);
      }
    } else if forall p: nat, q: nat :: AnsweredAt(ms, p) && EndsAt(ms, p, q) ==> BlockAt(Normalize(ms), q) {
      forall p: nat | AnsweredAt(t, p)
        ensures FollowedByReplies(Normalize(t), t[p])
      {
        AnsweredAtTagged(ms, p);
        var q := EndsOnce(ms, p);
        BlockRebody(Normalize(t), f, q);
      }
      ServedHasEnough(t);
    }
  }

  lemma AnsweredAtTagged(ms: seq<Message>, p: nat)
    ensures AnsweredAt(Tagged(ms), p) <==> AnsweredAt(ms, p)
  {
    hide Answered;
    if p < |ms| {
      var t := Tagged(ms);
      var f := Untag(ms);
      assert Rebody(t[p..], f) == ms[p..];
      AnsweredRebody(t[p..], f);
    }
  }

  // ---------- Ids used once ----------

  function AllCallIDs(ms: seq<Message>): set<string> {
    if ms == [] then {} else CallIDs(ms[0]) + AllCallIDs(ms[1..])
  }

  /** No call id belongs to two assistant messages. */
  predicate UniqueCalls(ms: seq<Message>) {
    ms != [] ==> CallIDs(ms[0]) !! AllCallIDs(ms[1..]) && UniqueCalls(ms[1..])
  }

  lemma {:induction false} NobodyCalls(ms: seq<Message>, id: string)
    requires id !in AllCallIDs(ms)
    ensures Callers(ms, id) == 0
  {
    hide CallIDs, Answered;
    if ms != [] {
      NobodyCalls(ms[1..], id);
    }
  }

  lemma {:induction false} UniqueHasEnough(ms: seq<Message>)
    requires UniqueCalls(ms)
    ensures EnoughReplies(ms)
  {
    hide CallIDs, Answered;
    if ms != [] {
      UniqueHasEnough(ms[1..]);
      if Answered(ms) {
        CallsAnswered(ms);
        forall id | id in CallIDs(ms[0])
          ensures Callers(ms, id) <= RepliesTo(ms[1..], id)
        {
          NobodyCalls(ms[1..], id);
        }
      }
    }
  }

  /** In particular when no call id is used by two assistant messages. */
  lemma UniqueCallsAreFollowedByReplies(ms: seq<Message>, p: nat) returns (q: nat)
    requires UniqueCalls(ms) && AnsweredAt(ms, p)
    ensures EndsAt(ms, p, q) && Normalize(ms)[q] == ms[p] && BlockAt(Normalize(ms), q)
  {
    hide Normalize, BlockAt, Answered, EnoughReplies, UniqueCalls;
    UniqueHasEnough(ms);
    RepliesFollowExactlyWhen(ms);
    q := EndsOnce(ms, p);
  }

  // ---------- Two short lists ----------

  function Caller(id: string, body: int): Message {
    Message(Assistant, [id], "", body)
  }

  function Reply(id: string, body: int): Message {
    Message(Tool, [], id, body)
  }

  lemma CallerFields(id: string, body: int)
    requires id != ""
    ensures CallIDs(Caller(id, body)) == {id} && ReplyID(Caller(id, body)) == ""
    ensures CallIDs(Reply(id, body)) == {} && ReplyID(Reply(id, body)) == id
  {
    assert id in Caller(id, body).toolCalls;
  }

  /** A caller in front of at least one reply. */
  lemma CallerStep(ms: seq<Message>, id: string, body: int)
    requires id != "" && RepliesTo(ms, id) > 0
    ensures var m := [Caller(id, body)] + ms;
      && Answered(m) && RepliesTo(m, id) == RepliesTo(ms, id) && Callers(m, id) == 1 + Callers(ms, id)
      && (EnoughReplies(m) <==> 1 + Callers(ms, id) <= RepliesTo(ms, id) && EnoughReplies(ms))
      && (UniqueCalls(m) ==> id !in AllCallIDs(ms)) && id in AllCallIDs(m)
  {
    hide CallIDs, ReplyID;
    CallerFields(id, body);
    var m := [Caller(id, body)] + ms;
    assert m[1..] == ms;
    if EnoughReplies(m) {
      assert id in CallIDs(m[0]);
    }
  }

  lemma ReplyStep(ms: seq<Message>, id: string, body: int)
    requires id != ""
    ensures var m := [Reply(id, body)] + ms;
      && RepliesTo(m, id) == 1 + RepliesTo(ms, id) && Callers(m, id) == Callers(ms, id)
      && (EnoughReplies(m) <==> EnoughReplies(ms))
      && AllCallIDs(m) == AllCallIDs(ms)
  {
    hide CallIDs, ReplyID;
    CallerFields(id, body);
    assert ([Reply(id, body)] + ms)[1..] == ms;
  }

  /** With one reply for two callers the second loses it to the first. */
  lemma SharedIDLosesTheReply()
    ensures
      var first, second, reply := Caller("x", 1), Caller("x", 2), Reply("x", 3);
      && !EnoughReplies([first, second, reply])
      && AnsweredAt([first, second, reply], 1)
      && Normalize([first, second, reply]) == [first, reply, second]
      && !BlockAt([first, reply, second], 2)
  {
    hide CallIDs, ReplyID, EnoughReplies, Callers, RepliesTo, Answered, Caller, Reply;
    var first, second, reply := Caller("x", 1), Caller("x", 2), Reply("x", 3);
    var ms := [first, second, reply];
    CallerFields("x", 1);
    CallerFields("x", 2);
    CallerFields("x", 3);
    assert [reply] == [reply] + [] && [second, reply] == [second] + [reply] && ms == [first] + [second, reply];
    assert RepliesTo([], "x") == 0 && Callers([], "x") == 0 by { NothingCounts("x"); }
    ReplyStep([], "x", 3);
    CallerStep([reply], "x", 2);
    CallerStep([second, reply], "x", 1);
    assert ms[1..] == [second, reply];
    SharedScan(first, second, reply);
  }

  lemma NothingCounts(id: string)
    ensures RepliesTo([], id) == 0 && Callers([], id) == 0 && EnoughReplies([])
  {
  }

  lemma SharedScan(first: Message, second: Message, reply: Message)
    requires CallIDs(first) == CallIDs(second) == {"x"} && ReplyID(second) == "" && ReplyID(reply) == "x"
    ensures Normalize([first, second, reply]) == [first, reply, second]
  {
    hide CallIDs, ReplyID;
    assert [first, second, reply][1..] == [second, reply] && [second, reply][1..] == [reply] && [reply][1..] == [];
    assert {"x"} - {"x"} == {};
    assert Scan([reply], {"x"}) == ScanResult([reply], [], [], {});
    assert Scan([second, reply], {"x"}) == ScanResult([reply], [second], [], {});
    assert [second] + [] == [second] && [second][1..] == [];
    assert Normalize([second]) == [second] + Normalize([]);
  }

  /** An id may be used again once its earlier call is answered. */
  lemma ReusedIDIsServed()
    ensures
      var ms := [Caller("x", 1), Reply("x", 3), Caller("x", 2), Reply("x", 4)];
      !UniqueCalls(ms) && EnoughReplies(ms)
  {
    hide CallIDs, ReplyID, EnoughReplies, Callers, RepliesTo, Answered, Caller, Reply, UniqueCalls, AllCallIDs;
    var t3 := [Reply("x", 4)];
    var t2 := [Caller("x", 2)] + t3;
    var t1 := [Reply("x", 3)] + t2;
    NothingCounts("x");
    assert t3 == t3 + [];
    ReplyStep([], "x", 4);
    CallerStep(t3, "x", 2);
    ReplyStep(t2, "x", 3);
    CallerStep(t1, "x", 1);
    assert [Caller("x", 1), Reply("x", 3), Caller("x", 2), Reply("x", 4)] == [Caller("x", 1)] + t1;
  }
}
