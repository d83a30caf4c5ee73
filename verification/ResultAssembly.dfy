// Running the queue: results land in the slots of their protocol, on top of
// what an earlier job already found, until the queue ends or the run is aborted.
module ResultAssembly {
  import opened Common
  import opened RoundRobin

  datatype Test = Test(model: string, success: bool, skipped: bool, streaming: bool)

  /** A slot nobody filled yet. */
  const NOTHING := Test("", false, false, false)

  datatype Result = Result(slots: seq<Test>, successCount: nat, testedModel: string, streaming: bool)

  type Previous = map<string, map<string, Test>>

  /** An earlier job found this model working. */
  predicate Known(previous: Previous, p: string, m: string) {
    p in previous && m in previous[p] && previous[p][m].success
  }

  /** The models still to be tested. */
  function Remaining(previous: Previous, p: string, ms: seq<string>): seq<string> {
    if ms == [] then []
    else
      var m := ms[|ms| - 1];
      Remaining(previous, p, ms[..|ms| - 1]) + if Known(previous, p, m) then [] else [m]
  }

  function Successes(slots: seq<Test>): nat {
    if slots == [] then 0 else Successes(slots[..|slots| - 1]) + if slots[|slots| - 1].success then 1 else 0
  }

  predicate SomeSuccess(slots: seq<Test>, model: string) {
    exists i :: 0 <= i < |slots| && slots[i].success && slots[i].model == model
  }

  /** What the slot of model m holds once the models in done were tested. */
  function Slot(previous: Previous, outcome: (string, string) -> Test, p: string, m: string, done: seq<string>): Test {
    if Known(previous, p, m) then previous[p][m]
    else if m in done then outcome(p, m)
    else NOTHING
  }

  /** The counters agree with the slots. */
  predicate Tallied(r: Result) {
    r.successCount == Successes(r.slots) && (r.successCount > 0 ==> SomeSuccess(r.slots, r.testedModel))
  }

  /** Every slot holds its own model's result, and the counters agree. */
  predicate Holds(r: Result, previous: Previous, outcome: (string, string) -> Test, p: string, ms: seq<string>, done: seq<string>) {
    && |r.slots| == |ms|
    && (forall i :: 0 <= i < |ms| ==> r.slots[i] == Slot(previous, outcome, p, ms[i], done))
    && Tallied(r)
  }

  // ---------- Counting ----------

  lemma {:induction false} FillCounts(slots: seq<Test>, i: nat, t: Test)
    requires i < |slots| && !slots[i].success
    ensures Successes(slots[i := t]) == Successes(slots) + if t.success then 1 else 0
  {
    var init := slots[..|slots| - 1];
    if i < |init| {
      FillCounts(init, i, t);
      assert slots[i := t][..|slots| - 1] == init[i := t];
    } else {
      assert slots[i := t][..|slots| - 1] == init;
    }
  }

  lemma {:induction false} NoSuccess(slots: seq<Test>)
    requires forall i :: 0 <= i < |slots| ==> !slots[i].success
    ensures Successes(slots) == 0
  {
    if slots != [] {
      NoSuccess(slots[..|slots| - 1]);
    }
  }

  lemma {:induction false} SameSuccess(a: seq<Test>, b: seq<Test>)
    requires |a| == |b| && forall i :: 0 <= i < |a| ==> a[i].success == b[i].success
    ensures Successes(a) == Successes(b)
  {
    if a != [] {
      SameSuccess(a[..|a| - 1], b[..|b| - 1]);
    }
  }

  /** Stores one result: the slot, the counter and, the first time, the representative. */
  method Store(r: Result, i: nat, t: Test) returns (s: Result)
    requires i < |r.slots| && !r.slots[i].success && Tallied(r)
    ensures s.slots == r.slots[i := t] && Tallied(s)
  {
    s := r.(slots := r.slots[i := t]);
    FillCounts(r.slots, i, t);
    if t.success {
      s := s.(successCount := s.successCount + 1);
      if s.successCount == 1 {
        s := s.(testedModel := t.model, streaming := t.streaming);
        assert s.slots[i] == t;
      }
    }
    if r.successCount > 0 {
      var j :| 0 <= j < |r.slots| && r.slots[j].success && r.slots[j].model == r.testedModel;
      assert s.slots[j] == r.slots[j];
    }
  }

  // ---------- The stages ----------

  /** Fills in what an earlier job found working. */
  method Prefill(previous: Previous, ghost outcome: (string, string) -> Test, p: string, ms: seq<string>) returns (r: Result)
    ensures Holds(r, previous, outcome, p, ms, [])
  {
    hide SomeSuccess, Successes;
    r := Result(seq(|ms|, i => NOTHING), 0, "", false);
    NoSuccess(r.slots);
    for i := 0 to |ms|
      invariant |r.slots| == |ms| && Tallied(r)
      invariant forall j :: 0 <= j < i ==> r.slots[j] == Slot(previous, outcome, p, ms[j], [])
      invariant forall j :: i <= j < |ms| ==> r.slots[j] == NOTHING
    {
      if p in previous && ms[i] in previous[p] && previous[p][ms[i]].success {
        r := Store(r, i, previous[p][ms[i]]);
      }
    }
  }

  /** The models left, and where each stands in the full list. */
  method FilterModels(previous: Previous, p: string, ms: seq<string>) returns (filtered: seq<string>, indexes: map<string, nat>)
    ensures filtered == Remaining(previous, p, ms)
    ensures forall m :: m in filtered <==> m in indexes
    ensures forall m :: m in indexes ==> indexes[m] < |ms| && ms[indexes[m]] == m && !Known(previous, p, m)
  {
    filtered, indexes := [], map[];
    for i := 0 to |ms|
      invariant filtered == Remaining(previous, p, ms[..i])
      invariant forall m :: m in filtered <==> m in indexes
      invariant forall m :: m in indexes ==> indexes[m] < i && ms[indexes[m]] == m && !Known(previous, p, m)
    {
      assert ms[..i + 1][..i] == ms[..i];
      if !(p in previous && ms[i] in previous[p] && previous[p][ms[i]].success) {
        indexes := indexes[ms[i] := i];
        filtered := filtered + [ms[i]];
      }
    }
    assert ms[..|ms|] == ms;
  }

  lemma {:induction false} RemainingIs(previous: Previous, p: string, ms: seq<string>, m: string)
    ensures m in Remaining(previous, p, ms) <==> m in ms && !Known(previous, p, m)
  {
    if ms != [] {
      var init, last := ms[..|ms| - 1], ms[|ms| - 1];
      assert ms == init + [last];
      RemainingIs(previous, p, init, m);
    }
  }

  lemma {:induction false} RemainingDistinct(previous: Previous, p: string, ms: seq<string>)
    requires Distinct(ms)
    ensures Distinct(Remaining(previous, p, ms))
  {
    if ms != [] {
      var init, last := ms[..|ms| - 1], ms[|ms| - 1];
      RemainingDistinct(previous, p, init);
      RemainingIs(previous, p, init, last);
      assert last !in init;
    }
  }

  // ---------- One more test ----------

  lemma OfSnoc(queue: seq<Item>, k: nat, p: string)
    requires k < |queue|
    ensures Of(queue[..k + 1], p) == Of(queue[..k], p) + if queue[k].protocol == p then [queue[k]] else []
  {
    assert queue[..k + 1][..k] == queue[..k];
  }

  lemma OfPrefix(queue: seq<Item>, k: nat, p: string)
    requires k <= |queue|
    ensures Of(queue[..k], p) <= Of(queue, p)
  {
    OfAppend(queue[..k], queue[k..], p);
    assert queue == queue[..k] + queue[k..];
  }

  /** The k-th item is its protocol's next untested model. */
  lemma NextTest(filtered: Models, protocols: seq<string>, n: nat, k: nat)
    requires Distinct(protocols) && IsMax(filtered, n) && k < |Rows(filtered, protocols, n)|
    ensures var queue := Rows(filtered, protocols, n); var p := queue[k].protocol; var m := |Of(queue[..k], p)|;
      m < |ModelsOf(filtered, p)| && queue[k].model == ModelsOf(filtered, p)[m]
  {
    hide Rows, IsMax, ModelsOf, Of;
    var queue := Rows(filtered, protocols, n);
    var p := queue[k].protocol;
    QueueHoldsEachTestOnce(filtered, protocols, n, p);
    OfSnoc(queue, k, p);
    OfPrefix(queue, k + 1, p);
    assert Of(queue, p)[|Of(queue[..k], p)|] == queue[k];
  }

  /** The models of a protocol tested by the first k items. */
  ghost function Tested(filtered: Models, queue: seq<Item>, k: nat, p: string): seq<string>
    requires k <= |queue|
  {
    var n := |Of(queue[..k], p)|;
    if n <= |ModelsOf(filtered, p)| then ModelsOf(filtered, p)[..n] else ModelsOf(filtered, p)
  }

  lemma TestedGrows(filtered: Models, protocols: seq<string>, n: nat, k: nat, p: string)
    requires Distinct(protocols) && IsMax(filtered, n) && k < |Rows(filtered, protocols, n)|
    ensures var queue := Rows(filtered, protocols, n);
      Tested(filtered, queue, k + 1, p)
        == Tested(filtered, queue, k, p) + if queue[k].protocol == p then [queue[k].model] else []
  {
    hide Rows, IsMax, ModelsOf, Of;
    var queue := Rows(filtered, protocols, n);
    NextTest(filtered, protocols, n, k);
    OfSnoc(queue, k, p);
    if queue[k].protocol == p {
      var m := |Of(queue[..k], p)|;
      assert ModelsOf(filtered, p)[..m + 1] == ModelsOf(filtered, p)[..m] + [queue[k].model];
    }
  }

  /** The next test goes into an empty slot. */
  method Execute(r: Result, previous: Previous, outcome: (string, string) -> Test, p: string, ms: seq<string>,
                 ghost done: seq<string>, m: string, index: nat) returns (s: Result)
    requires Holds(r, previous, outcome, p, ms, done)
    requires Distinct(ms) && index < |ms| && ms[index] == m && !Known(previous, p, m) && m !in done
    ensures Holds(s, previous, outcome, p, ms, done + [m])
  {
    hide Tallied;
    var modelResult := outcome(p, m);
    assert Slot(previous, outcome, p, m, done) == NOTHING;
    s := Store(r, index, modelResult);
    forall i | 0 <= i < |ms|
      ensures s.slots[i] == Slot(previous, outcome, p, ms[i], done + [m])
    {
      assert i != index ==> ms[i] != m;
    }
  }

  /** Whatever was not reached is marked skipped. */
  method Backfill(r: Result, ms: seq<string>) returns (s: Result)
    requires |r.slots| == |ms| && Tallied(r)
    requires forall i :: 0 <= i < |ms| ==> r.slots[i] == NOTHING || r.slots[i].model != ""
    ensures |s.slots| == |ms| && Tallied(s)
    ensures forall i :: 0 <= i < |ms| ==>
      s.slots[i] == if r.slots[i] == NOTHING then Test(ms[i], false, true, false) else r.slots[i]
  {
    hide Successes, SomeSuccess;
    s := r;
    for i := 0 to |ms|
      invariant |s.slots| == |ms| && s == r.(slots := s.slots)
      invariant forall j :: 0 <= j < i ==>
        s.slots[j] == if r.slots[j] == NOTHING then Test(ms[j], false, true, false) else r.slots[j]
      invariant forall j :: i <= j < |ms| ==> s.slots[j] == r.slots[j]
    {
      if s.slots[i].model == "" {
        s := s.(slots := s.slots[i := Test(ms[i], false, true, false)]);
      }
    }
    SameSuccess(r.slots, s.slots);
    if r.successCount > 0 {
      KeepsWitness(r.slots, s.slots, r.testedModel);
    }
  }

  lemma KeepsWitness(a: seq<Test>, b: seq<Test>, model: string)
    requires |a| == |b| && forall i :: 0 <= i < |a| && a[i].success ==> b[i] == a[i]
    requires SomeSuccess(a, model)
    ensures SomeSuccess(b, model)
  {
    var i :| 0 <= i < |a| && a[i].success && a[i].model == model;
    assert b[i] == a[i];
  }

  // ---------- The whole run ----------

  /** Results carry the name of the model they are about. */
  ghost predicate WellNamed(pm: Models, previous: Previous, outcome: (string, string) -> Test) {
    && (forall p, m :: outcome(p, m).model == m)
    && (forall p, m :: p in previous && m in previous[p] ==> previous[p][m].model == m)
    && (forall p :: p in pm ==> Distinct(pm[p]) && "" !in pm[p])
  }

  /** The stages before the queue, for every protocol. */
  method Prepare(pm: Models, previous: Previous, ghost outcome: (string, string) -> Test)
      returns (results: map<string, Result>, filtered: Models, indexes: map<string, map<string, nat>>)
    ensures results.Keys == filtered.Keys == indexes.Keys == pm.Keys
    ensures forall p :: p in pm ==> Prepared(pm, previous, outcome, p, results[p], filtered[p], indexes[p])
  {
    hide Prepared;
    results, filtered, indexes := map[], map[], map[];
    var todo := pm.Keys;
    while todo != {}
      invariant todo <= pm.Keys
      invariant results.Keys == filtered.Keys == indexes.Keys == pm.Keys - todo
      invariant forall p :: p in results ==> Prepared(pm, previous, outcome, p, results[p], filtered[p], indexes[p])
      decreases |todo|
    {
      var p :| p in todo;
      var r, f, index := PrepareOne(pm, previous, outcome, p);
      results, filtered, indexes := results[p := r], filtered[p := f], indexes[p := index];
      todo := todo - {p};
    }
  }

  ghost predicate Prepared(pm: Models, previous: Previous, outcome: (string, string) -> Test, p: string,
                           r: Result, filtered: seq<string>, index: map<string, nat>)
    requires p in pm
  {
    && Holds(r, previous, outcome, p, pm[p], [])
    && filtered == Remaining(previous, p, pm[p])
    && (forall m :: m in filtered <==> m in index)
    && (forall m :: m in index ==> index[m] < |pm[p]| && pm[p][index[m]] == m && !Known(previous, p, m))
  }

  method PrepareOne(pm: Models, previous: Previous, ghost outcome: (string, string) -> Test, p: string)
      returns (r: Result, filtered: seq<string>, index: map<string, nat>)
    requires p in pm
    ensures Prepared(pm, previous, outcome, p, r, filtered, index)
  {
    hide Holds, Remaining, Known;
    r := Prefill(previous, outcome, p, pm[p]);
    filtered, index := FilterModels(previous, p, pm[p]);
  }

  /** One step of the run for one protocol: what holds after the first k items. */
  ghost predicate Progress(pm: Models, previous: Previous, outcome: (string, string) -> Test, filtered: Models,
                           queue: seq<Item>, k: nat, results: map<string, Result>)
    requires k <= |queue|
  {
    && results.Keys == pm.Keys
    && forall p :: p in pm ==> Holds(results[p], previous, outcome, p, pm[p], Tested(filtered, queue, k, p))
  }

  lemma NothingTested(filtered: Models, queue: seq<Item>, p: string)
    ensures Tested(filtered, queue, 0, p) == []
  {
    assert queue[..0] == [];
  }

  /** The k-th item belongs to a known protocol, and its model is new there. */
  lemma ItemIsNew(pm: Models, previous: Previous, filtered: Models, protocols: seq<string>, n: nat, k: nat)
    requires Distinct(protocols) && IsMax(filtered, n) && k < |Rows(filtered, protocols, n)|
    requires filtered.Keys == pm.Keys
    requires forall p :: p in pm ==> filtered[p] == Remaining(previous, p, pm[p]) && Distinct(pm[p])
    ensures var queue := Rows(filtered, protocols, n); var item := queue[k];
      item.protocol in pm && item.model in filtered[item.protocol]
      && item.model !in Tested(filtered, queue, k, item.protocol)
  {
    hide Rows, IsMax, Of, Remaining;
    NextTest(filtered, protocols, n, k);
    var item := Rows(filtered, protocols, n)[k];
    RemainingDistinct(previous, item.protocol, ModelsOf(pm, item.protocol));
  }

  ghost predicate Ready(pm: Models, previous: Previous, filtered: Models, indexes: map<string, map<string, nat>>) {
    && filtered.Keys == indexes.Keys == pm.Keys
    && forall p :: p in pm ==>
      && filtered[p] == Remaining(previous, p, pm[p])
      && (forall m :: m in filtered[p] <==> m in indexes[p])
      && (forall m :: m in indexes[p] ==>
            indexes[p][m] < |pm[p]| && pm[p][indexes[p][m]] == m && !Known(previous, p, m))
  }

  lemma PreparedIsReady(pm: Models, previous: Previous, outcome: (string, string) -> Test, filtered: Models,
                        indexes: map<string, map<string, nat>>, queue: seq<Item>, start: map<string, Result>)
    requires start.Keys == filtered.Keys == indexes.Keys == pm.Keys
    requires forall p :: p in pm ==> Prepared(pm, previous, outcome, p, start[p], filtered[p], indexes[p])
    ensures Ready(pm, previous, filtered, indexes)
    ensures Progress(pm, previous, outcome, filtered, queue, 0, start)
  {
    hide Holds, Remaining, Known, Tested;
    forall p | p in pm
      ensures Tested(filtered, queue, 0, p) == []
    {
      NothingTested(filtered, queue, p);
    }
  }

  /** One round of the loop over the queue. */
  method RunItem(pm: Models, previous: Previous, outcome: (string, string) -> Test, protocols: seq<string>,
                 filtered: Models, indexes: map<string, map<string, nat>>, queue: seq<Item>, ghost n: nat,
                 k: nat, before: map<string, Result>) returns (results: map<string, Result>)
    requires WellNamed(pm, previous, outcome) && Distinct(protocols) && Ready(pm, previous, filtered, indexes)
    requires IsMax(filtered, n) && queue == Rows(filtered, protocols, n) && k < |queue|
    requires Progress(pm, previous, outcome, filtered, queue, k, before)
    ensures Progress(pm, previous, outcome, filtered, queue, k + 1, results)
  {
    hide Holds, Remaining, Rows, IsMax, Tested, Known, Distinct, ModelsOf;
    var item := queue[k];
    ItemIsNew(pm, previous, filtered, protocols, n, k);
    var p := item.protocol;
    var r := Execute(before[p], previous, outcome, p, pm[p], Tested(filtered, queue, k, p), item.model, indexes[p][item.model]);
    forall q | q in pm
      ensures Tested(filtered, queue, k + 1, q)
           == if p == q then Tested(filtered, queue, k, q) + [item.model] else Tested(filtered, queue, k, q)
    {
      TestedGrows(filtered, protocols, n, k, q);
      assert Tested(filtered, queue, k, q) + [] == Tested(filtered, queue, k, q);
    }
    results := before[p := r];
  }

  /** The loop over the queue, up to the abort. */
  method RunQueue(pm: Models, previous: Previous, outcome: (string, string) -> Test, protocols: seq<string>,
                  filtered: Models, indexes: map<string, map<string, nat>>, queue: seq<Item>, ghost n: nat,
                  start: map<string, Result>, stopAt: nat)
      returns (results: map<string, Result>)
    requires WellNamed(pm, previous, outcome) && Distinct(protocols) && Ready(pm, previous, filtered, indexes)
    requires IsMax(filtered, n) && queue == Rows(filtered, protocols, n)
    requires Progress(pm, previous, outcome, filtered, queue, 0, start)
    ensures Progress(pm, previous, outcome, filtered, queue, Min(stopAt, |queue|), results)
  {
    hide Progress, Ready, WellNamed, Rows, IsMax, Distinct;
    results := start;
    var k := 0;
    while k < |queue| && k < stopAt
      invariant k <= |queue| && k <= stopAt
      invariant Progress(pm, previous, outcome, filtered, queue, k, results)
    {
      results := RunItem(pm, previous, outcome, protocols, filtered, indexes, queue, n, k, results);
      k := k + 1;
    }
  }

  function FinalSlot(previous: Previous, outcome: (string, string) -> Test, p: string, m: string, done: seq<string>): Test {
    if Known(previous, p, m) then previous[p][m]
    else if m in done then outcome(p, m)
    else Test(m, false, true, false)
  }

  /** The final result of one protocol, given the models that were tested before the abort. */
  ghost predicate Complete(r: Result, previous: Previous, outcome: (string, string) -> Test, p: string,
                           ms: seq<string>, done: seq<string>) {
    && |r.slots| == |ms|
    && (forall i :: 0 <= i < |ms| ==> r.slots[i] == FinalSlot(previous, outcome, p, ms[i], done))
    && Tallied(r)
  }

  method BackfillAll(pm: Models, previous: Previous, outcome: (string, string) -> Test, filtered: Models,
                     queue: seq<Item>, ghost k: nat, start: map<string, Result>) returns (results: map<string, Result>)
    requires WellNamed(pm, previous, outcome) && k <= |queue|
    requires Progress(pm, previous, outcome, filtered, queue, k, start)
    ensures results.Keys == pm.Keys
    ensures forall p :: p in pm ==> Complete(results[p], previous, outcome, p, pm[p], Tested(filtered, queue, k, p))
  {
    hide Tested, Complete;
    results := map[];
    var todo := start.Keys;
    while todo != {}
      invariant todo <= pm.Keys && results.Keys == pm.Keys - todo
      invariant forall p :: p in results ==> Complete(results[p], previous, outcome, p, pm[p], Tested(filtered, queue, k, p))
      decreases |todo|
    {
      var p :| p in todo;
      var r := BackfillOne(pm, previous, outcome, p, start[p], Tested(filtered, queue, k, p));
      results := results[p := r];
      todo := todo - {p};
    }
  }

  method BackfillOne(pm: Models, previous: Previous, ghost outcome: (string, string) -> Test, p: string, r: Result,
                     ghost done: seq<string>) returns (s: Result)
    requires WellNamed(pm, previous, outcome) && p in pm && Holds(r, previous, outcome, p, pm[p], done)
    ensures Complete(s, previous, outcome, p, pm[p], done)
  {
    hide Tallied;
    var ms := pm[p];
    forall i | 0 <= i < |ms|
      ensures r.slots[i] == NOTHING || (r.slots[i].model == ms[i] && ms[i] != "")
    {
      assert ms[i] in ms;
    }
    s := Backfill(r, ms);
  }

  /** What a run leaves, given the models that were due and the items that ran before the abort. */
  ghost predicate Explains(pm: Models, protocols: seq<string>, previous: Previous, outcome: (string, string) -> Test,
                           stopAt: nat, results: map<string, Result>, due: Models, ran: seq<Item>) {
    && results.Keys == pm.Keys == due.Keys
    && (forall p :: p in pm ==>
          && due[p] == Remaining(previous, p, pm[p])
          && Complete(results[p], previous, outcome, p, pm[p], Tested(due, ran, |ran|, p)))
    && (exists rounds: nat :: IsMax(due, rounds) && ran <= Rows(due, protocols, rounds))
    && Balanced(due, protocols, ran) && |ran| <= stopAt
    && (|ran| < stopAt ==> forall p :: p in pm && p in protocols ==> Tested(due, ran, |ran|, p) == due[p])
  }

  /**
   * Whatever an earlier job knew and wherever the run is aborted: every slot
   * holds its own model's result, the success count is the number of successful
   * slots, the representative model is one of them, and the protocols were
   * served fairly up to the abort.
   */
  method RunRoundRobinTests(pm: Models, protocols: seq<string>, previous: Previous, outcome: (string, string) -> Test,
                            stopAt: nat) returns (results: map<string, Result>)
    requires WellNamed(pm, previous, outcome) && Distinct(protocols)
    ensures exists due, ran :: Explains(pm, protocols, previous, outcome, stopAt, results, due, ran)
  {
    hide Tested, Complete, Progress, Remaining, WellNamed, Rows, IsMax, Explains, Distinct;
    var start, left, indexes := Prepare(pm, previous, outcome);
    var queue := BuildRoundRobinQueue(left, protocols);
    ghost var n: nat :| IsMax(left, n) && queue == Rows(left, protocols, n);
    PreparedIsReady(pm, previous, outcome, left, indexes, queue, start);
    var after := RunQueue(pm, previous, outcome, protocols, left, indexes, queue, n, start, stopAt);
    results := BackfillAll(pm, previous, outcome, left, queue, Min(stopAt, |queue|), after);
    RunExplained(pm, protocols, previous, outcome, stopAt, results, left, n);
  }

  /** The items up to the abort explain the results. */
  lemma RunExplained(pm: Models, protocols: seq<string>, previous: Previous, outcome: (string, string) -> Test,
                     stopAt: nat, results: map<string, Result>, due: Models, n: nat)
    requires Distinct(protocols) && IsMax(due, n) && results.Keys == pm.Keys == due.Keys
    requires forall p :: p in pm ==> due[p] == Remaining(previous, p, pm[p])
    requires var queue := Rows(due, protocols, n);
      forall p :: p in pm ==>
        Complete(results[p], previous, outcome, p, pm[p], Tested(due, queue, Min(stopAt, |queue|), p))
    ensures var queue := Rows(due, protocols, n);
      Explains(pm, protocols, previous, outcome, stopAt, results, due, queue[..Min(stopAt, |queue|)])
  {
    hide Tested, Complete, Balanced, Remaining, Rows, IsMax;
    var queue := Rows(due, protocols, n);
    var k := Min(stopAt, |queue|);
    var ran := queue[..k];
    EveryPrefixIsFair(due, protocols, n, k);
    forall p
      ensures Tested(due, ran, |ran|, p) == Tested(due, queue, k, p)
    {
      TestedPrefix(due, queue, k, p);
    }
    if k < stopAt {
      AllTested(due, protocols, n);
    }
  }

  lemma TestedPrefix(filtered: Models, queue: seq<Item>, k: nat, p: string)
    requires k <= |queue|
    ensures Tested(filtered, queue[..k], k, p) == Tested(filtered, queue, k, p)
  {
    assert queue[..k][..k] == queue[..k];
  }

  lemma AllTested(filtered: Models, protocols: seq<string>, n: nat)
    requires Distinct(protocols) && IsMax(filtered, n)
    ensures var queue := Rows(filtered, protocols, n);
      forall p :: p in filtered && p in protocols ==> Tested(filtered, queue, |queue|, p) == filtered[p]
  {
    hide Rows, IsMax, Of;
    var queue := Rows(filtered, protocols, n);
    assert queue[..|queue|] == queue;
    forall p | p in filtered && p in protocols
      ensures Tested(filtered, queue, |queue|, p) == filtered[p]
    {
      QueueHoldsEachTestOnce(filtered, protocols, n, p);
    }
  }
}
