// The interleaved queue of (protocol, model) tests.
module RoundRobin {
  import opened Common

  datatype Item = Item(protocol: string, model: string, index: nat)

  type Models = map<string, seq<string>>

  function ModelsOf(pm: Models, p: string): seq<string> {
    if p in pm then pm[p] else []
  }

  // ---------- The queue ----------

  /** One model of each protocol that still has one in this round. */
  function Row(pm: Models, protocols: seq<string>, round: nat): seq<Item> {
    if protocols == [] then []
    else
      var p := protocols[|protocols| - 1];
      Row(pm, protocols[..|protocols| - 1], round)
      + if round < |ModelsOf(pm, p)| then [Item(p, ModelsOf(pm, p)[round], round)] else []
  }

  function Rows(pm: Models, protocols: seq<string>, rounds: nat): seq<Item> {
    if rounds == 0 then [] else Rows(pm, protocols, rounds - 1) + Row(pm, protocols, rounds - 1)
  }

  /** No protocol has more models, and some protocol has as many, or none has any. */
  predicate IsMax(pm: Models, n: nat) {
    && (forall p :: p in pm ==> |pm[p]| <= n)
    && (n == 0 || exists p :: p in pm && |pm[p]| == n)
  }

  method MaxModels(pm: Models) returns (maxModels: nat)
    ensures IsMax(pm, maxModels)
  {
    maxModels := 0;
    var todo := pm.Keys;
    while todo != {}
      invariant todo <= pm.Keys
      invariant forall p :: p in pm && p !in todo ==> |pm[p]| <= maxModels
      invariant maxModels == 0 || exists p :: p in pm && |pm[p]| == maxModels
      decreases |todo|
    {
      var p :| p in todo;
      if |pm[p]| > maxModels {
        maxModels := |pm[p]|;
      }
      todo := todo - {p};
    }
  }

  method BuildRoundRobinQueue(pm: Models, protocols: seq<string>) returns (queue: seq<Item>)
    ensures exists rounds: nat :: IsMax(pm, rounds) && queue == Rows(pm, protocols, rounds)
  {
    var maxModels := MaxModels(pm);
    queue := [];
    for round := 0 to maxModels
      invariant queue == Rows(pm, protocols, round)
    {
      for j := 0 to |protocols|
        invariant queue == Rows(pm, protocols, round) + Row(pm, protocols[..j], round)
      {
        var models := ModelsOf(pm, protocols[j]);
        assert protocols[..j + 1][..j] == protocols[..j];
        if round < |models| {
          queue := queue + [Item(protocols[j], models[round], round)];
        }
      }
      assert protocols[..|protocols|] == protocols;
    }
  }

  // ---------- What the queue holds ----------

  /** The items of one protocol, in queue order. */
  function Of(queue: seq<Item>, p: string): seq<Item> {
    if queue == [] then []
    else Of(queue[..|queue| - 1], p) + if queue[|queue| - 1].protocol == p then [queue[|queue| - 1]] else []
  }

  /** The first n tests of a protocol. */
  function Tests(pm: Models, p: string, n: nat): (r: seq<Item>)
    requires n <= |ModelsOf(pm, p)|
    ensures |r| == n
    ensures forall i :: 0 <= i < n ==> r[i] == Item(p, ModelsOf(pm, p)[i], i)
  {
    seq(n, i requires 0 <= i < n => Item(p, ModelsOf(pm, p)[i], i))
  }

  lemma {:induction false} OfAppend(a: seq<Item>, b: seq<Item>, p: string)
    ensures Of(a + b, p) == Of(a, p) + Of(b, p)
  {
    if b == [] {
      assert a + b == a;
    } else {
      assert (a + b)[..|a + b| - 1] == a + b[..|b| - 1];
      OfAppend(a, b[..|b| - 1], p);
    }
  }

  lemma {:induction false} OfRow(pm: Models, protocols: seq<string>, round: nat, p: string)
    requires Distinct(protocols)
    ensures Of(Row(pm, protocols, round), p) ==
      if p in protocols && round < |ModelsOf(pm, p)| then [Item(p, ModelsOf(pm, p)[round], round)] else []
  {
    if protocols != [] {
      var init, last := protocols[..|protocols| - 1], protocols[|protocols| - 1];
      assert protocols == init + [last];
      OfRow(pm, init, round, p);
      if round < |ModelsOf(pm, last)| {
        var item := Item(last, ModelsOf(pm, last)[round], round);
        OfAppend(Row(pm, init, round), [item], p);
        assert [item][..0] == [];
      } else {
        assert Row(pm, init, round) + [] == Row(pm, init, round);
      }
    }
  }

  /** The tests a protocol has had after some rounds. */
  function Had(pm: Models, p: string, rounds: nat): seq<Item> {
    Tests(pm, p, Min(rounds, |ModelsOf(pm, p)|))
  }

  lemma HadGrows(pm: Models, p: string, rounds: nat)
    ensures Had(pm, p, 0) == []
    ensures Had(pm, p, rounds + 1) ==
      Had(pm, p, rounds) + if rounds < |ModelsOf(pm, p)| then [Item(p, ModelsOf(pm, p)[rounds], rounds)] else []
  {
  }

  lemma NoRounds(pm: Models, protocols: seq<string>, p: string)
    ensures Of(Rows(pm, protocols, 0), p) == [] == Had(pm, p, 0)
  {
  }

  lemma OneMoreRound(pm: Models, protocols: seq<string>, rounds: nat, p: string)
    requires rounds > 0
    ensures Of(Rows(pm, protocols, rounds), p)
         == Of(Rows(pm, protocols, rounds - 1), p) + Of(Row(pm, protocols, rounds - 1), p)
  {
    hide Row;
    OfAppend(Rows(pm, protocols, rounds - 1), Row(pm, protocols, rounds - 1), p);
  }

  /** After some rounds each listed protocol has had its first so many tests, in order. */
  lemma {:induction false} OfRows(pm: Models, protocols: seq<string>, rounds: nat, p: string)
    requires Distinct(protocols)
    ensures Of(Rows(pm, protocols, rounds), p) == if p in protocols then Had(pm, p, rounds) else []
  {
    hide Row, ModelsOf, Had, Distinct, Rows, Of;
    if rounds == 0 {
      NoRounds(pm, protocols, p);
    } else {
      OfRows(pm, protocols, rounds - 1, p);
      OneMoreRound(pm, protocols, rounds, p);
      OfRow(pm, protocols, rounds - 1, p);
      HadGrows(pm, p, rounds - 1);
    }
  }

  lemma MaxCovers(pm: Models, n: nat, p: string)
    requires IsMax(pm, n)
    ensures |ModelsOf(pm, p)| <= n
  {
  }

  /** Every (protocol, index) stands in the queue exactly once, in the protocol's own order. */
  lemma QueueHoldsEachTestOnce(pm: Models, protocols: seq<string>, n: nat, p: string)
    requires Distinct(protocols) && IsMax(pm, n)
    ensures Of(Rows(pm, protocols, n), p) == if p in protocols then Tests(pm, p, |ModelsOf(pm, p)|) else []
  {
    OfRows(pm, protocols, n, p);
    MaxCovers(pm, n, p);
  }

  // ---------- Fair in every prefix ----------

  /** Nobody is more than one ahead of a protocol that still has tests to come. */
  predicate Balanced(pm: Models, protocols: seq<string>, queue: seq<Item>) {
    forall p, q :: p in protocols && q in protocols ==>
      |Of(queue, p)| <= |Of(queue, q)| + 1 || |Of(queue, q)| >= |ModelsOf(pm, q)|
  }

  /** Some rounds, and the first protocols of the next one. */
  function Part(pm: Models, protocols: seq<string>, round: nat, j: nat): seq<Item>
    requires j <= |protocols|
  {
    Rows(pm, protocols, round) + Row(pm, protocols[..j], round)
  }

  lemma PartBalanced(pm: Models, protocols: seq<string>, round: nat, j: nat)
    requires Distinct(protocols) && j <= |protocols|
    ensures Balanced(pm, protocols, Part(pm, protocols, round, j))
  {
    hide Row, Rows, Of, ModelsOf;
    forall p | p in protocols
      ensures var n := |ModelsOf(pm, p)|;
        |Of(Part(pm, protocols, round, j), p)| == Min(round, n) + if p in protocols[..j] && round < n then 1 else 0
    {
      OfRows(pm, protocols, round, p);
      OfRow(pm, protocols[..j], round, p);
      OfAppend(Rows(pm, protocols, round), Row(pm, protocols[..j], round), p);
    }
  }

  /** Every prefix of what is built so far is such a part, so it is balanced. */
  lemma {:induction false} PrefixesBalanced(pm: Models, protocols: seq<string>, round: nat, j: nat, k: nat)
    requires Distinct(protocols) && j <= |protocols| && k <= |Part(pm, protocols, round, j)|
    ensures Balanced(pm, protocols, Part(pm, protocols, round, j)[..k])
    decreases round, j
  {
    hide Balanced, Of;
    var part := Part(pm, protocols, round, j);
    if k == |part| {
      PartBalanced(pm, protocols, round, j);
      assert part[..k] == part;
    } else if j > 0 {
      var before := Part(pm, protocols, round, j - 1);
      assert protocols[..j][..j - 1] == protocols[..j - 1];
      assert before <= part && |part| <= |before| + 1;
      PrefixesBalanced(pm, protocols, round, j - 1, k);
      assert part[..k] == before[..k];
    } else if round > 0 {
      var before := Part(pm, protocols, round - 1, |protocols|);
      assert protocols[..|protocols|] == protocols;
      assert before == part;
      PrefixesBalanced(pm, protocols, round - 1, |protocols|, k);
    }
  }

  lemma EveryPrefixIsFair(pm: Models, protocols: seq<string>, rounds: nat, k: nat)
    requires Distinct(protocols) && k <= |Rows(pm, protocols, rounds)|
    ensures Balanced(pm, protocols, Rows(pm, protocols, rounds)[..k])
  {
    hide Balanced;
    assert Row(pm, protocols[..0], rounds) == [];
    assert Part(pm, protocols, rounds, 0) == Rows(pm, protocols, rounds);
    PrefixesBalanced(pm, protocols, rounds, 0, k);
  }
}
