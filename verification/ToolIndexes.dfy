// Tool calls are reported in the order of their indexes: the keys of a map,
// collected in any order and sorted by exchanges.
module ToolIndexes {
  import opened Common

  predicate Ascending(s: seq<int>) {
    forall i, j :: 0 <= i < j < |s| ==> s[i] < s[j]
  }

  predicate Covers(s: seq<int>, keys: set<int>) {
    (forall k :: k in keys ==> k in s) && (forall i :: 0 <= i < |s| ==> s[i] in keys)
  }

  lemma {:induction false} OnlyOneOrder(a: seq<int>, b: seq<int>, keys: set<int>)
    requires Ascending(a) && Covers(a, keys) && Ascending(b) && Covers(b, keys)
    ensures a == b
  {
    EmptyCovers(a, keys);
    EmptyCovers(b, keys);
    if a == [] {
      return;
    }
    var x, y := a[|a| - 1], b[|b| - 1];
    assert x in keys && y in keys && x in b && y in a;
    assert x == y;
    CoversInit(a, keys);
    CoversInit(b, keys);
    OnlyOneOrder(a[..|a| - 1], b[..|b| - 1], keys - {x});
  }

  lemma EmptyCovers(s: seq<int>, keys: set<int>)
    requires Covers(s, keys)
    ensures s == [] <==> keys == {}
  {
    if s == [] {
      assert forall k :: k !in keys;
      assert keys <= {};
    } else {
      assert s[0] in keys;
    }
  }

  lemma CoversInit(s: seq<int>, keys: set<int>)
    requires s != [] && Ascending(s) && Covers(s, keys)
    ensures Covers(s[..|s| - 1], keys - {s[|s| - 1]})
  {
    assert s == s[..|s| - 1] + [s[|s| - 1]];
  }

  method Collect(keys: set<int>) returns (s: seq<int>)
    ensures Distinct(s) && Covers(s, keys)
  {
    s := [];
    var todo := keys;
    while todo != {}
      invariant todo <= keys && Distinct(s) && Covers(s, keys - todo)
      decreases |todo|
    {
      ghost var some := Pick(todo);
      assert some in todo;
      var k :| k in todo;
      assert k !in s;
      s := s + [k];
      todo := todo - {k};
    }
    assert keys - todo == keys;
  }

  /** Exchanging two elements loses none and doubles none. */
  lemma Exchanged(s: seq<int>, i: nat, j: nat, keys: set<int>)
    requires i < j < |s| && Distinct(s) && Covers(s, keys)
    ensures var t := s[i := s[j]][j := s[i]]; Distinct(t) && Covers(t, keys)
  {
    var t := s[i := s[j]][j := s[i]];
    forall k | k in keys
      ensures k in t
    {
      var n :| 0 <= n < |s| && s[n] == k;
      assert t[if n == i then j else if n == j then i else n] == k;
    }
  }

  /** The first i elements are in place: sorted, and below everything behind them. */
  predicate InPlace(s: seq<int>, i: nat) {
    forall a, b :: 0 <= a < i && a < b < |s| ==> s[a] < s[b]
  }

  /** Brings the smallest of the rest to position i. */
  method Select(s: seq<int>, i: nat, ghost keys: set<int>) returns (t: seq<int>)
    requires i < |s| && Distinct(s) && Covers(s, keys) && InPlace(s, i)
    ensures |t| == |s| && Distinct(t) && Covers(t, keys) && InPlace(t, i + 1)
  {
    hide Covers;
    t := s;
    for j := i + 1 to |s|
      invariant |t| == |s| && Distinct(t) && Covers(t, keys) && InPlace(t, i)
      invariant forall b :: i < b < j ==> t[i] < t[b]
    {
      if t[j] < t[i] {
        Exchanged(t, i, j, keys);
        t := t[i := t[j]][j := t[i]];
      }
    }
  }

  method SortedIndexes(keys: set<int>) returns (idxs: seq<int>)
    ensures Ascending(idxs) && Covers(idxs, keys)
    ensures idxs == Sorted(keys)
  {
    hide Covers;
    idxs := Collect(keys);
    var n := |idxs|;
    for i := 0 to n
      invariant |idxs| == n && Distinct(idxs) && Covers(idxs, keys) && InPlace(idxs, i)
    {
      idxs := Select(idxs, i, keys);
    }
    OnlyOneOrder(idxs, Sorted(keys), keys);
  }

  /** The keys in ascending order. */
  ghost function Sorted(keys: set<int>): (s: seq<int>)
    ensures Ascending(s) && Covers(s, keys)
  {
    SomeOrder(keys);
    var s :| Ascending(s) && Covers(s, keys);
    s
  }

  lemma {:induction false} SomeOrder(keys: set<int>)
    ensures exists s :: Ascending(s) && Covers(s, keys)
    decreases |keys|
  {
    if keys == {} {
      assert Ascending([]) && Covers([], keys);
    } else {
      var x := Largest(keys);
      SomeOrder(keys - {x});
      var s :| Ascending(s) && Covers(s, keys - {x});
      assert Ascending(s + [x]) && Covers(s + [x], keys);
    }
  }

  lemma {:induction false} Largest(keys: set<int>) returns (x: int)
    requires keys != {}
    ensures x in keys && forall k :: k in keys ==> k <= x
    decreases |keys|
  {
    x := Pick(keys);
    if keys - {x} != {} {
      var y := Largest(keys - {x});
      assert forall k :: k in keys ==> k == x || k in keys - {x};
      x := if y > x then y else x;
    } else {
      assert forall k :: k in keys ==> k == x || k in keys - {x};
    }
  }

  lemma SortedRange(keys: set<int>, n: nat)
    requires forall i :: i in keys <==> 0 <= i < n
    ensures Sorted(keys) == seq(n, i => i)
  {
    var s := seq(n, i => i);
    forall k | k in keys
      ensures k in s
    {
      assert s[k] == k;
    }
    OnlyOneOrder(Sorted(keys), s, keys);
  }
}
