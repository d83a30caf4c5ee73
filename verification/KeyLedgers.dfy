// The ledgers of all keys. A request is looked up under a list of keys: first
// the identity key of its endpoint, then the legacy variants of it. When only
// variants exist they are merged into the identity key.
module KeyLedgers {
  import opened CircuitBreaker
  import opened Common
  import opened RequestLedger

  type View = map<string, Ledger>

  predicate ValidLookup(lookup: seq<string>) {
    lookup != [] && Distinct(lookup)
  }

  function Ids(l: Ledger): set<nat> {
    set e | e in l && e.owner.Some? :: e.owner.value
  }

  lemma IdsAreOwned(l: Ledger, id: nat)
    ensures id in Ids(l) <==> Owns(l, id)
  {
    if Owns(l, id) {
      var i :| 0 <= i < |l| && l[i].owner == Some(id);
      assert l[i] in l;
    }
    if id in Ids(l) {
      var e :| e in l && e.owner.Some? && e.owner.value == id;
      var i :| 0 <= i < |l| && l[i] == e;
      assert l[i].owner == Some(id);
    }
  }

  lemma IdsAppend(a: Ledger, b: Ledger)
    ensures Ids(a + b) == Ids(a) + Ids(b)
  {
  }

  /** The ledgers found under the keys, one after the other. */
  function Gather(v: View, keys: seq<string>): Ledger {
    if keys == [] then [] else (if keys[0] in v then v[keys[0]] else []) + Gather(v, keys[1..])
  }

  function Keys(lookup: seq<string>): set<string> {
    set k | k in lookup
  }

  /** getOrCreateKey: the identity key exists afterwards, and its variants do not if it is new. */
  function Promote(v: View, lookup: seq<string>): View
    requires lookup != []
  {
    if lookup[0] in v then v else (v - Keys(lookup))[lookup[0] := Gather(v, lookup[1..])]
  }

  function FirstIn(v: View, lookup: seq<string>): Option<string> {
    if lookup == [] then None
    else if lookup[0] in v then Some(lookup[0])
    else FirstIn(v, lookup[1..])
  }

  function HolderOf(v: View, lookup: seq<string>, id: nat): Option<string> {
    if lookup == [] then None
    else if lookup[0] in v && id in Ids(v[lookup[0]]) then Some(lookup[0])
    else HolderOf(v, lookup[1..], id)
  }

  /** The key a finalize or cancel works on, promoted if it is a variant. */
  function Located(v: View, lookup: seq<string>, id: nat): Option<View>
    requires lookup != []
  {
    var found := if HolderOf(v, lookup, id).Some? then HolderOf(v, lookup, id) else FirstIn(v, lookup);
    match found
    case None => None
    case Some(k) => Some(if k != lookup[0] then Promote(v, lookup) else v)
  }

  /** The ledger of the identity key with one more entry, before old ones expire. */
  function Longer(v: View, lookup: seq<string>, e: Entry): Ledger
    requires lookup != []
  {
    Promote(v, lookup)[lookup[0]] + [e]
  }

  function Appended(v: View, lookup: seq<string>, e: Entry, cutoff: int): View
    requires lookup != []
  {
    Promote(v, lookup)[lookup[0] := Expire(Longer(v, lookup, e), cutoff)]
  }

  function WithDirect(v: View, lookup: seq<string>, r: Record, cutoff: int): View
    requires lookup != []
  {
    Appended(v, lookup, Entry(r, None), cutoff)
  }

  function WithConnected(v: View, lookup: seq<string>, id: nat, r: Record, cutoff: int): View
    requires lookup != []
  {
    Appended(v, lookup, Entry(r, Some(id)), cutoff)
  }

  function WithOutcome(v: View, lookup: seq<string>, id: nat, success: bool, class_: FailureClass, tokens: Tokens,
                       now: int, cutoff: int): View
    requires lookup != []
  {
    match Located(v, lookup, id)
    case None => WithDirect(v, lookup, Direct(now, success, class_, tokens), cutoff)
    case Some(p) =>
      if lookup[0] in p && id in Ids(p[lookup[0]])
      then p[lookup[0] := Settle(p[lookup[0]], id, success, class_, tokens)]
      else WithDirect(p, lookup, Direct(now, success, class_, tokens), cutoff)
  }

  function WithCancel(v: View, lookup: seq<string>, id: nat): View
    requires lookup != []
  {
    match Located(v, lookup, id)
    case None => v
    case Some(p) =>
      if lookup[0] in p && id in Ids(p[lookup[0]]) then p[lookup[0] := Remove(p[lookup[0]], id)] else p
  }

  // ---------- The invariant ----------

  /** Every open record is the one its request's connect created, and the only one. */
  predicate Born(v: View, born: map<nat, Record>) {
    && (forall k, i :: k in v && 0 <= i < |v[k]| && v[k][i].owner.Some? ==>
          v[k][i].owner.value in born && born[v[k][i].owner.value] == v[k][i].record)
    && (forall k :: k in v ==> OwnersDistinct(v[k]))
    && (forall k, k' :: k in v && k' in v && k != k' ==> Ids(v[k]) !! Ids(v[k']))
  }

  predicate BornLedger(l: Ledger, born: map<nat, Record>) {
    && OwnersDistinct(l)
    && forall i :: 0 <= i < |l| && l[i].owner.Some? ==>
         l[i].owner.value in born && born[l[i].owner.value] == l[i].record
  }

  lemma BornUpdate(v: View, k: string, l: Ledger, born: map<nat, Record>)
    requires Born(v, born) && BornLedger(l, born)
    requires forall k' :: k' in v && k' != k ==> Ids(v[k']) !! Ids(l)
    ensures Born(v[k := l], born)
  {
  }

  /** Changing one ledger changes the open requests by what that ledger gains and loses. */
  lemma AllIdsUpdate(v: View, k: string, l: Ledger, born: map<nat, Record>)
    requires Born(v, born) && k in v
    ensures AllIds(v[k := l]) == AllIds(v) - Ids(v[k]) + Ids(l)
  {
    hide Ids;
    var w := v[k := l];
    forall id | id in AllIds(w)
      ensures id in AllIds(v) - Ids(v[k]) + Ids(l)
    {
      var k' :| k' in w && id in Ids(w[k']);
      assert k' != k ==> k' in v;
    }
    forall id | id in AllIds(v) - Ids(v[k]) + Ids(l)
      ensures id in AllIds(w)
    {
      if id in Ids(l) {
        assert w[k] == l;
      } else {
        var k' :| k' in v && id in Ids(v[k']);
        assert w[k'] == v[k'];
      }
    }
  }

  lemma ExpireKeeps(l: Ledger, cutoff: int, born: map<nat, Record>)
    requires BornLedger(l, born)
    ensures BornLedger(Expire(l, cutoff), born)
    ensures Ids(Expire(l, cutoff)) == Ids(l) - Ids(Dropped(l, cutoff))
    ensures forall id :: id in Ids(Dropped(l, cutoff)) ==> id in born && born[id].timestamp <= cutoff
  {
    hide Ids;
    var d, e := Dropped(l, cutoff), Expire(l, cutoff);
    assert l == d + e;
    IdsAppend(d, e);
    SplitKeeps(d, e, born);
    OldIds(d, cutoff, born);
  }

  lemma SplitKeeps(a: Ledger, b: Ledger, born: map<nat, Record>)
    requires BornLedger(a + b, born)
    ensures BornLedger(a, born) && BornLedger(b, born) && Ids(a) !! Ids(b)
  {
    var l := a + b;
    assert forall i :: 0 <= i < |a| ==> l[i] == a[i];
    assert forall i :: 0 <= i < |b| ==> l[|a| + i] == b[i];
    forall id | id in Ids(a)
      ensures id !in Ids(b)
    {
      IdsAreOwned(a, id);
      IdsAreOwned(b, id);
    }
  }

  lemma OldIds(d: Ledger, cutoff: int, born: map<nat, Record>)
    requires BornLedger(d, born) && forall i :: 0 <= i < |d| ==> d[i].record.timestamp <= cutoff
    ensures forall id :: id in Ids(d) ==> id in born && born[id].timestamp <= cutoff
  {
    forall id | id in Ids(d)
      ensures id in born && born[id].timestamp <= cutoff
    {
      IdsAreOwned(d, id);
    }
  }

  lemma AppendKeeps(a: Ledger, b: Ledger, born: map<nat, Record>)
    requires BornLedger(a, born) && BornLedger(b, born) && Ids(a) !! Ids(b)
    ensures BornLedger(a + b, born)
  {
    var l := a + b;
    forall i, j | 0 <= i < j < |l| && l[i].owner.Some?
      ensures l[i].owner != l[j].owner
    {
      if i < |a| <= j && l[j].owner.Some? {
        assert a[i].owner.value in Ids(a) && b[j - |a|].owner.value in Ids(b);
      }
    }
  }

  lemma SettleKeeps(l: Ledger, id: nat, success: bool, class_: FailureClass, tokens: Tokens, born: map<nat, Record>)
    requires BornLedger(l, born) && id in Ids(l)
    ensures var s := Settle(l, id, success, class_, tokens);
      BornLedger(s, born) && Ids(s) == Ids(l) - {id}
  {
    hide Settle;
    IdsAreOwned(l, id);
    var i :| 0 <= i < |l| && l[i].owner == Some(id);
    SettleAt(l, i, id, success, class_, tokens);
    var s := Settle(l, id, success, class_, tokens);
    forall j | 0 <= j < |l| && j != i && l[j].owner.Some?
      ensures l[j].owner.value != id && l[j].owner.value in Ids(s)
    {
      assert s[j] == l[j] && s[j] in s;
    }
    forall e | e in s
      ensures e.owner.Some? ==> e in l && e.owner.value != id
    {
      var j :| 0 <= j < |s| && s[j] == e;
      assert j != i ==> s[j] == l[j];
    }
  }

  lemma RemoveKeeps(l: Ledger, id: nat, born: map<nat, Record>)
    requires BornLedger(l, born) && id in Ids(l)
    ensures BornLedger(Remove(l, id), born) && Ids(Remove(l, id)) == Ids(l) - {id}
  {
    hide Remove, Ids;
    IdsAreOwned(l, id);
    var i :| 0 <= i < |l| && l[i].owner == Some(id);
    RemoveAt(l, i, id);
    var a, m, b := l[..i], [l[i]], l[i + 1..];
    assert l == a + (m + b);
    SplitKeeps(a, m + b, born);
    SplitKeeps(m, b, born);
    IdsAppend(m, b);
    IdsAppend(a, m + b);
    IdsAppend(a, b);
    OneId(l[i], id);
    AppendKeeps(a, b, born);
  }

  lemma OneId(e: Entry, id: nat)
    requires e.owner == Some(id)
    ensures Ids([e]) == {id}
  {
    assert e in [e];
  }

  lemma {:induction false} GatherKeeps(v: View, keys: seq<string>, born: map<nat, Record>)
    requires Born(v, born)
    requires Distinct(keys)
    ensures BornLedger(Gather(v, keys), born)
    ensures forall id :: id in Ids(Gather(v, keys)) <==> exists k :: k in keys && k in v && id in Ids(v[k])
  {
    if keys != [] {
      var head := if keys[0] in v then v[keys[0]] else [];
      var tail := Gather(v, keys[1..]);
      GatherKeeps(v, keys[1..], born);
      IdsAppend(head, tail);
      forall id | id in Ids(head)
        ensures id !in Ids(tail)
      {
        assert forall k :: k in keys[1..] ==> k != keys[0];
      }
      AppendKeeps(head, tail, born);
      assert keys == [keys[0]] + keys[1..];
    }
  }

  lemma PromoteKeeps(v: View, lookup: seq<string>, born: map<nat, Record>)
    requires Born(v, born) && ValidLookup(lookup)
    ensures Born(Promote(v, lookup), born) && lookup[0] in Promote(v, lookup)
    ensures AllIds(Promote(v, lookup)) == AllIds(v)
  {
    if lookup[0] !in v {
      hide Gather;
      var rest := lookup[1..];
      var p := v - Keys(lookup);
      GatherKeeps(v, rest, born);
      assert lookup == [lookup[0]] + rest;
      BornUpdate(p, lookup[0], Gather(v, rest), born);
      var q := Promote(v, lookup);
      forall id | id in AllIds(v)
        ensures id in AllIds(q)
      {
        var k :| k in v && id in Ids(v[k]);
        assert k in Keys(lookup) ==> k in rest;
        assert k in q || id in Ids(q[lookup[0]]);
      }
      forall id | id in AllIds(q)
        ensures id in AllIds(v)
      {
        var k :| k in q && id in Ids(q[k]);
      }
    }
  }

  /** All requests that still wait for an outcome. */
  function AllIds(v: View): set<nat> {
    set k, id | k in v && id in Ids(v[k]) :: id
  }

  // ---------- Every operation keeps it ----------

  /** An entry is added, and only what expires disappears. */
  lemma AppendedKeeps(v: View, lookup: seq<string>, e: Entry, cutoff: int, born: map<nat, Record>)
    requires Born(v, born) && ValidLookup(lookup) && BornLedger([e], born) && Ids([e]) !! AllIds(v)
    ensures Born(Appended(v, lookup, e, cutoff), born)
    ensures AllIds(Appended(v, lookup, e, cutoff))
         == AllIds(v) + Ids([e]) - Ids(Dropped(Longer(v, lookup, e), cutoff))
    ensures forall id :: id in Ids(Dropped(Longer(v, lookup, e), cutoff)) ==>
      id in AllIds(v) + Ids([e]) && id in born && born[id].timestamp <= cutoff
  {
    hide Promote, Expire, BornLedger, Ids;
    PromoteKeeps(v, lookup, born);
    var p := Promote(v, lookup);
    var k := lookup[0];
    var l := Longer(v, lookup, e);
    var x := Expire(l, cutoff);
    BornAt(p, k, born);
    IdsAppend(p[k], [e]);
    AppendKeeps(p[k], [e], born);
    ExpireKeeps(l, cutoff, born);
    BornUpdate(p, k, x, born);
    AllIdsUpdate(p, k, x, born);
    IdsAppend(Dropped(l, cutoff), x);
  }

  /** A result nobody announced closes nothing but what expires. */
  lemma DirectKeeps(v: View, lookup: seq<string>, r: Record, cutoff: int, born: map<nat, Record>)
    requires Born(v, born) && ValidLookup(lookup)
    ensures Born(WithDirect(v, lookup, r, cutoff), born)
    ensures AllIds(WithDirect(v, lookup, r, cutoff))
         == AllIds(v) - Ids(Dropped(Longer(v, lookup, Entry(r, None)), cutoff))
    ensures forall id :: id in Ids(Dropped(Longer(v, lookup, Entry(r, None)), cutoff)) ==>
      id in AllIds(v) && id in born && born[id].timestamp <= cutoff
  {
    hide Appended, BornLedger;
    SingleKeeps(r, None, born);
    AppendedKeeps(v, lookup, Entry(r, None), cutoff, born);
  }

  lemma BornAt(v: View, k: string, born: map<nat, Record>)
    requires Born(v, born) && k in v
    ensures BornLedger(v[k], born)
  {
  }

  lemma SingleKeeps(r: Record, owner: Option<nat>, born: map<nat, Record>)
    requires owner.Some? ==> owner.value in born && born[owner.value] == r
    ensures BornLedger([Entry(r, owner)], born)
    ensures Ids([Entry(r, owner)]) == if owner.Some? then {owner.value} else {}
  {
    assert Entry(r, owner) in [Entry(r, owner)];
  }

  /** A connect opens its own request and closes nothing but what expires. */
  lemma ConnectKeeps(v: View, lookup: seq<string>, id: nat, r: Record, cutoff: int, born: map<nat, Record>)
    requires Born(v, born) && ValidLookup(lookup) && id !in born
    ensures Born(WithConnected(v, lookup, id, r, cutoff), born[id := r])
    ensures AllIds(WithConnected(v, lookup, id, r, cutoff))
         == AllIds(v) + {id} - Ids(Dropped(Longer(v, lookup, Entry(r, Some(id))), cutoff))
    ensures forall i :: i in Ids(Dropped(Longer(v, lookup, Entry(r, Some(id))), cutoff)) ==>
      i in AllIds(v) + {id} && i in born[id := r] && born[id := r][i].timestamp <= cutoff
  {
    hide Appended, BornLedger;
    BornMonotone(v, born, id, r);
    SingleKeeps(r, Some(id), born[id := r]);
    AppendedKeeps(v, lookup, Entry(r, Some(id)), cutoff, born[id := r]);
  }

  lemma BornMonotone(v: View, born: map<nat, Record>, id: nat, r: Record)
    requires Born(v, born) && id !in born
    ensures Born(v, born[id := r]) && forall k :: k in v ==> id !in Ids(v[k])
  {
    forall k | k in v
      ensures id !in Ids(v[k])
    {
      IdsAreOwned(v[k], id);
    }
  }

  lemma LocatedKeeps(v: View, lookup: seq<string>, id: nat, born: map<nat, Record>)
    requires Born(v, born) && ValidLookup(lookup)
    ensures Located(v, lookup, id).Some? ==>
      && Born(Located(v, lookup, id).value, born)
      && lookup[0] in Located(v, lookup, id).value
      && Located(v, lookup, id).value == Promote(v, lookup)
    ensures Reaches(v, lookup, id) ==>
      Located(v, lookup, id).Some? && id in Ids(Promote(v, lookup)[lookup[0]])
    ensures !Reaches(v, lookup, id) && Located(v, lookup, id).Some? ==> id !in Ids(Promote(v, lookup)[lookup[0]])
  {
    hide Gather;
    PromoteKeeps(v, lookup, born);
    FirstInIsIn(v, lookup);
    HolderIsIn(v, lookup, id);
    GatherKeeps(v, lookup[1..], born);
    assert lookup == [lookup[0]] + lookup[1..];
  }

  lemma {:induction false} FirstInIsIn(v: View, lookup: seq<string>)
    ensures FirstIn(v, lookup).Some? ==> FirstIn(v, lookup).value in v && FirstIn(v, lookup).value in lookup
    ensures FirstIn(v, lookup).None? ==> forall k :: k in lookup ==> k !in v
    ensures lookup != [] && lookup[0] in v ==> FirstIn(v, lookup) == Some(lookup[0])
  {
    if lookup != [] && lookup[0] !in v {
      FirstInIsIn(v, lookup[1..]);
      assert lookup == [lookup[0]] + lookup[1..];
    }
  }

  lemma {:induction false} HolderIsIn(v: View, lookup: seq<string>, id: nat)
    ensures HolderOf(v, lookup, id).Some? ==>
      var k := HolderOf(v, lookup, id).value; k in v && k in lookup && id in Ids(v[k])
    ensures HolderOf(v, lookup, id).None? ==> forall k :: k in lookup && k in v ==> id !in Ids(v[k])
  {
    if lookup != [] && !(lookup[0] in v && id in Ids(v[lookup[0]])) {
      HolderIsIn(v, lookup[1..], id);
      assert lookup == [lookup[0]] + lookup[1..];
    }
  }

  /**
   * The request is open under its lookup, and a finalize or cancel gets at it:
   * its record is in the identity key, or no identity key exists yet and the
   * variants become one.
   */
  predicate Reaches(v: View, lookup: seq<string>, id: nat)
    requires lookup != []
  {
    var holder := HolderOf(v, lookup, id);
    holder.Some? && (holder.value == lookup[0] || lookup[0] !in v)
  }

  lemma PromoteTwice(v: View, lookup: seq<string>)
    requires lookup != []
    ensures lookup[0] in Promote(v, lookup) && Promote(Promote(v, lookup), lookup) == Promote(v, lookup)
  {
  }

  /** Without a record to rewrite, a finalize is a result nobody announced. */
  lemma OutcomeUnreached(v: View, lookup: seq<string>, id: nat, success: bool, class_: FailureClass, tokens: Tokens,
                         now: int, cutoff: int, born: map<nat, Record>)
    requires Born(v, born) && ValidLookup(lookup) && !Reaches(v, lookup, id)
    ensures WithOutcome(v, lookup, id, success, class_, tokens, now, cutoff)
         == WithDirect(v, lookup, Direct(now, success, class_, tokens), cutoff)
  {
    hide Promote, Direct, Located, Ids, Settle;
    LocatedKeeps(v, lookup, id, born);
    PromoteTwice(v, lookup);
  }

  /** Where the one record of a request stands. */
  lemma OpenAt(l: Ledger, id: nat, born: map<nat, Record>) returns (i: nat)
    requires BornLedger(l, born) && id in Ids(l)
    ensures i < |l| && id in born && l[i] == Entry(born[id], Some(id))
  {
    IdsAreOwned(l, id);
    i :| 0 <= i < |l| && l[i].owner == Some(id);
  }

  /** A finalize that reaches its request rewrites the record its connect created, and nothing else. */
  lemma OutcomeRewrites(v: View, lookup: seq<string>, id: nat, success: bool, class_: FailureClass, tokens: Tokens,
                        now: int, cutoff: int, born: map<nat, Record>) returns (i: nat)
    requires Born(v, born) && ValidLookup(lookup) && Reaches(v, lookup, id)
    ensures var p, k := Promote(v, lookup), lookup[0];
      && k in p && i < |p[k]| && id in born && p[k][i] == Entry(born[id], Some(id))
      && WithOutcome(v, lookup, id, success, class_, tokens, now, cutoff)
           == p[k := p[k][i := Entry(Settled(born[id], success, class_, tokens), None)]]
    ensures var s := Settled(born[id], success, class_, tokens);
      Says(s, success, class_, tokens) && s.model == born[id].model && s.timestamp == born[id].timestamp
  {
    hide Promote, Settle, Located, Ids, BornLedger, Settled, Says;
    LocatedKeeps(v, lookup, id, born);
    var p, k := Promote(v, lookup), lookup[0];
    BornAt(p, k, born);
    i := OpenAt(p[k], id, born);
    SettleAt(p[k], i, id, success, class_, tokens);
    SettledSays(born[id], success, class_, tokens);
  }

  /** A cancel that reaches its request deletes the record its connect created, and nothing else. */
  lemma CancelDeletes(v: View, lookup: seq<string>, id: nat, born: map<nat, Record>) returns (i: nat)
    requires Born(v, born) && ValidLookup(lookup) && Reaches(v, lookup, id)
    ensures var p, k := Promote(v, lookup), lookup[0];
      && k in p && i < |p[k]| && id in born && p[k][i] == Entry(born[id], Some(id))
      && WithCancel(v, lookup, id) == p[k := p[k][..i] + p[k][i + 1..]]
  {
    hide Promote, Remove, Located, Ids, BornLedger;
    LocatedKeeps(v, lookup, id, born);
    var p, k := Promote(v, lookup), lookup[0];
    BornAt(p, k, born);
    i := OpenAt(p[k], id, born);
    RemoveAt(p[k], i, id);
  }

  /** A cancel that does not reach its request only merges the variants under the lookup, if there are any. */
  lemma CancelUnreachedMerges(v: View, lookup: seq<string>, id: nat, born: map<nat, Record>)
    requires Born(v, born) && ValidLookup(lookup) && !Reaches(v, lookup, id)
    ensures WithCancel(v, lookup, id) == if exists k :: k in lookup && k in v then Promote(v, lookup) else v
  {
    hide Promote, Located, Ids;
    LocatedKeeps(v, lookup, id, born);
    HolderIsIn(v, lookup, id);
    FirstInIsIn(v, lookup);
    LocatedSome(v, lookup, id);
  }

  lemma LocatedSome(v: View, lookup: seq<string>, id: nat)
    requires lookup != []
    ensures Located(v, lookup, id).Some? <==> HolderOf(v, lookup, id).Some? || FirstIn(v, lookup).Some?
  {
  }

  /** A finalize closes exactly its own request if it reaches it, and otherwise only what expires. */
  lemma OutcomeKeeps(v: View, lookup: seq<string>, id: nat, success: bool, class_: FailureClass, tokens: Tokens,
                     now: int, cutoff: int, born: map<nat, Record>)
    requires Born(v, born) && ValidLookup(lookup)
    ensures var out := WithOutcome(v, lookup, id, success, class_, tokens, now, cutoff);
      && Born(out, born)
      && AllIds(out) == AllIds(v) - ClosedByOutcome(v, lookup, id, Direct(now, success, class_, tokens), cutoff)
    ensures Reaches(v, lookup, id) ==> id in AllIds(v)
  {
    hide Promote, Settle, Direct, WithDirect, BornLedger, Longer, Ids;
    LocatedKeeps(v, lookup, id, born);
    PromoteKeeps(v, lookup, born);
    if Reaches(v, lookup, id) {
      var p, k := Promote(v, lookup), lookup[0];
      var l := Settle(p[k], id, success, class_, tokens);
      BornAt(p, k, born);
      SettleKeeps(p[k], id, success, class_, tokens, born);
      BornUpdate(p, k, l, born);
      AllIdsUpdate(p, k, l, born);
    } else {
      OutcomeUnreached(v, lookup, id, success, class_, tokens, now, cutoff, born);
      DirectKeeps(v, lookup, Direct(now, success, class_, tokens), cutoff, born);
    }
  }

  function ClosedByOutcome(v: View, lookup: seq<string>, id: nat, r: Record, cutoff: int): set<nat>
    requires lookup != []
  {
    if Reaches(v, lookup, id) then {id} else Ids(Dropped(Longer(v, lookup, Entry(r, None)), cutoff))
  }

  /** A cancel closes exactly its own request if it reaches it, and otherwise nothing. */
  lemma CancelKeeps(v: View, lookup: seq<string>, id: nat, born: map<nat, Record>)
    requires Born(v, born) && ValidLookup(lookup)
    ensures Born(WithCancel(v, lookup, id), born)
    ensures AllIds(WithCancel(v, lookup, id)) == AllIds(v) - (if Reaches(v, lookup, id) then {id} else {})
    ensures Reaches(v, lookup, id) ==> id in AllIds(v)
  {
    hide Promote, Remove, BornLedger, Ids;
    LocatedKeeps(v, lookup, id, born);
    PromoteKeeps(v, lookup, born);
    if Reaches(v, lookup, id) {
      var p, k := Promote(v, lookup), lookup[0];
      BornAt(p, k, born);
      RemoveKeeps(p[k], id, born);
      BornUpdate(p, k, Remove(p[k], id), born);
      AllIdsUpdate(p, k, Remove(p[k], id), born);
    }
  }

  // ---------- When finalizing finds the record ----------

  /**
   * A finalize settles the record of its request exactly when it is held under
   * the lookup by the identity key, or by a variant while no identity key
   * exists. Otherwise the record stays open and the outcome is recorded afresh.
   */
  lemma FinalizeSettlesExactly(v: View, lookup: seq<string>, id: nat, success: bool, class_: FailureClass,
                               tokens: Tokens, now: int, cutoff: int, born: map<nat, Record>)
    requires Born(v, born) && ValidLookup(lookup) && id in AllIds(v)
    ensures id !in AllIds(WithOutcome(v, lookup, id, success, class_, tokens, now, cutoff)) <==> Reaches(v, lookup, id)
    ensures !Reaches(v, lookup, id) ==>
      WithOutcome(v, lookup, id, success, class_, tokens, now, cutoff)
        == WithDirect(v, lookup, Direct(now, success, class_, tokens), cutoff)
  {
    hide Promote, Direct, Ids, Settle, WithDirect, Expire;
    OutcomeKeeps(v, lookup, id, success, class_, tokens, now, cutoff, born);
    if !Reaches(v, lookup, id) {
      var r := Direct(now, success, class_, tokens);
      OutcomeUnreached(v, lookup, id, success, class_, tokens, now, cutoff, born);
      UnreachedStays(v, lookup, id, Entry(r, None), cutoff, born);
    }
  }

  /** A request a finalize does not reach is not in the ledger where records may expire. */
  lemma UnreachedStays(v: View, lookup: seq<string>, id: nat, e: Entry, cutoff: int, born: map<nat, Record>)
    requires Born(v, born) && ValidLookup(lookup) && !Reaches(v, lookup, id) && e.owner.None?
    ensures id !in Ids(Dropped(Longer(v, lookup, e), cutoff))
  {
    hide Ids, Gather;
    var l := Longer(v, lookup, e);
    HolderIsIn(v, lookup, id);
    GatherKeeps(v, lookup[1..], born);
    assert lookup == [lookup[0]] + lookup[1..];
    assert id !in Ids(Promote(v, lookup)[lookup[0]]);
    SingleKeeps(e.record, None, born);
    IdsAppend(Promote(v, lookup)[lookup[0]], [e]);
    IdsAppend(Dropped(l, cutoff), Expire(l, cutoff));
  }

  // ---------- Runs ----------

  const DAY := 24 * 3_600_000_000_000

  datatype Event =
    | Connect(lookup: seq<string>, model: string, at: int, now: int)
    | Finalize(lookup: seq<string>, id: nat, success: bool, class_: FailureClass, tokens: Tokens, now: int)
    | ClientCancelled(lookup: seq<string>, id: nat)
    | RecordResult(lookup: seq<string>, success: bool, class_: FailureClass, tokens: Tokens, now: int)
    | ResetKey(lookup: seq<string>)
    | Forget(keys: set<string>)

  datatype State = State(view: View, nextRequestID: nat)

  const START := State(map[], 0)

  predicate ValidEvent(e: Event) {
    e.Forget? || ValidLookup(e.lookup)
  }

  function WithReset(v: View, lookup: seq<string>): View {
    match FirstIn(v, lookup)
    case None => v
    case Some(k) => v[k := []]
  }

  function Step(s: State, e: Event): State
    requires ValidEvent(e)
  {
    match e
    case Connect(lookup, model, at, now) =>
      var id := s.nextRequestID + 1;
      State(WithConnected(s.view, lookup, id, Connected(model, at), now - DAY), id)
    case Finalize(lookup, id, success, class_, tokens, now) =>
      s.(view := WithOutcome(s.view, lookup, id, success, class_, tokens, now, now - DAY))
    case ClientCancelled(lookup, id) => s.(view := WithCancel(s.view, lookup, id))
    case RecordResult(lookup, success, class_, tokens, now) =>
      s.(view := WithDirect(s.view, lookup, Direct(now, success, class_, tokens), now - DAY))
    case ResetKey(lookup) => s.(view := WithReset(s.view, lookup))
    case Forget(keys) => s.(view := s.view - keys)
  }

  ghost function After(events: seq<Event>): State
    requires forall e :: e in events ==> ValidEvent(e)
  {
    if events == [] then START
    else
      assert events[|events| - 1] in events;
      Step(After(events[..|events| - 1]), events[|events| - 1])
  }

  /** The records the connects of a run created, in order. */
  function Connects(events: seq<Event>): seq<Record> {
    if events == [] then []
    else
      Connects(events[..|events| - 1])
      + match events[|events| - 1]
        case Connect(_, model, at, _) => [Connected(model, at)]
        case _ => []
  }

  /** Request ids count the connects from 1. */
  function Numbered(records: seq<Record>): (m: map<nat, Record>)
    ensures forall id :: id in m <==> 1 <= id <= |records|
    ensures forall id :: id in m ==> m[id] == records[id - 1]
  {
    if records == [] then map[]
    else Numbered(records[..|records| - 1])[|records| := records[|records| - 1]]
  }

  /** The open requests of the first matching key. */
  function ClosedByReset(v: View, lookup: seq<string>): set<nat> {
    match FirstIn(v, lookup)
    case None => {}
    case Some(k) => if k in v then Ids(v[k]) else {}
  }

  /** A reset closes exactly the requests of the first matching key. */
  lemma ResetKeeps(v: View, lookup: seq<string>, born: map<nat, Record>)
    requires Born(v, born)
    ensures Born(WithReset(v, lookup), born)
    ensures AllIds(WithReset(v, lookup)) == AllIds(v) - ClosedByReset(v, lookup)
    ensures ClosedByReset(v, lookup) <= AllIds(v)
  {
    hide AllIds;
    FirstInIsIn(v, lookup);
    if FirstIn(v, lookup).Some? {
      var k := FirstIn(v, lookup).value;
      BornUpdate(v, k, [], born);
      AllIdsUpdate(v, k, [], born);
      IdsOfKey(v, k);
    }
  }

  lemma IdsOfKey(v: View, k: string)
    requires k in v
    ensures Ids(v[k]) <= AllIds(v)
  {
  }

  /** The requests an event closes, and why: its own outcome or cancel, age, a reset or a deletion. */
  function Closes(s: State, e: Event): set<nat>
    requires ValidEvent(e)
  {
    match e
    case Connect(lookup, model, at, now) =>
      Ids(Dropped(Longer(s.view, lookup, Entry(Connected(model, at), Some(s.nextRequestID + 1))), now - DAY))
    case Finalize(lookup, id, success, class_, tokens, now) =>
      ClosedByOutcome(s.view, lookup, id, Direct(now, success, class_, tokens), now - DAY)
    case ClientCancelled(lookup, id) => if Reaches(s.view, lookup, id) then {id} else {}
    case RecordResult(lookup, success, class_, tokens, now) =>
      Ids(Dropped(Longer(s.view, lookup, Entry(Direct(now, success, class_, tokens), None)), now - DAY))
    case ResetKey(lookup) => ClosedByReset(s.view, lookup)
    case Forget(keys) => AllIds(map k | k in s.view && k in keys :: s.view[k])
  }

  function Opens(s: State, e: Event): set<nat> {
    if e.Connect? then {s.nextRequestID + 1} else {}
  }

  ghost function ClosedIn(events: seq<Event>): set<nat>
    requires forall e :: e in events ==> ValidEvent(e)
  {
    if events == [] then {}
    else
      var init, last := events[..|events| - 1], events[|events| - 1];
      assert last in events;
      ClosedIn(init) + Closes(After(init), last)
  }

  /**
   * After every run, each request that still waits owns exactly one record
   * over all keys, and that is the record its own connect created: the id-th
   * connect of the run.
   */
  lemma {:induction false} EveryIndexPointsAtItsConnect(events: seq<Event>)
    requires forall e :: e in events ==> ValidEvent(e)
    ensures After(events).nextRequestID == |Connects(events)|
    ensures Born(After(events).view, Numbered(Connects(events)))
  {
    hide Born, WithConnected, WithDirect, WithOutcome, WithCancel, WithReset, Numbered;
    if events == [] {
      NothingBorn();
    } else {
      var before, e := events[..|events| - 1], events[|events| - 1];
      EveryIndexPointsAtItsConnect(before);
      StepKeeps(After(before), e, Connects(before));
      assert Connects(before) + [] == Connects(before);
    }
  }

  /** The connects of a run, in order. */
  function ConnectEvents(events: seq<Event>): (r: seq<Event>)
    ensures forall e :: e in r ==> e.Connect?
  {
    if events == [] then []
    else ConnectEvents(events[..|events| - 1]) + if events[|events| - 1].Connect? then [events[|events| - 1]] else []
  }

  /** The record of a request that still waits: a success so far, of the given model and time. */
  predicate Waiting(r: Record, connect: Event)
    requires connect.Connect?
  {
    r.model == connect.model && r.timestamp == connect.at && Says(r, true, NoClass, Tokens(0, 0, 0, 0))
  }

  lemma {:induction false} ConnectsWait(events: seq<Event>)
    ensures |Connects(events)| == |ConnectEvents(events)|
    ensures forall i :: 0 <= i < |Connects(events)| ==> Waiting(Connects(events)[i], ConnectEvents(events)[i])
  {
    hide Says;
    if events != [] {
      ConnectsWait(events[..|events| - 1]);
      var e := events[|events| - 1];
      if e.Connect? {
        ConnectedWaits(e);
      }
    }
  }

  lemma ConnectedWaits(e: Event)
    requires e.Connect?
    ensures Waiting(Connected(e.model, e.at), e)
  {
  }

  /** In every run, the record of a request that still waits shows the model and time of its own connect, as a success. */
  lemma OpenRecordsShowTheirConnects(events: seq<Event>, k: string, i: nat)
    requires forall e :: e in events ==> ValidEvent(e)
    requires k in After(events).view && i < |After(events).view[k]| && After(events).view[k][i].owner.Some?
    ensures var e := After(events).view[k][i];
      && 1 <= e.owner.value <= |ConnectEvents(events)|
      && Waiting(e.record, ConnectEvents(events)[e.owner.value - 1])
  {
    hide After, Waiting, Connects, ConnectEvents;
    EveryIndexPointsAtItsConnect(events);
    ConnectsWait(events);
  }

  lemma NothingBorn()
    ensures Born(map[], Numbered([]))
  {
  }

  lemma ConnectStepKeeps(s: State, e: Event, connects: seq<Record>)
    requires ValidEvent(e) && e.Connect? && s.nextRequestID == |connects| && Born(s.view, Numbered(connects))
    ensures Born(Step(s, e).view, Numbered(connects + [Connected(e.model, e.at)]))
    ensures Conserved(s, e)
  {
    hide Born, Connected, Numbered, ValidLookup, WithConnected, Longer, Ids, AllIds;
    var r := Connected(e.model, e.at);
    NumberedSnoc(connects, r);
    ConnectKeeps(s.view, e.lookup, |connects| + 1, r, e.now - DAY, Numbered(connects));
  }

  /** An event opens and closes what it says. */
  predicate Conserved(s: State, e: Event)
    requires ValidEvent(e)
  {
    && AllIds(Step(s, e).view) == AllIds(s.view) + Opens(s, e) - Closes(s, e)
    && Closes(s, e) <= AllIds(s.view) + Opens(s, e)
  }

  lemma FinalizeStepKeeps(s: State, e: Event, born: map<nat, Record>)
    requires ValidEvent(e) && e.Finalize? && Born(s.view, born)
    ensures Born(Step(s, e).view, born) && Conserved(s, e)
  {
    hide Born, WithOutcome, WithDirect, Direct, AllIds, Ids, Longer, Reaches;
    var r := Direct(e.now, e.success, e.class_, e.tokens);
    OutcomeKeeps(s.view, e.lookup, e.id, e.success, e.class_, e.tokens, e.now, e.now - DAY, born);
    DirectKeeps(s.view, e.lookup, r, e.now - DAY, born);
  }

  lemma CancelStepKeeps(s: State, e: Event, born: map<nat, Record>)
    requires ValidEvent(e) && e.ClientCancelled? && Born(s.view, born)
    ensures Born(Step(s, e).view, born) && Conserved(s, e)
  {
    hide Born, WithCancel, AllIds, Reaches;
    CancelKeeps(s.view, e.lookup, e.id, born);
  }

  lemma DirectStepKeeps(s: State, e: Event, born: map<nat, Record>)
    requires ValidEvent(e) && e.RecordResult? && Born(s.view, born)
    ensures Born(Step(s, e).view, born) && Conserved(s, e)
  {
    hide Born, WithDirect, Direct, AllIds, Ids, Longer;
    DirectKeeps(s.view, e.lookup, Direct(e.now, e.success, e.class_, e.tokens), e.now - DAY, born);
  }

  lemma ResetStepKeeps(s: State, e: Event, born: map<nat, Record>)
    requires ValidEvent(e) && (e.ResetKey? || e.Forget?) && Born(s.view, born)
    ensures Born(Step(s, e).view, born) && Conserved(s, e)
  {
    hide Born, WithReset, AllIds, ClosedByReset;
    if e.ResetKey? {
      ResetKeeps(s.view, e.lookup, born);
    } else {
      ForgetKeeps(s.view, e.keys, born);
    }
  }

  /** Every event keeps the invariant, and opens and closes what it says. */
  lemma StepKeeps(s: State, e: Event, connects: seq<Record>)
    requires ValidEvent(e) && s.nextRequestID == |connects| && Born(s.view, Numbered(connects))
    ensures e.Connect? ==> Born(Step(s, e).view, Numbered(connects + [Connected(e.model, e.at)]))
    ensures !e.Connect? ==> Born(Step(s, e).view, Numbered(connects))
    ensures Conserved(s, e)
  {
    hide Born, Step, Conserved, Connected, Numbered, ValidEvent;
    match e {
      case Connect(_, _, _, _) => ConnectStepKeeps(s, e, connects);
      case Finalize(_, _, _, _, _, _) => FinalizeStepKeeps(s, e, Numbered(connects));
      case ClientCancelled(_, _) => CancelStepKeeps(s, e, Numbered(connects));
      case RecordResult(_, _, _, _, _) => DirectStepKeeps(s, e, Numbered(connects));
      case ResetKey(_) => ResetStepKeeps(s, e, Numbered(connects));
      case Forget(_) => ResetStepKeeps(s, e, Numbered(connects));
    }
  }

  /**
   * Over every run, the requests still open are exactly those that connected
   * and were not closed: by their own outcome or cancel, by expiry, by a reset
   * of their key or by its deletion.
   */
  lemma {:induction false} OpenUntilClosed(events: seq<Event>)
    requires forall e :: e in events ==> ValidEvent(e)
    ensures AllIds(After(events).view) == Numbered(Connects(events)).Keys - ClosedIn(events)
  {
    hide Born, AllIds, Closes, Numbered, WithConnected, WithDirect, WithOutcome, WithCancel, WithReset;
    if events == [] {
      NothingOpen();
    } else {
      var before, e := events[..|events| - 1], events[|events| - 1];
      OpenUntilClosed(before);
      EveryIndexPointsAtItsConnect(before);
      StepKeeps(After(before), e, Connects(before));
      ClosedWereNumbered(before);
      NumberedMore(Connects(before));
      assert Connects(before) + [] == Connects(before);
      assert Opens(After(before), e) !! Numbered(Connects(before)).Keys;
      if e.Connect? {
        NumberedSnoc(Connects(before), Connected(e.model, e.at));
      }
    }
  }

  lemma NumberedMore(records: seq<Record>)
    ensures |records| + 1 !in Numbered(records)
  {
  }

  lemma NothingOpen()
    ensures AllIds(map[]) == {} && Numbered([]).Keys == {}
  {
  }

  /** Nothing is closed that never connected. */
  lemma {:induction false} ClosedWereNumbered(events: seq<Event>)
    requires forall e :: e in events ==> ValidEvent(e)
    ensures ClosedIn(events) <= Numbered(Connects(events)).Keys
  {
    hide Born, AllIds, Closes, Numbered, WithConnected, WithDirect, WithOutcome, WithCancel, WithReset;
    if events != [] {
      var before, e := events[..|events| - 1], events[|events| - 1];
      ClosedWereNumbered(before);
      OpenUntilClosed(before);
      EveryIndexPointsAtItsConnect(before);
      StepKeeps(After(before), e, Connects(before));
      assert Connects(before) + [] == Connects(before);
      if e.Connect? {
        NumberedSnoc(Connects(before), Connected(e.model, e.at));
      }
    }
  }

  lemma NumberedSnoc(records: seq<Record>, r: Record)
    ensures Numbered(records + [r]) == Numbered(records)[|records| + 1 := r]
    ensures |records| + 1 !in Numbered(records)
  {
    assert (records + [r])[..|records|] == records;
  }

  /** Deleting keys closes exactly the requests they hold. */
  lemma ForgetKeeps(v: View, keys: set<string>, born: map<nat, Record>)
    requires Born(v, born)
    ensures Born(v - keys, born)
    ensures var gone := AllIds(map k | k in v && k in keys :: v[k]);
      AllIds(v - keys) == AllIds(v) - gone && gone <= AllIds(v)
  {
    hide Ids;
    var m := map k | k in v && k in keys :: v[k];
    forall id | id in AllIds(v)
      ensures id in AllIds(m) || id in AllIds(v - keys)
    {
      var k :| k in v && id in Ids(v[k]);
      if k in keys {
        assert k in m;
      } else {
        assert (v - keys)[k] == v[k];
      }
    }
  }

  /** The event closes requests by age only. */
  predicate OnlyExpires(s: State, e: Event)
    requires ValidEvent(e)
  {
    e.Connect? || e.RecordResult? || (e.Finalize? && !Reaches(s.view, e.lookup, e.id))
  }

  /** Age closes a request only when its own connect is a day old. */
  lemma OnlyOldRequestsExpire(events: seq<Event>, e: Event, id: nat)
    requires forall e :: e in events + [e] ==> ValidEvent(e)
    requires ValidEvent(e) && OnlyExpires(After(events), e) && id in Closes(After(events), e)
    ensures var records := Connects(events + [e]); 1 <= id <= |records| && records[id - 1].timestamp <= e.now - DAY
  {
    hide Born, Longer, Connected, Direct, Numbered, WithConnected, WithDirect, After, Ids;
    EveryIndexPointsAtItsConnect(events);
    var s, connects := After(events), Connects(events);
    var born := Numbered(connects);
    assert (events + [e])[..|events|] == events;
    if e.Connect? {
      var r := Connected(e.model, e.at);
      assert Connects(events + [e]) == connects + [r];
      NumberedSnoc(connects, r);
      ConnectKeeps(s.view, e.lookup, |connects| + 1, r, e.now - DAY, born);
      assert id in Numbered(connects + [r]);
    } else {
      assert Connects(events + [e]) == connects + [];
      DirectKeeps(s.view, e.lookup, Direct(e.now, e.success, e.class_, e.tokens), e.now - DAY, born);
      assert id in Numbered(connects);
    }
  }

  // ---------- A run that counts a request twice ----------

  /** A run of one endpoint with key k and variant k2, and another with key other and variant k. */
  function Twice(k: string, k2: string, other: string, tokens: Tokens): (events: seq<Event>)
    requires k != k2 && k != other
    ensures forall e :: e in events ==> ValidEvent(e)
  {
    [Connect([k, k2], "m", 1, 1),
     RecordResult([other, k], true, NoClass, tokens, 2),
     Finalize([k, k2], 1, true, NoClass, tokens, 3)]
  }

  /**
   * The result of the other endpoint takes over k with the open record, and the
   * finalize no longer finds it under its own lookup: the record stays open,
   * and the outcome is recorded in a new one.
   */
  lemma MergedAwayIsCountedTwice(k: string, k2: string, other: string, tokens: Tokens)
    requires k != k2 && k != other && k2 != other
    ensures var events := Twice(k, k2, other, tokens);
      && !Reaches(After(events[..2]).view, [k, k2], 1)
      && 1 in AllIds(After(events).view)
      && After(events).view == map[
           other := [Entry(Connected("m", 1), Some(1)), Entry(Direct(2, true, NoClass, tokens), None)],
           k := [Entry(Direct(3, true, NoClass, tokens), None)]]
  {
    var events := Twice(k, k2, other, tokens);
    var open, r := Entry(Connected("m", 1), Some(1)), Entry(Direct(2, true, NoClass, tokens), None);
    assert events[..2][..1] == events[..1] && events[..1][..0] == [];
    assert After(events[..1]) == Step(START, events[0]);
    assert After(events[..2]) == Step(After(events[..1]), events[1]);
    assert After(events) == Step(After(events[..2]), events[2]);
    FirstConnect(k, k2);
    TakenOver(k, other, open, r);
    var v := map[other := [open, r]];
    PairAbsent(v, k, k2, 1);
    FirstDirect(v, k, k2, Direct(3, true, NoClass, tokens));
    assert open in [open, r];
    assert 1 in Ids(After(events).view[other]);
  }

  lemma PairAbsent(v: View, k: string, k2: string, id: nat)
    requires k !in v && k2 !in v
    ensures HolderOf(v, [k, k2], id) == None && FirstIn(v, [k, k2]) == None && Gather(v, [k2]) == []
    ensures Promote(v, [k, k2]) == v[k := []]
  {
    assert [k, k2][1..] == [k2] && [k2][1..] == [];
    assert HolderOf(v, [k2], id) == None && FirstIn(v, [k2]) == None;
    assert v - Keys([k, k2]) == v;
  }

  lemma FreshStays(l: Ledger, e: Entry, cutoff: int)
    requires e.record.timestamp > cutoff && (l != [] ==> l[0].record.timestamp > cutoff)
    ensures Expire(l + [e], cutoff) == l + [e]
  {
  }

  lemma FirstConnect(k: string, k2: string)
    requires k != k2
    ensures WithConnected(map[], [k, k2], 1, Connected("m", 1), 1 - DAY) == map[k := [Entry(Connected("m", 1), Some(1))]]
  {
    var e := Entry(Connected("m", 1), Some(1));
    PairAbsent(map[], k, k2, 1);
    FreshStays([], e, 1 - DAY);
    assert [] + [e] == [e];
  }

  lemma TakenOver(k: string, other: string, open: Entry, r: Entry)
    requires k != other && open.record.timestamp == 1 && r.owner == None && r.record.timestamp == 2
    ensures WithDirect(map[k := [open]], [other, k], r.record, 2 - DAY) == map[other := [open, r]]
  {
    var v := map[k := [open]];
    assert [other, k][1..] == [k] && [k][1..] == [];
    assert [k][0] in v && Gather(v, [k]) == v[k] + Gather(v, []);
    assert v[k] + [] == [open];
    assert v - Keys([other, k]) == map[] by { assert k in [other, k]; }
    assert Promote(v, [other, k]) == map[other := [open]];
    FreshStays([open], r, 2 - DAY);
    assert [open] + [r] == [open, r] && Entry(r.record, None) == r;
  }

  lemma FirstDirect(v: View, k: string, k2: string, r: Record)
    requires k !in v && k2 !in v && r.timestamp == 3
    ensures WithDirect(v, [k, k2], r, 3 - DAY) == v[k := [Entry(r, None)]]
  {
    PairAbsent(v, k, k2, 1);
    FreshStays([], Entry(r, None), 3 - DAY);
    assert [] + [Entry(r, None)] == [Entry(r, None)];
  }
}
