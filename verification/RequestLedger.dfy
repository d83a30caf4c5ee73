// Request history as a ledger: each record together with the request that
// still has to settle it. No positions appear here; the index map of
// KeyMetrics is proved to implement exactly these operations.
module RequestLedger {
  import opened CircuitBreaker
  import opened Common

  datatype Tokens = Tokens(input: int, output: int, cacheCreation: int, cacheRead: int)

  const NO_TOKENS := Tokens(0, 0, 0, 0)

  datatype Record = Record(model: string, timestamp: int, success: bool, failureClass: FailureClass, tokens: Tokens)

  /** owner is the request id whose outcome the record still waits for. */
  datatype Entry = Entry(record: Record, owner: Option<nat>)

  type Ledger = seq<Entry>

  function Zip(records: seq<Record>, owners: seq<Option<nat>>): (l: Ledger)
    requires |records| == |owners|
    ensures |l| == |records|
    ensures forall i :: 0 <= i < |l| ==> l[i] == Entry(records[i], owners[i])
  {
    seq(|records|, i requires 0 <= i < |records| => Entry(records[i], owners[i]))
  }

  function ClassOf(success: bool, class_: FailureClass): FailureClass {
    if success then NoClass else Normalized(class_)
  }

  /** A connected request counts as a success until it is settled. */
  function Connected(model: string, timestamp: int): Record {
    Record(model, timestamp, true, NoClass, NO_TOKENS)
  }

  function Direct(timestamp: int, success: bool, class_: FailureClass, tokens: Tokens): Record {
    Record("", timestamp, success, ClassOf(success, class_), if success then tokens else NO_TOKENS)
  }

  function Settled(r: Record, success: bool, class_: FailureClass, tokens: Tokens): Record {
    r.(success := success, failureClass := ClassOf(success, class_), tokens := if success then tokens else NO_TOKENS)
  }

  /** What a record says of an outcome: a success its tokens, a failure its class, which is retryable if none is given. */
  predicate Says(r: Record, success: bool, class_: FailureClass, tokens: Tokens) {
    && r.success == success
    && (success ==> r.failureClass == NoClass && r.tokens == tokens)
    && (!success ==> r.failureClass == (if class_ == NoClass then Retryable else class_) && r.tokens == Tokens(0, 0, 0, 0))
  }

  /** A settled record says the outcome, of the request it was created for. */
  lemma SettledSays(r: Record, success: bool, class_: FailureClass, tokens: Tokens)
    ensures var s := Settled(r, success, class_, tokens);
      Says(s, success, class_, tokens) && s.model == r.model && s.timestamp == r.timestamp
  {
  }

  /** An unannounced outcome is recorded under its own time, without a model. */
  lemma DirectSays(now: int, success: bool, class_: FailureClass, tokens: Tokens)
    ensures var d := Direct(now, success, class_, tokens);
      Says(d, success, class_, tokens) && d.model == "" && d.timestamp == now
  {
  }

  /** Drops the records in front that are not after the cutoff. */
  function Expire(l: Ledger, cutoff: int): Ledger {
    if l != [] && l[0].record.timestamp <= cutoff then Expire(l[1..], cutoff) else l
  }

  /** Rewrites the record of one request, wherever it stands, and settles it. */
  function Settle(l: Ledger, id: nat, success: bool, class_: FailureClass, tokens: Tokens): Ledger {
    if l == [] then []
    else
      [if l[0].owner == Some(id) then Entry(Settled(l[0].record, success, class_, tokens), None) else l[0]]
      + Settle(l[1..], id, success, class_, tokens)
  }

  /** Removes the record of one request, wherever it stands. */
  function Remove(l: Ledger, id: nat): Ledger {
    if l == [] then []
    else (if l[0].owner == Some(id) then [] else [l[0]]) + Remove(l[1..], id)
  }

  predicate Owns(l: Ledger, id: nat) {
    exists i :: 0 <= i < |l| && l[i].owner == Some(id)
  }

  /** No two records wait for the same request. */
  predicate OwnersDistinct(l: Ledger) {
    forall i, j :: 0 <= i < j < |l| && l[i].owner.Some? ==> l[i].owner != l[j].owner
  }

  lemma {:induction false} ExpireIsSuffix(l: Ledger, cutoff: int)
    ensures |Expire(l, cutoff)| <= |l|
    ensures Expire(l, cutoff) == l[|l| - |Expire(l, cutoff)|..]
    ensures forall i :: 0 <= i < |l| - |Expire(l, cutoff)| ==> l[i].record.timestamp <= cutoff
    ensures Expire(l, cutoff) != [] ==> Expire(l, cutoff)[0].record.timestamp > cutoff
  {
    if l != [] && l[0].record.timestamp <= cutoff {
      ExpireIsSuffix(l[1..], cutoff);
      assert l[1..][|l[1..]| - |Expire(l, cutoff)|..] == l[|l| - |Expire(l, cutoff)|..];
    }
  }

  /** What Expire drops. */
  function Dropped(l: Ledger, cutoff: int): (d: Ledger)
    ensures d + Expire(l, cutoff) == l
    ensures forall i :: 0 <= i < |d| ==> d[i].record.timestamp <= cutoff
  {
    ExpireIsSuffix(l, cutoff);
    l[..|l| - |Expire(l, cutoff)|]
  }

  /** The expired prefix is exactly everything in front of the first fresh record. */
  lemma {:induction false} ExpireAt(l: Ledger, cutoff: int, start: nat)
    requires start <= |l|
    requires forall i :: 0 <= i < start ==> l[i].record.timestamp <= cutoff
    requires start < |l| ==> l[start].record.timestamp > cutoff
    ensures Expire(l, cutoff) == l[start..]
  {
    if start > 0 {
      ExpireAt(l[1..], cutoff, start - 1);
      assert l[1..][start - 1..] == l[start..];
    }
  }

  lemma {:induction false} SettleAt(l: Ledger, i: nat, id: nat, success: bool, class_: FailureClass, tokens: Tokens)
    requires i < |l| && l[i].owner == Some(id) && OwnersDistinct(l)
    ensures Settle(l, id, success, class_, tokens)
         == l[i := Entry(Settled(l[i].record, success, class_, tokens), None)]
  {
    if i == 0 {
      SettleAbsent(l[1..], id, success, class_, tokens);
    } else {
      SettleAt(l[1..], i - 1, id, success, class_, tokens);
    }
  }

  lemma {:induction false} SettleAbsent(l: Ledger, id: nat, success: bool, class_: FailureClass, tokens: Tokens)
    requires forall i :: 0 <= i < |l| ==> l[i].owner != Some(id)
    ensures Settle(l, id, success, class_, tokens) == l
  {
    if l != [] {
      SettleAbsent(l[1..], id, success, class_, tokens);
    }
  }

  lemma {:induction false} RemoveAt(l: Ledger, i: nat, id: nat)
    requires i < |l| && l[i].owner == Some(id) && OwnersDistinct(l)
    ensures Remove(l, id) == l[..i] + l[i + 1..]
  {
    if i == 0 {
      RemoveAbsent(l[1..], id);
    } else {
      RemoveAt(l[1..], i - 1, id);
      assert l[..i] == [l[0]] + l[1..][..i - 1];
    }
  }

  lemma {:induction false} RemoveAbsent(l: Ledger, id: nat)
    requires forall i :: 0 <= i < |l| ==> l[i].owner != Some(id)
    ensures Remove(l, id) == l
  {
    if l != [] {
      RemoveAbsent(l[1..], id);
    }
  }

  // ---------- The index map ----------

  type Index = map<nat, int>

  /** The index points each open request at the one record it owns. */
  predicate Matches(owners: seq<Option<nat>>, index: Index) {
    && (forall id :: id in index ==> 0 <= index[id] < |owners| && owners[index[id]] == Some(id))
    && (forall i :: 0 <= i < |owners| && owners[i].Some? ==> owners[i].value in index && index[owners[i].value] == i)
  }

  /** After dropping the first start records. */
  function Shifted(index: Index, start: int): Index {
    map id | id in index && index[id] >= start :: index[id] - start
  }

  /** After deleting the record at position at, which was id's. */
  function Cut(index: Index, at: int, id: nat): Index {
    map rid | rid in index && rid != id :: if index[rid] > at then index[rid] - 1 else index[rid]
  }

  /** The entries of src, behind offset records. */
  function Offset(src: Index, offset: int): Index {
    map id | id in src :: offset + src[id]
  }

  lemma MatchesNothing()
    ensures Matches([], map[])
  {
  }

  lemma MatchesAppend(owners: seq<Option<nat>>, index: Index, owner: Option<nat>)
    requires Matches(owners, index) && (owner.Some? ==> owner.value !in index)
    ensures Matches(owners + [owner], if owner.Some? then index[owner.value := |owners|] else index)
  {
  }

  lemma MatchesShifted(owners: seq<Option<nat>>, index: Index, start: nat)
    requires Matches(owners, index) && start <= |owners|
    ensures Matches(owners[start..], Shifted(index, start))
  {
  }

  lemma MatchesSettled(owners: seq<Option<nat>>, index: Index, id: nat)
    requires Matches(owners, index) && id in index
    ensures Matches(owners[index[id] := None], index - {id})
  {
  }

  lemma MatchesCut(owners: seq<Option<nat>>, index: Index, id: nat)
    requires Matches(owners, index) && id in index
    ensures Matches(owners[..index[id]] + owners[index[id] + 1..], Cut(index, index[id], id))
  {
  }

  lemma MatchesMerged(owners: seq<Option<nat>>, index: Index, more: seq<Option<nat>>, src: Index)
    requires Matches(owners, index) && Matches(more, src) && index.Keys !! src.Keys
    ensures Matches(owners + more, index + Offset(src, |owners|))
    ensures (index + Offset(src, |owners|)).Keys == index.Keys + src.Keys
  {
  }

  lemma ZipAppend(r: seq<Record>, o: seq<Option<nat>>, r': seq<Record>, o': seq<Option<nat>>)
    requires |r| == |o| && |r'| == |o'|
    ensures Zip(r + r', o + o') == Zip(r, o) + Zip(r', o')
  {
  }

  lemma ZipDrop(r: seq<Record>, o: seq<Option<nat>>, start: nat)
    requires |r| == |o| && start <= |r|
    ensures Zip(r[start..], o[start..]) == Zip(r, o)[start..]
  {
  }

  lemma ZipTake(r: seq<Record>, o: seq<Option<nat>>, end: nat)
    requires |r| == |o| && end <= |r|
    ensures Zip(r[..end], o[..end]) == Zip(r, o)[..end]
  {
  }

  lemma ZipUpdate(r: seq<Record>, o: seq<Option<nat>>, i: nat, record: Record, owner: Option<nat>)
    requires |r| == |o| && i < |r|
    ensures Zip(r[i := record], o[i := owner]) == Zip(r, o)[i := Entry(record, owner)]
  {
  }

  /** Tracking an id, owning a record and having an index entry are the same. */
  lemma IndexedIsOwned(r: seq<Record>, o: seq<Option<nat>>, index: Index, id: nat)
    requires |r| == |o| && Matches(o, index)
    ensures id in index <==> Owns(Zip(r, o), id)
    ensures id in index ==> 0 <= index[id] < |o| && Zip(r, o)[index[id]].owner == Some(id)
    ensures OwnersDistinct(Zip(r, o))
  {
    if id in index {
      assert Zip(r, o)[index[id]].owner == Some(id);
    }
  }
}
