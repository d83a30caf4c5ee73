// The manager of all keys' metrics: a map of KeyMetrics objects, looked up by
// identity key and legacy variants, merged and renamed in place.
module MetricsManager {
  import opened CircuitBreaker
  import opened Common
  import opened RequestLedger
  import opened KeyLedgers
  import K = KeyMetrics

  class MetricsManager {
    const config: Config
    var keyMetrics: map<string, K.KeyMetrics>
    var nextRequestID: nat

    /** The records created by the connects so far. */
    ghost var born: map<nat, Record>

    ghost predicate WellKeyed()
      reads this, keyMetrics.Values
    {
      forall k :: k in keyMetrics ==> keyMetrics[k].metricsKey == k && keyMetrics[k].Valid()
    }

    ghost function View(): View
      requires WellKeyed()
      reads this, keyMetrics.Values
    {
      map k | k in keyMetrics :: keyMetrics[k].Ledger()
    }

    ghost predicate Valid()
      reads this, keyMetrics.Values
    {
      && ValidConfig(config)
      && WellKeyed()
      && Born(View(), born)
      && forall id :: id in born ==> id <= nextRequestID
    }

    constructor (c: Config)
      requires ValidConfig(c)
      ensures Valid() && View() == map[] && nextRequestID == 0 && config == c
    {
      config := c;
      keyMetrics, nextRequestID, born := map[], 0, map[];
    }

    /** The lookup loop of getIdentityMetricsLocked. */
    method FirstMatching(lookup: seq<string>) returns (found: Option<string>)
      requires WellKeyed()
      ensures found == FirstIn(View(), lookup)
    {
      for i := 0 to |lookup|
        invariant FirstIn(View(), lookup) == FirstIn(View(), lookup[i..])
      {
        if lookup[i] in keyMetrics {
          return Some(lookup[i]);
        }
        assert lookup[i..][1..] == lookup[i + 1..];
      }
      found := None;
    }

    /** The lookup loop of findPendingRequestMetricsLocked. */
    method FindPending(lookup: seq<string>, id: nat) returns (found: Option<string>)
      requires WellKeyed()
      ensures found == HolderOf(View(), lookup, id)
    {
      hide Ids;
      for i := 0 to |lookup|
        invariant HolderOf(View(), lookup, id) == HolderOf(View(), lookup[i..], id)
      {
        if lookup[i] in keyMetrics {
          TracksIsIds(keyMetrics[lookup[i]], id);
          if id in keyMetrics[lookup[i]].pendingHistoryIdx {
            return Some(lookup[i]);
          }
        }
        assert lookup[i..][1..] == lookup[i + 1..];
      }
      found := None;
    }

    // ---------- getOrCreateKey ----------

    /** Merges the metrics of one variant into another and drops the first. */
    method MergeInto(primaryKey: string, lookupKey: string)
      requires ValidConfig(config) && WellKeyed() && Disjoint(View())
      requires primaryKey in keyMetrics && lookupKey in keyMetrics && primaryKey != lookupKey
      modifies this`keyMetrics, keyMetrics[primaryKey]
      ensures WellKeyed() && keyMetrics == old(keyMetrics) - {lookupKey}
      ensures var v := old(View());
        View() == (v - {lookupKey})[primaryKey := v[primaryKey] + v[lookupKey]]
    {
      hide Zip, Matches, Merged, Disjoint;
      var primary, metrics := keyMetrics[primaryKey], keyMetrics[lookupKey];
      IndexesDisjoint(primary, metrics, View(), primaryKey, lookupKey);
      primary.MergeFrom(config, metrics);
      keyMetrics := keyMetrics - {lookupKey};
    }

    /** Collects all variants in the first of them. It keeps its old key until the caller renames it. */
    method MergeVariants(lookup: seq<string>) returns (primaryKey: Option<string>)
      requires Valid() && ValidLookup(lookup)
      modifies this`keyMetrics, keyMetrics.Values
      ensures WellKeyed() && keyMetrics.Values <= old(keyMetrics.Values)
      ensures primaryKey == FirstIn(old(View()), lookup[1..])
      ensures View() == Collected(old(View()), lookup[1..])
    {
      hide Gather, Zip, Matches, Born, Merged, Collected, FirstIn, Disjoint;
      ghost var v := View();
      primaryKey := None;
      CollectNothing(v, lookup[1..1]);
      var i := 1;
      while i < |lookup|
        invariant 1 <= i <= |lookup|
        invariant WellKeyed() && keyMetrics.Values <= old(keyMetrics.Values)
        invariant primaryKey == FirstIn(v, lookup[1..i])
        invariant View() == Collected(v, lookup[1..i])
      {
        var lookupKey := lookup[i];
        CollectSnoc(v, lookup[1..i], lookupKey, born);
        assert lookup[1..i + 1] == lookup[1..i] + [lookupKey];
        if lookupKey in keyMetrics {
          if primaryKey == None {
            primaryKey := Some(lookupKey);
          } else {
            MergeInto(primaryKey.value, lookupKey);
          }
        }
        i := i + 1;
      }
      assert lookup[1..i] == lookup[1..];
    }

    /** Only the key changes. */
    static method SetKey(primary: K.KeyMetrics, metricsKey: string)
      requires primary.Valid()
      modifies primary`metricsKey
      ensures primary.Valid() && primary.Ledger() == old(primary.Ledger()) && primary.metricsKey == metricsKey
    {
      hide Zip, Matches;
      primary.metricsKey := metricsKey;
    }

    method Rename(primaryKey: string, metricsKey: string)
      requires WellKeyed() && primaryKey in keyMetrics && metricsKey !in keyMetrics
      modifies this`keyMetrics, keyMetrics[primaryKey]
      ensures WellKeyed() && keyMetrics.Values <= old(keyMetrics.Values)
      ensures View() == (old(View()) - {primaryKey})[metricsKey := old(View())[primaryKey]]
    {
      hide K.KeyMetrics.Valid, K.KeyMetrics.Ledger;
      var primary := keyMetrics[primaryKey];
      SetKey(primary, metricsKey);
      keyMetrics := (keyMetrics - {primaryKey})[metricsKey := primary];
    }

    method Create(metricsKey: string)
      requires WellKeyed() && metricsKey !in keyMetrics
      modifies this`keyMetrics
      ensures WellKeyed() && fresh(keyMetrics.Values - old(keyMetrics.Values))
      ensures View() == old(View())[metricsKey := []]
    {
      hide Zip, Matches;
      var metrics := new K.KeyMetrics(metricsKey);
      keyMetrics := keyMetrics[metricsKey := metrics];
    }

    /** Makes the metrics of the identity key exist, taking over every variant. */
    method GetOrCreateKey(lookup: seq<string>)
      requires Valid() && ValidLookup(lookup)
      modifies this`keyMetrics, keyMetrics.Values
      ensures Valid() && lookup[0] in keyMetrics
      ensures View() == Promote(old(View()), lookup)
      ensures fresh(keyMetrics.Values - old(keyMetrics.Values))
    {
      hide Born, Zip, Matches, Promote, Collected, FirstIn;
      ghost var v := View();
      var metricsKey := lookup[0];
      PromoteKeeps(v, lookup, born);
      if metricsKey in keyMetrics {
        PromotePresent(v, lookup);
        return;
      }
      PromoteAbsent(v, lookup);
      var primaryKey := MergeVariants(lookup);
      assert metricsKey !in View();
      if primaryKey.Some? {
        Rename(primaryKey.value, metricsKey);
      } else {
        Create(metricsKey);
      }
    }

    // ---------- One key at a time ----------

    method ConnectKey(k: string, id: nat, model: string, timestamp: int, cutoff: int)
      requires WellKeyed() && k in keyMetrics && id !in keyMetrics[k].pendingHistoryIdx
      modifies keyMetrics[k]
      ensures WellKeyed()
      ensures View() == old(View())[k := Expire(old(View())[k] + [Entry(Connected(model, timestamp), Some(id))], cutoff)]
    {
      hide Zip, Matches, Expire, Connected;
      keyMetrics[k].Connect(id, model, timestamp, cutoff);
    }

    method RecordKey(k: string, success: bool, failureClass: FailureClass, tokens: Tokens, now: int, cutoff: int)
      requires ValidConfig(config) && WellKeyed() && k in keyMetrics
      modifies keyMetrics[k]
      ensures WellKeyed()
      ensures View() == old(View())[k :=
        Expire(old(View())[k] + [Entry(Direct(now, success, failureClass, tokens), None)], cutoff)]
    {
      hide Zip, Matches, Expire, Direct, OnSuccess, OnFailure;
      keyMetrics[k].RecordDirect(config, success, failureClass, tokens, now, cutoff);
    }

    method FinalizeKey(k: string, id: nat, success: bool, failureClass: FailureClass, tokens: Tokens, now: int)
      requires ValidConfig(config) && WellKeyed() && k in keyMetrics && keyMetrics[k].Tracks(id)
      modifies keyMetrics[k]
      ensures WellKeyed()
      ensures View() == old(View())[k := Settle(old(View())[k], id, success, failureClass, tokens)]
    {
      hide Zip, Matches, Settle, OnSuccess, OnFailure;
      keyMetrics[k].FinalizeOutcome(config, id, success, failureClass, tokens, now);
    }

    method CancelKey(k: string, id: nat)
      requires WellKeyed() && k in keyMetrics && keyMetrics[k].Tracks(id)
      modifies keyMetrics[k]
      ensures WellKeyed()
      ensures View() == old(View())[k := Remove(old(View())[k], id)]
    {
      hide Zip, Matches, Remove;
      keyMetrics[k].FinalizeClientCancel(id);
    }

    // ---------- Requests ----------

    method ConnectUnder(lookup: seq<string>, id: nat, model: string, timestamp: int, now: int)
      requires Valid() && ValidLookup(lookup) && id !in born
      modifies this`keyMetrics, keyMetrics.Values
      ensures WellKeyed()
      ensures View() == WithConnected(old(View()), lookup, id, Connected(model, timestamp), now - DAY)
    {
      hide Born, Zip, Matches, Promote, Connected, Expire, Ids;
      GetOrCreateKey(lookup);
      FreshIsUntracked(keyMetrics[lookup[0]], View(), lookup[0], born, id);
      ConnectKey(lookup[0], id, model, timestamp, now - DAY);
    }

    /** Connects a request and returns its id. */
    method RecordRequestConnectedAt(lookup: seq<string>, model: string, timestamp: int, now: int) returns (id: nat)
      requires Valid() && ValidLookup(lookup)
      modifies this, keyMetrics.Values
      ensures Valid() && id == nextRequestID == old(nextRequestID) + 1
      ensures born == old(born)[id := Connected(model, timestamp)]
      ensures View() == WithConnected(old(View()), lookup, id, Connected(model, timestamp), now - DAY)
    {
      hide Born, Zip, Matches, WithConnected, Connected, Ids;
      id := nextRequestID + 1;
      ghost var r := Connected(model, timestamp);
      assert Born(WithConnected(View(), lookup, id, r, now - DAY), born[id := r]) by {
        ConnectKeeps(View(), lookup, id, r, now - DAY, born);
      }
      ConnectUnder(lookup, id, model, timestamp, now);
      nextRequestID, born := id, born[id := r];
      assert View() == WithConnected(old(View()), lookup, id, r, now - DAY);
    }

    /** Records an outcome nobody announced (RecordSuccessWithUsage, RecordFailureWithClass). */
    method RecordResult(lookup: seq<string>, success: bool, failureClass: FailureClass, tokens: Tokens, now: int)
      requires Valid() && ValidLookup(lookup)
      modifies this`keyMetrics, keyMetrics.Values
      ensures Valid()
      ensures View() == WithDirect(old(View()), lookup, Direct(now, success, failureClass, tokens), now - DAY)
    {
      hide Born, Zip, Matches, Promote, Direct, Expire;
      DirectKeeps(View(), lookup, Direct(now, success, failureClass, tokens), now - DAY, born);
      GetOrCreateKey(lookup);
      RecordKey(lookup[0], success, failureClass, tokens, now, now - DAY);
    }

    /** The lookup shared by finalize and cancel. */
    method Locate(lookup: seq<string>, id: nat) returns (found: bool)
      requires Valid() && ValidLookup(lookup)
      modifies this`keyMetrics, keyMetrics.Values
      ensures Valid() && found == Located(old(View()), lookup, id).Some?
      ensures found ==> lookup[0] in keyMetrics && View() == Located(old(View()), lookup, id).value
      ensures !found ==> View() == old(View())
      ensures fresh(keyMetrics.Values - old(keyMetrics.Values))
    {
      hide Born, Zip, Matches, Promote, HolderOf, FirstIn;
      LocatedKeeps(View(), lookup, id, born);
      var key := FindPending(lookup, id);
      if key.None? {
        key := FirstMatching(lookup);
      }
      if key.Some? && key.value != lookup[0] {
        GetOrCreateKey(lookup);
      }
      found := key.Some?;
    }

    method RecordRequestFinalizeOutcome(lookup: seq<string>, id: nat, success: bool, failureClass: FailureClass,
                                        tokens: Tokens, now: int)
      requires Valid() && ValidLookup(lookup)
      modifies this`keyMetrics, keyMetrics.Values
      ensures Valid()
      ensures View() == WithOutcome(old(View()), lookup, id, success, failureClass, tokens, now, now - DAY)
    {
      hide Born, Zip, Matches, Located, WithDirect, Direct, Settle, Ids;
      OutcomeKeeps(View(), lookup, id, success, failureClass, tokens, now, now - DAY, born);
      var found := Locate(lookup, id);
      if !found {
        RecordResult(lookup, success, failureClass, tokens, now);
        return;
      }
      TracksIsIds(keyMetrics[lookup[0]], id);
      if id !in keyMetrics[lookup[0]].pendingHistoryIdx {
        RecordResult(lookup, success, failureClass, tokens, now);
        return;
      }
      FinalizeKey(lookup[0], id, success, failureClass, tokens, now);
    }

    method RecordRequestFinalizeClientCancel(lookup: seq<string>, id: nat)
      requires Valid() && ValidLookup(lookup)
      modifies this`keyMetrics, keyMetrics.Values
      ensures Valid()
      ensures View() == WithCancel(old(View()), lookup, id)
    {
      hide Born, Zip, Matches, Located, Remove, Ids;
      CancelKeeps(View(), lookup, id, born);
      var found := Locate(lookup, id);
      if !found {
        return;
      }
      TracksIsIds(keyMetrics[lookup[0]], id);
      if id !in keyMetrics[lookup[0]].pendingHistoryIdx {
        return;
      }
      CancelKey(lookup[0], id);
    }

    /** ResetKey: counters, history and breaker of the first matching key start afresh. */
    method ResetKey(lookup: seq<string>)
      requires Valid() && ValidLookup(lookup)
      modifies keyMetrics.Values
      ensures Valid() && View() == WithReset(old(View()), lookup)
    {
      hide Born, Zip, Matches, FirstIn, Reset;
      ResetKeeps(View(), lookup, born);
      var key := FirstMatching(lookup);
      if key.Some? {
        FirstInIsIn(View(), lookup);
        keyMetrics[key.value].ResetKey();
      }
      assert View() == WithReset(old(View()), lookup);
    }

    /** Drops the metrics of the given keys: channel deletion, stale cleanup, ResetAll. */
    method Forget(keys: set<string>)
      requires Valid()
      modifies this`keyMetrics
      ensures Valid() && View() == old(View()) - keys
    {
      hide Born, Zip, Matches;
      ForgetKeeps(View(), keys, born);
      keyMetrics := keyMetrics - keys;
      assert View() == old(View()) - keys;
    }
  }

  lemma FreshIsUntracked(m: K.KeyMetrics, v: View, k: string, born: map<nat, Record>, id: nat)
    requires Born(v, born) && k in v && m.IndexMatches() && m.Ledger() == v[k] && id !in born
    ensures id !in m.pendingHistoryIdx
  {
    TracksIsIds(m, id);
    IdsAreOwned(v[k], id);
  }

  lemma PromotePresent(v: View, lookup: seq<string>)
    requires lookup != [] && lookup[0] in v
    ensures Promote(v, lookup) == v
  {
  }

  /** Collecting the variants and renaming the result is what Promote does. */
  lemma PromoteAbsent(v: View, lookup: seq<string>)
    requires ValidLookup(lookup) && lookup[0] !in v
    ensures lookup[0] !in Collected(v, lookup[1..])
    ensures var rest := lookup[1..]; var c := Collected(v, rest);
      match FirstIn(v, rest)
      case None => Promote(v, lookup) == c[lookup[0] := []]
      case Some(p) => p in c && Promote(v, lookup) == (c - {p})[lookup[0] := c[p]]
  {
    hide Gather, FirstIn;
    var rest := lookup[1..];
    assert lookup == [lookup[0]] + rest;
    FirstInIsIn(v, rest);
    if FirstIn(v, rest).None? {
      GatherNone(v, rest);
    }
    assert Keys(lookup) == {lookup[0]} + Keys(rest);
  }

  /** No request waits under two keys. */
  predicate Disjoint(v: View) {
    forall k, k' :: k in v && k' in v && k != k' ==> Ids(v[k]) !! Ids(v[k'])
  }

  /** The ledgers while variants are being merged: all of them in the first. */
  function Collected(v: View, keys: seq<string>): View {
    match FirstIn(v, keys)
    case None => v
    case Some(p) => (v - Keys(keys))[p := Gather(v, keys)]
  }

  lemma CollectNothing(v: View, keys: seq<string>)
    requires keys == []
    ensures Collected(v, keys) == v && FirstIn(v, keys) == None
  {
  }

  /** One more variant joins. */
  lemma CollectSnoc(v: View, keys: seq<string>, k: string, born: map<nat, Record>)
    requires Born(v, born)
    requires Distinct(keys)
    requires k !in keys
    ensures Disjoint(Collected(v, keys)) && (k in Collected(v, keys) <==> k in v)
    ensures FirstIn(v, keys).None? ==>
      && FirstIn(v, keys + [k]) == (if k in v then Some(k) else None)
      && Collected(v, keys + [k]) == Collected(v, keys)
    ensures FirstIn(v, keys).Some? ==>
      var c, p := Collected(v, keys), FirstIn(v, keys).value;
      && p in c && p != k
      && FirstIn(v, keys + [k]) == Some(p)
      && Collected(v, keys + [k]) == if k in v then (c - {k})[p := c[p] + c[k]] else c
  {
    hide Gather, Born, FirstIn, Disjoint;
    FirstSnoc(v, keys, k);
    FirstInIsIn(v, keys);
    GatherSnoc(v, keys, k);
    assert Keys(keys + [k]) == Keys(keys) + {k};
    CollectedDistinct(v, keys, born);
    if FirstIn(v, keys).None? {
      GatherNone(v, keys);
      if k in v {
        assert Gather(v, keys + [k]) == v[k];
        Rekeyed(v, Keys(keys + [k]), k);
      }
    } else {
      Absorbed(v, Keys(keys), FirstIn(v, keys).value, Gather(v, keys), k);
    }
  }

  lemma Rekeyed(v: View, keys: set<string>, k: string)
    requires k in v && k in keys && forall other :: other in keys && other != k ==> other !in v
    ensures (v - keys)[k := v[k]] == v
  {
  }

  lemma Absorbed(v: View, keys: set<string>, p: string, g: Ledger, k: string)
    requires k !in keys && p in keys
    ensures var c := (v - keys)[p := g];
      (v - (keys + {k}))[p := g + if k in v then v[k] else []] == if k in v then (c - {k})[p := c[p] + c[k]] else c
  {
    assert g + [] == g;
  }

  lemma CollectedDistinct(v: View, keys: seq<string>, born: map<nat, Record>)
    requires Born(v, born)
    requires Distinct(keys)
    ensures Disjoint(Collected(v, keys))
  {
    hide Gather, Born, FirstIn;
    GatherKeeps(v, keys, born);
    BornIsDistinct(v, born);
  }

  lemma BornIsDistinct(v: View, born: map<nat, Record>)
    requires Born(v, born)
    ensures Disjoint(v)
  {
  }

  lemma {:induction false} GatherNone(v: View, keys: seq<string>)
    requires forall k :: k in keys ==> k !in v
    ensures Gather(v, keys) == []
  {
    if keys != [] {
      GatherNone(v, keys[1..]);
    }
  }

  lemma {:induction false} FirstSnoc(v: View, keys: seq<string>, k: string)
    ensures FirstIn(v, keys + [k]) ==
      if FirstIn(v, keys).Some? then FirstIn(v, keys) else if k in v then Some(k) else None
  {
    if keys == [] {
      assert keys + [k] == [k];
    } else {
      assert (keys + [k])[1..] == keys[1..] + [k];
      FirstSnoc(v, keys[1..], k);
    }
  }

  lemma {:induction false} GatherSnoc(v: View, keys: seq<string>, k: string)
    ensures Gather(v, keys + [k]) == Gather(v, keys) + (if k in v then v[k] else [])
  {
    if keys == [] {
      assert keys + [k] == [k];
    } else {
      assert (keys + [k])[1..] == keys[1..] + [k];
      GatherSnoc(v, keys[1..], k);
    }
  }

  lemma IndexesDisjoint(a: K.KeyMetrics, b: K.KeyMetrics, v: View, k: string, k': string)
    requires a.IndexMatches() && b.IndexMatches() && Disjoint(v)
    requires k in v && k' in v && k != k' && a.Ledger() == v[k] && b.Ledger() == v[k']
    ensures a.pendingHistoryIdx.Keys !! b.pendingHistoryIdx.Keys
  {
    hide Zip, Matches;
    forall id | id in a.pendingHistoryIdx
      ensures id !in b.pendingHistoryIdx
    {
      TracksIsIds(a, id);
      TracksIsIds(b, id);
    }
  }

  lemma TracksIsIds(m: K.KeyMetrics, id: nat)
    requires m.IndexMatches()
    ensures id in m.pendingHistoryIdx <==> id in Ids(m.Ledger())
    ensures id in m.pendingHistoryIdx <==> m.Tracks(id)
  {
    IndexedIsOwned(m.requestHistory, m.owners, m.pendingHistoryIdx, id);
    IdsAreOwned(m.Ledger(), id);
  }
}
