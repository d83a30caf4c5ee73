// The API keys of one channel: active, blacklisted and historical lists, and
// the operations that move keys between them.
module KeyLists {

  datatype Disabled = Disabled(key: string, reason: string, message: string)

  datatype Lists = Lists(active: seq<string>, disabled: seq<Disabled>, historical: seq<string>)

  // ---------- List helpers ----------

  /** The elements of s that are not dropped. */
  function Keep(s: seq<string>, drop: set<string>): seq<string> {
    if s == [] then [] else Keep(s[..|s| - 1], drop) + if s[|s| - 1] in drop then [] else [s[|s| - 1]]
  }

  function KeepDisabled(s: seq<Disabled>, drop: set<string>): seq<Disabled> {
    if s == [] then []
    else KeepDisabled(s[..|s| - 1], drop) + if s[|s| - 1].key in drop then [] else [s[|s| - 1]]
  }

  /** The keys of the disabled entries that are wanted, in order. */
  function KeysOf(s: seq<Disabled>, wanted: set<string>): seq<string> {
    if s == [] then [] else KeysOf(s[..|s| - 1], wanted) + if s[|s| - 1].key in wanted then [s[|s| - 1].key] else []
  }

  function AllKeys(s: seq<Disabled>): set<string> {
    set d | d in s :: d.key
  }

  function Index(s: seq<string>, k: string): (i: nat)
    ensures i <= |s|
    ensures i < |s| ==> s[i] == k
    ensures forall j :: 0 <= j < i ==> s[j] != k
  {
    if s == [] || s[0] == k then 0
    else
      var i := Index(s[1..], k);
      assert forall j :: 0 < j < 1 + i ==> s[j] == s[1..][j - 1];
      1 + i
  }

  function DisabledIndex(s: seq<Disabled>, k: string): (i: nat)
    ensures i <= |s|
    ensures i < |s| ==> s[i].key == k
    ensures forall j :: 0 <= j < i ==> s[j].key != k
  {
    if s == [] || s[0].key == k then 0
    else
      var i := DisabledIndex(s[1..], k);
      assert forall j :: 0 < j < 1 + i ==> s[j] == s[1..][j - 1];
      1 + i
  }

  /** s without the element at i. */
  function Cut<T>(s: seq<T>, i: nat): seq<T>
    requires i < |s|
  {
    s[..i] + s[i + 1..]
  }

  function AddMissing(s: seq<string>, more: seq<string>): seq<string> {
    if more == [] then s
    else
      var rest := AddMissing(s, more[..|more| - 1]);
      if more[|more| - 1] in rest then rest else rest + [more[|more| - 1]]
  }

  /** First occurrences only. */
  function Deduplicated(s: seq<string>): seq<string> {
    AddMissing([], s)
  }

  // ---------- What the operations do ----------

  function Added(l: Lists, k: string): Lists {
    if k in l.active then l
    else Lists(l.active + [k], KeepDisabled(l.disabled, {k}), Keep(l.historical, {k}))
  }

  function Removed(l: Lists, k: string): Lists {
    var i := Index(l.active, k);
    if i == |l.active| then l
    else l.(active := Cut(l.active, i), historical := AddMissing(l.historical, [k]))
  }

  function MovedToTop(l: Lists, k: string): Lists {
    var i := Index(l.active, k);
    if i == |l.active| then l else l.(active := [k] + Cut(l.active, i))
  }

  function MovedToBottom(l: Lists, k: string): Lists {
    var i := Index(l.active, k);
    if i == |l.active| then l else l.(active := Cut(l.active, i) + [k])
  }

  function Updated(l: Lists, keys: seq<string>): Lists {
    var newKeys := set k | k in keys;
    l.(active := Deduplicated(keys), historical := Keep(AddMissing(l.historical, Keep(l.active, newKeys)), newKeys))
  }

  function Blacklisted(l: Lists, k: string, reason: string, message: string): Lists {
    var i := Index(l.active, k);
    if i == |l.active| then l
    else Lists(Cut(l.active, i), l.disabled + [Disabled(k, reason, message)], AddMissing(l.historical, [k]))
  }

  function Restored(l: Lists, k: string): Lists {
    var i := DisabledIndex(l.disabled, k);
    if i == |l.disabled| then l
    else Lists(AddMissing(l.active, [k]), Cut(l.disabled, i), Keep(l.historical, {k}))
  }

  /** Restores every disabled key that is wanted. */
  function RestoredSome(l: Lists, wanted: set<string>): Lists {
    Lists(AddMissing(l.active, KeysOf(l.disabled, wanted)), KeepDisabled(l.disabled, wanted), Keep(l.historical, AllKeys(l.disabled) * wanted))
  }

  function RestoredAll(l: Lists): Lists {
    RestoredSome(l, AllKeys(l.disabled))
  }

  // ---------- The channel ----------

  class Upstream {
    var apiKeys: seq<string>
    var disabledAPIKeys: seq<Disabled>
    var historicalAPIKeys: seq<string>
    var status: string

    ghost function State(): Lists
      reads this
    {
      Lists(apiKeys, disabledAPIKeys, historicalAPIKeys)
    }

    /** A new channel, as AddUpstream stores it. */
    constructor (keys: seq<string>)
      ensures State() == Lists(Deduplicated(keys), [], []) && status == "active"
    {
      disabledAPIKeys, historicalAPIKeys := [], [];
      status := "active";
      new;
      apiKeys := DeduplicateStrings(keys);
    }

    method IndexOf(apiKey: string) returns (i: int)
      ensures i == if Index(apiKeys, apiKey) == |apiKeys| then -1 else Index(apiKeys, apiKey)
    {
      for j := 0 to |apiKeys|
        invariant forall n :: 0 <= n < j ==> apiKeys[n] != apiKey
      {
        if apiKeys[j] == apiKey {
          return j;
        }
      }
      i := -1;
    }

    method AddAPIKey(apiKey: string) returns (ok: bool)
      modifies this`apiKeys, this`disabledAPIKeys, this`historicalAPIKeys
      ensures ok <==> apiKey !in old(apiKeys)
      ensures State() == Added(old(State()), apiKey)
    {
      if apiKey in apiKeys {
        return false;
      }
      apiKeys := apiKeys + [apiKey];
      disabledAPIKeys := DropDisabled(disabledAPIKeys, {apiKey});
      historicalAPIKeys := DropKeys(historicalAPIKeys, {apiKey});
      ok := true;
    }

    method RemoveAPIKey(apiKey: string) returns (ok: bool)
      modifies this`apiKeys, this`historicalAPIKeys
      ensures ok <==> apiKey in old(apiKeys)
      ensures State() == Removed(old(State()), apiKey)
    {
      var i := IndexOf(apiKey);
      if i == -1 {
        return false;
      }
      apiKeys := apiKeys[..i] + apiKeys[i + 1..];
      historicalAPIKeys := Retire(historicalAPIKeys, [apiKey], {});
      ok := true;
    }

    method MoveAPIKeyToTop(apiKey: string)
      modifies this`apiKeys
      ensures State() == MovedToTop(old(State()), apiKey)
    {
      var index := IndexOf(apiKey);
      if index <= 0 {
        assert index == 0 ==> apiKeys == [apiKey] + Cut(apiKeys, 0);
        return;
      }
      apiKeys := [apiKey] + (apiKeys[..index] + apiKeys[index + 1..]);
    }

    method MoveAPIKeyToBottom(apiKey: string)
      modifies this`apiKeys
      ensures State() == MovedToBottom(old(State()), apiKey)
    {
      var index := IndexOf(apiKey);
      if index == -1 || index == |apiKeys| - 1 {
        assert index >= 0 ==> apiKeys == Cut(apiKeys, index) + [apiKey];
        return;
      }
      apiKeys := apiKeys[..index] + apiKeys[index + 1..];
      apiKeys := apiKeys + [apiKey];
    }

    /** The API key part of UpdateUpstream. */
    method UpdateKeys(keys: seq<string>) returns (shouldResetMetrics: bool)
      modifies this
      ensures State() == Updated(old(State()), keys)
      ensures shouldResetMetrics <==> |old(apiKeys)| == 1 && |keys| == 1 && old(apiKeys) != keys
      ensures status == if shouldResetMetrics && old(status) == "suspended" then "active" else old(status)
    {
      var newKeys := set k | k in keys;
      historicalAPIKeys := Retire(historicalAPIKeys, apiKeys, newKeys);
      historicalAPIKeys := DropKeys(historicalAPIKeys, newKeys);
      if |apiKeys| == 1 && |keys| == 1 && apiKeys[0] != keys[0] {
        if status == "suspended" {
          status := "active";
        }
        shouldResetMetrics := true;
      } else {
        shouldResetMetrics := false;
      }
      apiKeys := DeduplicateStrings(keys);
    }

    method BlacklistKey(apiKey: string, reason: string, message: string)
      modifies this`apiKeys, this`disabledAPIKeys, this`historicalAPIKeys
      ensures State() == Blacklisted(old(State()), apiKey, reason, message)
    {
      var keyIdx := IndexOf(apiKey);
      if keyIdx == -1 {
        return;
      }
      apiKeys := apiKeys[..keyIdx] + apiKeys[keyIdx + 1..];
      disabledAPIKeys := disabledAPIKeys + [Disabled(apiKey, reason, message)];
      historicalAPIKeys := Retire(historicalAPIKeys, [apiKey], {});
    }

    method RestoreKey(apiKey: string) returns (ok: bool)
      modifies this`apiKeys, this`disabledAPIKeys, this`historicalAPIKeys
      ensures ok <==> apiKey in AllKeys(old(disabledAPIKeys))
      ensures State() == Restored(old(State()), apiKey)
    {
      var i := 0;
      while i < |disabledAPIKeys| && disabledAPIKeys[i].key != apiKey
        invariant 0 <= i <= |disabledAPIKeys|
        invariant forall j :: 0 <= j < i ==> disabledAPIKeys[j].key != apiKey
      {
        i := i + 1;
      }
      if i == |disabledAPIKeys| {
        return false;
      }
      assert disabledAPIKeys[i] in disabledAPIKeys;
      disabledAPIKeys := disabledAPIKeys[..i] + disabledAPIKeys[i + 1..];
      assert AddMissing(apiKeys, []) == apiKeys;
      if apiKey !in apiKeys {
        apiKeys := apiKeys + [apiKey];
      }
      historicalAPIKeys := DropKeys(historicalAPIKeys, {apiKey});
      ok := true;
    }

    /** The loop shared by RestoreAllKeys and RestoreDisabledKeys. */
    method RestoreWanted(wanted: set<string>) returns (restored: seq<string>)
      modifies this`apiKeys, this`historicalAPIKeys, this`disabledAPIKeys
      ensures restored == KeysOf(old(disabledAPIKeys), wanted)
      ensures State() == RestoredSome(old(State()), wanted)
    {
      hide Keep, KeepDisabled, AddMissing, KeysOf, AllKeys;
      ghost var l := State();
      restored := [];
      var newDisabled: seq<Disabled> := [];
      NothingWanted(l, wanted);
      for i := 0 to |disabledAPIKeys|
        invariant disabledAPIKeys == l.disabled
        invariant restored == KeysOf(l.disabled[..i], wanted)
        invariant newDisabled == KeepDisabled(l.disabled[..i], wanted)
        invariant apiKeys == AddMissing(l.active, restored)
        invariant historicalAPIKeys == Keep(l.historical, AllKeys(l.disabled[..i]) * wanted)
      {
        var dk := disabledAPIKeys[i];
        WantedSnoc(l.disabled, i, wanted);
        if dk.key in wanted {
          AddMissingSnoc(l.active, restored, dk.key);
          if dk.key !in apiKeys {
            apiKeys := apiKeys + [dk.key];
          }
          KeepTwice(l.historical, AllKeys(l.disabled[..i]) * wanted, {dk.key});
          historicalAPIKeys := DropKeys(historicalAPIKeys, {dk.key});
          restored := restored + [dk.key];
        } else {
          newDisabled := newDisabled + [dk];
        }
      }
      assert l.disabled[..|l.disabled|] == l.disabled;
      disabledAPIKeys := newDisabled;
    }

    method RestoreAllKeys() returns (restoredCount: nat)
      modifies this`apiKeys, this`historicalAPIKeys, this`disabledAPIKeys
      ensures restoredCount == |old(disabledAPIKeys)|
      ensures State() == RestoredAll(old(State())) && disabledAPIKeys == []
    {
      restoredCount := |disabledAPIKeys|;
      ghost var all := AllKeys(disabledAPIKeys);
      KeepDisabledAll(disabledAPIKeys, all);
      var wanted := set d | d in disabledAPIKeys :: d.key;
      var _ := RestoreWanted(wanted);
    }

    method RestoreDisabledKeys(keys: seq<string>) returns (restored: seq<string>)
      modifies this`apiKeys, this`historicalAPIKeys, this`disabledAPIKeys
      ensures restored == KeysOf(old(disabledAPIKeys), (set k | k in keys) - {""})
      ensures State() == RestoredSome(old(State()), (set k | k in keys) - {""})
    {
      var keySet := (set k | k in keys) - {""};
      restored := RestoreWanted(keySet);
    }
  }

  // ---------- The loops over lists ----------

  method DropKeys(s: seq<string>, drop: set<string>) returns (r: seq<string>)
    ensures r == Keep(s, drop)
  {
    r := [];
    for i := 0 to |s|
      invariant r == Keep(s[..i], drop)
    {
      assert s[..i + 1][..i] == s[..i];
      if s[i] !in drop {
        r := r + [s[i]];
      }
    }
    assert s[..|s|] == s;
  }

  method DropDisabled(s: seq<Disabled>, drop: set<string>) returns (r: seq<Disabled>)
    ensures r == KeepDisabled(s, drop)
  {
    r := [];
    for i := 0 to |s|
      invariant r == KeepDisabled(s[..i], drop)
    {
      assert s[..i + 1][..i] == s[..i];
      if s[i].key !in drop {
        r := r + [s[i]];
      }
    }
    assert s[..|s|] == s;
  }

  /** Adds the keys that are going away to the history, once each. */
  method Retire(historical: seq<string>, keys: seq<string>, staying: set<string>) returns (r: seq<string>)
    ensures r == AddMissing(historical, Keep(keys, staying))
  {
    r := historical;
    for i := 0 to |keys|
      invariant r == AddMissing(historical, Keep(keys[..i], staying))
    {
      assert keys[..i + 1][..i] == keys[..i];
      AddMissingSnoc(historical, Keep(keys[..i], staying), keys[i]);
      if keys[i] !in staying && keys[i] !in r {
        r := r + [keys[i]];
      }
      assert Keep(keys[..i], staying) + [] == Keep(keys[..i], staying);
    }
    assert keys[..|keys|] == keys;
  }

  method DeduplicateStrings(items: seq<string>) returns (result: seq<string>)
    ensures result == Deduplicated(items)
  {
    if |items| <= 1 {
      assert |items| == 1 ==> items[..0] == [] && AddMissing([], items[..0]) == [];
      return items;
    }
    var seen: set<string> := {};
    result := [];
    for i := 0 to |items|
      invariant result == Deduplicated(items[..i])
      invariant forall k :: k in seen <==> k in result
    {
      assert items[..i + 1][..i] == items[..i];
      if items[i] !in seen {
        seen := seen + {items[i]};
        result := result + [items[i]];
      }
    }
    assert items[..|items|] == items;
  }

  lemma KeepSnoc(s: seq<string>, k: string, drop: set<string>)
    ensures Keep(s + [k], drop) == Keep(s, drop) + if k in drop then [] else [k]
  {
    assert (s + [k])[..|s|] == s;
  }

  lemma AddMissingSnoc(s: seq<string>, more: seq<string>, k: string)
    ensures AddMissing(s, more + [k]) == AddMissing(s, more) + if k in AddMissing(s, more) then [] else [k]
  {
    assert (more + [k])[..|more|] == more;
  }

  lemma NothingWanted(l: Lists, wanted: set<string>)
    ensures var none := l.disabled[..0];
      && KeysOf(none, wanted) == [] && KeepDisabled(none, wanted) == []
      && AddMissing(l.active, []) == l.active && Keep(l.historical, AllKeys(none) * wanted) == l.historical
  {
    hide Keep;
    KeepNothing(l.historical);
    assert AllKeys(l.disabled[..0]) * wanted == {};
  }

  lemma WantedSnoc(s: seq<Disabled>, i: nat, wanted: set<string>)
    requires i < |s|
    ensures KeysOf(s[..i + 1], wanted) == KeysOf(s[..i], wanted) + if s[i].key in wanted then [s[i].key] else []
    ensures KeepDisabled(s[..i + 1], wanted) == KeepDisabled(s[..i], wanted) + if s[i].key in wanted then [] else [s[i]]
    ensures var before := AllKeys(s[..i]) * wanted;
      AllKeys(s[..i + 1]) * wanted == if s[i].key in wanted then before + {s[i].key} else before
  {
    assert s[..i + 1][..i] == s[..i];
    assert AllKeys(s[..i + 1]) == AllKeys(s[..i]) + {s[i].key};
  }

  lemma {:induction false} KeepNothing(s: seq<string>)
    ensures Keep(s, {}) == s
  {
    if s != [] {
      KeepNothing(s[..|s| - 1]);
    }
  }

  lemma {:induction false} KeepTwice(s: seq<string>, a: set<string>, b: set<string>)
    ensures Keep(Keep(s, a), b) == Keep(s, a + b)
  {
    if s != [] {
      var init, x := s[..|s| - 1], s[|s| - 1];
      KeepTwice(init, a, b);
      KeepSnoc(Keep(init, a), x, b);
      assert Keep(init, a) + [] == Keep(init, a);
    }
  }

  lemma {:induction false} KeepDisabledAll(s: seq<Disabled>, drop: set<string>)
    requires AllKeys(s) <= drop
    ensures KeepDisabled(s, drop) == []
  {
    if s != [] {
      assert s[|s| - 1] in s;
      KeepDisabledAll(s[..|s| - 1], drop);
    }
  }
}
