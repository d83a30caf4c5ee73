// What every run of key operations keeps.
module KeyListRuns {
  import opened Common
  import opened KeyLists

  function Set(s: seq<string>): set<string> {
    set k | k in s
  }

  /** Every key the channel still knows. */
  function Known(l: Lists): set<string> {
    Set(l.active) + Set(l.historical)
  }

  predicate Inv(l: Lists) {
    && Distinct(l.active) && Distinct(l.historical)
    && Set(l.active) !! Set(l.historical)
    && AllKeys(l.disabled) <= Known(l)
  }

  // ---------- The helpers as sets ----------

  lemma {:induction false} KeepIs(s: seq<string>, drop: set<string>)
    ensures Set(Keep(s, drop)) == Set(s) - drop
    ensures Distinct(s) ==> Distinct(Keep(s, drop))
    ensures Set(s) !! drop ==> Keep(s, drop) == s
  {
    if s != [] {
      var init, x := s[..|s| - 1], s[|s| - 1];
      assert s == init + [x];
      SetSnoc(init, x);
      SetSnoc(Keep(init, drop), x);
      assert Keep(init, drop) + [] == Keep(init, drop);
      KeepIs(init, drop);
      if Distinct(s) && x !in drop {
        assert x !in Set(init);
        DistinctSnoc(Keep(init, drop), x);
      }
    }
  }

  lemma SetSnoc(s: seq<string>, x: string)
    ensures Set(s + [x]) == Set(s) + {x}
  {
  }

  lemma DistinctSnoc(s: seq<string>, x: string)
    requires Distinct(s) && x !in Set(s)
    ensures Distinct(s + [x])
  {
  }

  lemma {:induction false} KeepDisabledIs(s: seq<Disabled>, drop: set<string>)
    ensures AllKeys(KeepDisabled(s, drop)) == AllKeys(s) - drop
    ensures AllKeys(s) !! drop ==> KeepDisabled(s, drop) == s
  {
    if s != [] {
      var init, d := s[..|s| - 1], s[|s| - 1];
      assert s == init + [d];
      AllKeysAppend(init, [d]);
      AllKeysOne(d);
      KeepDisabledIs(init, drop);
      AllKeysAppend(KeepDisabled(init, drop), [d]);
      assert KeepDisabled(init, drop) + [] == KeepDisabled(init, drop);
    }
  }

  lemma AllKeysOne(d: Disabled)
    ensures AllKeys([d]) == {d.key}
  {
    assert d in [d];
  }

  lemma AllKeysAppend(a: seq<Disabled>, b: seq<Disabled>)
    ensures AllKeys(a + b) == AllKeys(a) + AllKeys(b)
  {
  }

  lemma {:induction false} AddMissingIs(s: seq<string>, more: seq<string>)
    ensures Set(AddMissing(s, more)) == Set(s) + Set(more)
    ensures Distinct(s) ==> Distinct(AddMissing(s, more))
  {
    if more != [] {
      var init, x := more[..|more| - 1], more[|more| - 1];
      assert more == init + [x];
      AddMissingIs(s, init);
      SetSnoc(init, x);
      SetSnoc(AddMissing(s, init), x);
      if x !in AddMissing(s, init) && Distinct(s) {
        DistinctSnoc(AddMissing(s, init), x);
      }
    }
  }

  lemma {:induction false} KeysOfIs(s: seq<Disabled>, wanted: set<string>)
    ensures Set(KeysOf(s, wanted)) == AllKeys(s) * wanted
  {
    if s != [] {
      var init, d := s[..|s| - 1], s[|s| - 1];
      assert s == init + [d];
      AllKeysAppend(init, [d]);
      AllKeysOne(d);
      KeysOfIs(init, wanted);
      SetSnoc(KeysOf(init, wanted), d.key);
      assert KeysOf(init, wanted) + [] == KeysOf(init, wanted);
    }
  }

  lemma CutIs(s: seq<string>, i: nat)
    requires i < |s| && Distinct(s)
    ensures Distinct(Cut(s, i)) && Set(Cut(s, i)) == Set(s) - {s[i]}
  {
    var c := Cut(s, i);
    forall k
      ensures k in c <==> k in s && k != s[i]
    {
      if k in s && k != s[i] {
        var j :| 0 <= j < |s| && s[j] == k;
        assert c[if j < i then j else j - 1] == k;
      }
    }
  }

  lemma CutDisabled(s: seq<Disabled>, i: nat)
    requires i < |s|
    ensures AllKeys(Cut(s, i)) <= AllKeys(s)
  {
    assert s == s[..i] + s[i..] && s[i..] == [s[i]] + s[i + 1..];
  }

  // ---------- Runs ----------

  datatype Event =
    | Add(key: string)
    | Remove(key: string)
    | ToTop(key: string)
    | ToBottom(key: string)
    | Update(keys: seq<string>)
    | Blacklist(key: string, reason: string, message: string)
    | Restore(key: string)
    | RestoreSome(wanted: set<string>)
    | RestoreEverything

  function Step(l: Lists, e: Event): Lists {
    match e
    case Add(k) => Added(l, k)
    case Remove(k) => Removed(l, k)
    case ToTop(k) => MovedToTop(l, k)
    case ToBottom(k) => MovedToBottom(l, k)
    case Update(keys) => Updated(l, keys)
    case Blacklist(k, reason, message) => Blacklisted(l, k, reason, message)
    case Restore(k) => Restored(l, k)
    case RestoreSome(wanted) => RestoredSome(l, wanted)
    case RestoreEverything => RestoredAll(l)
  }

  function After(l: Lists, events: seq<Event>): Lists {
    if events == [] then l else Step(After(l, events[..|events| - 1]), events[|events| - 1])
  }

  /** The keys an operation brings to the channel. */
  function Brought(e: Event): set<string> {
    match e
    case Add(k) => {k}
    case Update(keys) => Set(keys)
    case _ => {}
  }

  function AllBrought(events: seq<Event>): set<string> {
    if events == [] then {} else AllBrought(events[..|events| - 1]) + Brought(events[|events| - 1])
  }

  // ---------- One operation ----------

  lemma AddKeeps(l: Lists, k: string)
    requires Inv(l)
    ensures Inv(Added(l, k)) && Known(Added(l, k)) == Known(l) + {k}
  {
    if k !in l.active {
      KeepDisabledIs(l.disabled, {k});
      KeepIs(l.historical, {k});
    }
  }

  lemma LeaveKeeps(l: Lists, k: string)
    requires Inv(l)
    ensures Inv(Removed(l, k)) && Known(Removed(l, k)) == Known(l)
  {
    var i := Index(l.active, k);
    if i < |l.active| {
      CutIs(l.active, i);
      AddMissingIs(l.historical, [k]);
    }
  }

  lemma BlacklistKeeps(l: Lists, k: string, reason: string, message: string)
    requires Inv(l)
    ensures Inv(Blacklisted(l, k, reason, message)) && Known(Blacklisted(l, k, reason, message)) == Known(l)
    ensures k in l.active ==>
      var b := Blacklisted(l, k, reason, message);
      && k !in b.active && MovedToBottom(l, k).active == b.active + [k]
      && b.disabled == l.disabled + [Disabled(k, reason, message)]
      && b.historical == l.historical + [k]
    ensures k !in l.active ==> Blacklisted(l, k, reason, message) == l
  {
    var i := Index(l.active, k);
    if i < |l.active| {
      CutIs(l.active, i);
      AddMissingIs(l.historical, [k]);
      AllKeysAppend(l.disabled, [Disabled(k, reason, message)]);
      AllKeysOne(Disabled(k, reason, message));
      assert k in Set(l.active) && k in Set([k]);
      AddOne(l.historical, k);
    }
  }

  lemma MoveKeeps(l: Lists, k: string)
    requires Inv(l)
    ensures Inv(MovedToTop(l, k)) && Known(MovedToTop(l, k)) == Known(l)
    ensures Inv(MovedToBottom(l, k)) && Known(MovedToBottom(l, k)) == Known(l)
  {
    var i := Index(l.active, k);
    if i < |l.active| {
      CutIs(l.active, i);
      assert k in Set(l.active) && k !in Set(Cut(l.active, i));
      DistinctSnoc(Cut(l.active, i), k);
      assert Set([k] + Cut(l.active, i)) == Set(l.active);
      assert Set(Cut(l.active, i) + [k]) == Set(l.active);
    }
  }

  lemma {:induction false} CutKeepsOthers(s: seq<string>, i: nat)
    requires i < |s| && Distinct(s)
    ensures Cut(s, i) == Keep(s, {s[i]})
  {
    var init, x := s[..|s| - 1], s[|s| - 1];
    if i == |init| {
      assert s[i] !in init;
      KeepIs(init, {s[i]});
    } else {
      assert Distinct(init) && init[i] == s[i] && x != s[i];
      CutKeepsOthers(init, i);
      assert Cut(s, i) == Cut(init, i) + [x];
    }
  }

  /** Moving a key puts it first or last, and leaves the others in their order; an unknown key is not moved. */
  lemma MoveKeepsOrder(l: Lists, k: string)
    requires Distinct(l.active)
    ensures k !in l.active ==> MovedToTop(l, k) == MovedToBottom(l, k) == l
    ensures k in l.active ==> var top, bottom := MovedToTop(l, k), MovedToBottom(l, k);
      && top.active == [k] + Keep(l.active, {k}) && top == l.(active := top.active)
      && bottom.active == Keep(l.active, {k}) + [k] && bottom == l.(active := bottom.active)
  {
    hide Keep;
    var i := Index(l.active, k);
    if i < |l.active| {
      CutKeepsOthers(l.active, i);
    }
  }

  lemma UpdateKeeps(l: Lists, keys: seq<string>)
    requires Inv(l)
    ensures Inv(Updated(l, keys)) && Known(Updated(l, keys)) == Known(l) + Set(keys)
  {
    hide Keep, AddMissing, Distinct;
    var newKeys := Set(keys);
    assert Distinct<string>([]) by { DistinctNone(); }
    AddMissingIs([], keys);
    KeepIs(l.active, newKeys);
    AddMissingIs(l.historical, Keep(l.active, newKeys));
    KeepIs(AddMissing(l.historical, Keep(l.active, newKeys)), newKeys);
  }

  lemma DistinctNone()
    ensures Distinct<string>([])
  {
  }

  lemma RestoreKeeps(l: Lists, k: string)
    requires Inv(l)
    ensures Inv(Restored(l, k)) && Known(Restored(l, k)) == Known(l)
  {
    var i := DisabledIndex(l.disabled, k);
    if i < |l.disabled| {
      assert l.disabled[i] in l.disabled && k in AllKeys(l.disabled);
      AddMissingIs(l.active, [k]);
      CutDisabled(l.disabled, i);
      KeepIs(l.historical, {k});
    }
  }

  lemma RestoreSomeKeeps(l: Lists, wanted: set<string>)
    requires Inv(l)
    ensures Inv(RestoredSome(l, wanted)) && Known(RestoredSome(l, wanted)) == Known(l)
  {
    hide Keep, AddMissing, KeepDisabled, KeysOf, Distinct;
    KeysOfIs(l.disabled, wanted);
    AddMissingIs(l.active, KeysOf(l.disabled, wanted));
    KeepDisabledIs(l.disabled, wanted);
    KeepIs(l.historical, AllKeys(l.disabled) * wanted);
  }

  lemma StepKeeps(l: Lists, e: Event)
    requires Inv(l)
    ensures Inv(Step(l, e)) && Known(Step(l, e)) == Known(l) + Brought(e)
  {
    hide Inv, Known, Added, Removed, MovedToTop, MovedToBottom, Updated, Blacklisted, Restored, RestoredSome;
    match e {
      case Add(k) => AddKeeps(l, k);
      case Remove(k) => LeaveKeeps(l, k);
      case ToTop(k) => MoveKeeps(l, k);
      case ToBottom(k) => MoveKeeps(l, k);
      case Update(keys) => UpdateKeeps(l, keys);
      case Blacklist(k, reason, message) => BlacklistKeeps(l, k, reason, message);
      case Restore(k) => RestoreKeeps(l, k);
      case RestoreSome(wanted) => RestoreSomeKeeps(l, wanted);
      case RestoreEverything => RestoreSomeKeeps(l, AllKeys(l.disabled));
    }
  }

  // ---------- Every run ----------

  /**
   * From a new channel, every run keeps the active keys distinct and apart from
   * the historical ones, and every disabled key active or historical. The keys
   * known are exactly all that were ever brought: none is lost, none invented.
   */
  lemma {:induction false} NoKeyIsEverLost(keys: seq<string>, events: seq<Event>)
    ensures var l := After(Lists(Deduplicated(keys), [], []), events);
      Inv(l) && Known(l) == Set(keys) + AllBrought(events)
  {
    hide Inv, Known, Step;
    if events == [] {
      NewChannel(keys);
    } else {
      var init := events[..|events| - 1];
      NoKeyIsEverLost(keys, init);
      StepKeeps(After(Lists(Deduplicated(keys), [], []), init), events[|events| - 1]);
    }
  }

  lemma NewChannel(keys: seq<string>)
    ensures var l := Lists(Deduplicated(keys), [], []);
      Inv(l) && Known(l) == Set(keys)
  {
    AddMissingIs([], keys);
  }

  // ---------- What undoes what ----------

  /** Restoring a key that was just blacklisted moves it to the end and leaves all else as it was. */
  lemma BlacklistThenRestore(l: Lists, k: string, reason: string, message: string)
    requires Inv(l) && k in l.active
    ensures var r := Restored(Blacklisted(l, k, reason, message), k);
      && r.active == MovedToBottom(l, k).active
      && r.historical == l.historical
      && (k !in AllKeys(l.disabled) ==> r.disabled == l.disabled)
  {
    var i, d := Index(l.active, k), Disabled(k, reason, message);
    CutIs(l.active, i);
    AddOne(Cut(l.active, i), k);
    assert k in Set(l.active);
    AddOne(l.historical, k);
    KeepIs(l.historical, {k});
    KeepSnoc(l.historical, k, {k});
    assert Keep(l.historical, {k}) + [] == l.historical;
    assert (l.disabled + [d])[|l.disabled|].key == k;
    if k !in AllKeys(l.disabled) {
      LastDisabled(l.disabled, d);
    }
  }

  /** A key disabled for the first time is found, and cut, at the end. */
  lemma LastDisabled(s: seq<Disabled>, d: Disabled)
    requires d.key !in AllKeys(s)
    ensures DisabledIndex(s + [d], d.key) == |s| && Cut(s + [d], |s|) == s
  {
    hide DisabledIndex;
    var more := s + [d];
    assert more[|s|] == d;
  }

  lemma AddOne(s: seq<string>, k: string)
    requires k !in Set(s)
    ensures AddMissing(s, [k]) == s + [k]
  {
    assert AddMissing(s, [k][..0]) == s;
  }

  /** Adding back a removed key moves it to the end, forgets that it was disabled, and leaves the history as it was. */
  lemma RemoveThenAdd(l: Lists, k: string)
    requires Inv(l) && k in l.active
    ensures var r := Added(Removed(l, k), k);
      && r.active == MovedToBottom(l, k).active
      && r.historical == l.historical
      && r.disabled == KeepDisabled(l.disabled, {k})
  {
    var i := Index(l.active, k);
    CutIs(l.active, i);
    assert k in Set(l.active);
    assert k !in Set(Cut(l.active, i));
    AddOne(l.historical, k);
    KeepIs(l.historical, {k});
    KeepSnoc(l.historical, k, {k});
    assert Keep(l.historical, {k}) + [] == l.historical;
  }

  /**
   * An update does not lift the blacklist: afterwards a key is active and
   * disabled at once exactly when the update names a disabled key.
   */
  lemma UpdateLeavesDisabledKeys(l: Lists, keys: seq<string>)
    ensures var r := Updated(l, keys);
      && r.disabled == l.disabled
      && (Set(r.active) !! AllKeys(r.disabled) <==> Set(keys) !! AllKeys(l.disabled))
  {
    AddMissingIs([], keys);
  }

  // ---------- Active and disabled at once ----------

  predicate Apart(l: Lists) {
    Set(l.active) !! AllKeys(l.disabled)
  }

  predicate OnceDisabled(s: seq<Disabled>) {
    forall i, j :: 0 <= i < j < |s| ==> s[i].key != s[j].key
  }

  /** Some update names a key that is disabled at the time. */
  predicate UpdateNamesDisabled(l: Lists, events: seq<Event>) {
    events != [] &&
      var init, last := events[..|events| - 1], events[|events| - 1];
      || UpdateNamesDisabled(l, init)
      || (last.Update? && !(Set(last.keys) !! AllKeys(After(l, init).disabled)))
  }

  /** At no point of the run is a key active and disabled. */
  predicate AlwaysApart(l: Lists, events: seq<Event>) {
    Apart(After(l, events)) && (events != [] ==> AlwaysApart(l, events[..|events| - 1]))
  }

  lemma {:induction false} OnceKept(s: seq<Disabled>, drop: set<string>)
    requires OnceDisabled(s)
    ensures OnceDisabled(KeepDisabled(s, drop)) && AllKeys(KeepDisabled(s, drop)) <= AllKeys(s)
  {
    if s != [] {
      var init, d := s[..|s| - 1], s[|s| - 1];
      assert s == init + [d];
      AllKeysAppend(init, [d]);
      AllKeysOne(d);
      OnceKept(init, drop);
      AllKeysAppend(KeepDisabled(init, drop), [d]);
      assert d.key !in AllKeys(init);
      OnceSnoc(KeepDisabled(init, drop), d);
    }
  }

  lemma OnceSnoc(s: seq<Disabled>, d: Disabled)
    requires OnceDisabled(s)
    ensures OnceDisabled(s + [d]) <==> d.key !in AllKeys(s)
  {
    var more := s + [d];
    if d.key in AllKeys(s) {
      var e :| e in s && e.key == d.key;
      var i :| 0 <= i < |s| && s[i] == e;
      assert more[i].key == more[|s|].key;
    } else {
      assert forall i :: 0 <= i < |s| ==> s[i] in s;
    }
  }

  lemma CutAt(s: seq<Disabled>, i: nat, j: nat)
    requires i < |s| && j < |s| - 1
    ensures |Cut(s, i)| == |s| - 1 && Cut(s, i)[j] == s[if j < i then j else j + 1]
  {
  }

  lemma OnceCut(s: seq<Disabled>, i: nat)
    requires OnceDisabled(s) && i < |s|
    ensures OnceDisabled(Cut(s, i)) && AllKeys(Cut(s, i)) == AllKeys(s) - {s[i].key}
  {
    var c := Cut(s, i);
    forall a, b | 0 <= a < b < |c|
      ensures c[a].key != c[b].key
    {
      CutAt(s, i, a);
      CutAt(s, i, b);
    }
    forall k
      ensures k in AllKeys(c) <==> k in AllKeys(s) && k != s[i].key
    {
      CutKey(s, i, k);
    }
  }

  lemma CutKey(s: seq<Disabled>, i: nat, k: string)
    requires OnceDisabled(s) && i < |s|
    ensures k in AllKeys(Cut(s, i)) <==> k in AllKeys(s) && k != s[i].key
  {
    var c := Cut(s, i);
    if k in AllKeys(c) {
      var d :| d in c && d.key == k;
      var j :| 0 <= j < |c| && c[j] == d;
      CutAt(s, i, j);
      assert d in s;
    }
    if k in AllKeys(s) && k != s[i].key {
      var d :| d in s && d.key == k;
      var j :| 0 <= j < |s| && s[j] == d;
      CutAt(s, i, if j < i then j else j - 1);
      assert d in c;
    }
  }

  /** Only an update makes a key active that stays disabled. */
  lemma ApartKept(l: Lists, e: Event)
    requires Inv(l) && Apart(l) && OnceDisabled(l.disabled)
    requires e.Update? ==> Set(e.keys) !! AllKeys(l.disabled)
    ensures Apart(Step(l, e)) && OnceDisabled(Step(l, e).disabled)
  {
    hide Keep, KeepDisabled, AddMissing, KeysOf, DisabledIndex, Deduplicated, Known;
    match e {
      case Add(k) => AddApart(l, k);
      case Remove(k) => CutApart(l, k);
      case ToTop(k) => CutApart(l, k);
      case ToBottom(k) => CutApart(l, k);
      case Update(keys) => UpdateLeavesDisabledKeys(l, keys);
      case Blacklist(k, reason, message) => BlacklistApart(l, k, Disabled(k, reason, message));
      case Restore(k) => RestoreApart(l, k);
      case RestoreSome(wanted) => RestoreSomeApart(l, wanted);
      case RestoreEverything => RestoreSomeApart(l, AllKeys(l.disabled));
    }
  }

  lemma AddApart(l: Lists, k: string)
    requires Apart(l) && OnceDisabled(l.disabled)
    ensures Apart(Added(l, k)) && OnceDisabled(Added(l, k).disabled)
  {
    KeepDisabledIs(l.disabled, {k});
    OnceKept(l.disabled, {k});
    SetSnoc(l.active, k);
  }

  lemma CutApart(l: Lists, k: string)
    requires Apart(l) && Distinct(l.active)
    ensures Apart(Removed(l, k)) && Apart(MovedToTop(l, k)) && Apart(MovedToBottom(l, k))
  {
    var i := Index(l.active, k);
    if i < |l.active| {
      CutIs(l.active, i);
      SetSnoc(Cut(l.active, i), k);
      assert k in Set(l.active);
      assert Set([k] + Cut(l.active, i)) == Set(l.active);
    }
  }

  lemma BlacklistApart(l: Lists, k: string, d: Disabled)
    requires Apart(l) && Distinct(l.active) && OnceDisabled(l.disabled) && d.key == k
    ensures var b := Blacklisted(l, k, d.reason, d.message); Apart(b) && OnceDisabled(b.disabled)
  {
    var i := Index(l.active, k);
    if i < |l.active| {
      CutIs(l.active, i);
      assert k in Set(l.active);
      OnceSnoc(l.disabled, d);
      AllKeysAppend(l.disabled, [d]);
      AllKeysOne(d);
    }
  }

  lemma RestoreApart(l: Lists, k: string)
    requires Apart(l) && OnceDisabled(l.disabled)
    ensures Apart(Restored(l, k)) && OnceDisabled(Restored(l, k).disabled)
  {
    hide OnceDisabled;
    var i := DisabledIndex(l.disabled, k);
    if i < |l.disabled| {
      OnceCut(l.disabled, i);
      AddMissingIs(l.active, [k]);
    }
  }

  lemma RestoreSomeApart(l: Lists, wanted: set<string>)
    requires Apart(l) && OnceDisabled(l.disabled)
    ensures Apart(RestoredSome(l, wanted)) && OnceDisabled(RestoredSome(l, wanted).disabled)
  {
    hide OnceDisabled;
    KeysOfIs(l.disabled, wanted);
    AddMissingIs(l.active, KeysOf(l.disabled, wanted));
    KeepDisabledIs(l.disabled, wanted);
    OnceKept(l.disabled, wanted);
  }

  /**
   * Over every run from a new channel, no key is ever active and disabled at
   * once, if and only if no update of the run names a key disabled at the time.
   */
  lemma {:induction false} ApartExactlyWhen(keys: seq<string>, events: seq<Event>)
    ensures var l := Lists(Deduplicated(keys), [], []);
      && (AlwaysApart(l, events) <==> !UpdateNamesDisabled(l, events))
      && (AlwaysApart(l, events) ==> OnceDisabled(After(l, events).disabled))
  {
    hide Inv, Known, Step, Deduplicated, OnceDisabled;
    var l := Lists(Deduplicated(keys), [], []);
    if events == [] {
      NothingDisabled(l);
    } else {
      var init, last := events[..|events| - 1], events[|events| - 1];
      ApartExactlyWhen(keys, init);
      NoKeyIsEverLost(keys, init);
      if AlwaysApart(l, init) {
        if last.Update? && !(Set(last.keys) !! AllKeys(After(l, init).disabled)) {
          UpdateStep(After(l, init), last);
        } else {
          ApartKept(After(l, init), last);
        }
      }
    }
  }

  lemma NothingDisabled(l: Lists)
    requires l.disabled == []
    ensures Apart(l) && OnceDisabled(l.disabled)
  {
  }

  lemma UpdateStep(l: Lists, e: Event)
    requires e.Update? && !(Set(e.keys) !! AllKeys(l.disabled))
    ensures !Apart(Step(l, e))
  {
    hide Updated, AllKeys;
    UpdateLeavesDisabledKeys(l, e.keys);
  }

  /** Such a run: the second restore leaves the key active and disabled. */
  lemma UpdatedKeyStaysDisabled(k: string, reason: string, message: string)
    ensures var d := Disabled(k, reason, message);
      var l := Blacklisted(Lists([k], [], []), k, reason, message);
      && l == Lists([], [d], [k])
      && Updated(l, [k]) == Lists([k], [d], [])
      && Blacklisted(Updated(l, [k]), k, reason, message) == Lists([], [d, d], [k])
      && Restored(Lists([], [d, d], [k]), k) == Lists([k], [d], [])
      && !Apart(Lists([k], [d], []))
  {
    var d := Disabled(k, reason, message);
    var none: seq<string>, one := [], [k];
    var empty: seq<Disabled> := [];
    assert Cut(one, 0) == none && empty + [d] == [d] && AddMissing(none, one) == one by {
      assert one[..0] == none && none + one == one;
    }
    assert Keep(none, {k}) == none && Keep(one, {k}) == none by {
      assert one[..0] == none && none + none == none;
    }
    assert (set x | x in one) == {k};
    assert AddMissing(one, none) == one;
    assert Deduplicated(one) == one by {
      assert AddMissing(none, one) == one;
    }
    assert [d] + [d] == [d, d] && Cut([d, d], 0) == [d];
    assert k in Set([k]) && d in [d];
  }
}
