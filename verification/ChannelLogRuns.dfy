// What every run of the channel log keeps, when each request has its own id.
module ChannelLogRuns {
  import opened Common
  import opened ChannelLog

  datatype Event =
    | Create(channel: int, log: Log)
    | Change(id: string, change: ChannelLog.Change)
    | Complete(id: string, change: ChannelLog.Change)
    | Remove(channel: int)
    | Clear

  /** The store, the ids recorded in each channel so far, and all ids given out. */
  datatype World = World(store: Store, recorded: map<int, seq<string>>, used: set<string>)

  const FRESH := World(EMPTY, map[], {})

  predicate Allowed(w: World, e: Event) {
    match e
    case Create(_, log) => log.requestID != "" && log.requestID !in w.used
    case Complete(id, change) => id != "" && change.Finish? && Terminal(change.status)
    case _ => true
  }

  function Step(w: World, e: Event): World
    requires Allowed(w, e)
  {
    match e
    case Create(c, log) =>
      World(Recorded(w.store, c, log), w.recorded[c := At(w.recorded, c) + [log.requestID]], w.used + {log.requestID})
    case Change(id, change) => w.(store := Updated(w.store, id, change).0)
    case Complete(id, change) =>
      var (s, found, c) := Updated(w.store, id, change);
      World(Finished(w.store, id, change),
            if found == MissingEvicted && c >= 0 then w.recorded[c := At(w.recorded, c) + [id]] else w.recorded, w.used)
    case Remove(c) => World(Removed(w.store, c), Without(w.recorded, c), w.used)
    case Clear => World(EMPTY, map[], w.used)
  }

  predicate Runs(w: World, events: seq<Event>)
    decreases events
  {
    events != [] ==> Allowed(w, events[0]) && Runs(Step(w, events[0]), events[1..])
  }

  function After(w: World, events: seq<Event>): World
    requires Runs(w, events)
    decreases events
  {
    if events == [] then w else After(Step(w, events[0]), events[1..])
  }

  // ---------- Invariant ----------

  predicate Holds(logs: Buffers, c: int, k: int) {
    c in logs && 0 <= k < |logs[c]|
  }

  /** Each stored log carries its channel's index; the unfinished ones, and only those, are tracked there. */
  ghost predicate Placed(s: Store) {
    forall c, k :: Holds(s.logs, c, k) ==> LogPlaced(s, c, s.logs[c][k])
  }

  predicate LogPlaced(s: Store, c: int, l: Log) {
    && l.requestID != ""
    && l.channelIndex == c
    && (Terminal(l.status) <==> l.requestID !in s.locations)
    && (l.requestID in s.locations ==> s.locations[l.requestID] == c)
  }

  /** No request is logged twice. */
  ghost predicate Unique(logs: Buffers) {
    forall c, k, c', k' :: Holds(logs, c, k) && Holds(logs, c', k') && logs[c][k].requestID == logs[c'][k'].requestID
      ==> c == c' && k == k'
  }

  function Ids(logs: seq<Log>): (r: seq<string>)
    ensures |r| == |logs|
    ensures forall k :: 0 <= k < |logs| ==> r[k] == logs[k].requestID
  {
    seq(|logs|, k requires 0 <= k < |logs| => logs[k].requestID)
  }

  /** Every buffer holds the last 50 requests recorded in its channel. */
  ghost predicate LastRecorded(logs: Buffers, recorded: map<int, seq<string>>) {
    forall c :: Ids(At(logs, c)) == LastN(At(recorded, c), MAX_LOGS)
  }

  ghost predicate Known(s: Store, used: set<string>) {
    && (forall c, k :: Holds(s.logs, c, k) ==> s.logs[c][k].requestID in used)
    && s.locations.Keys <= used
  }

  ghost predicate Inv(w: World) {
    && Placed(w.store) && Unique(w.store.logs) && Known(w.store, w.used)
    && LastRecorded(w.store.logs, w.recorded) && "" !in w.used
  }

  // ---------- Recording ----------

  /** How many logs one more pushes out of a buffer. */
  function PushedOut(logs: Buffers, c: int): nat {
    if |At(logs, c)| + 1 > MAX_LOGS then |At(logs, c)| + 1 - MAX_LOGS else 0
  }

  /** Where the logs of a buffer with one more entry come from. */
  lemma AppendedAt(logs: Buffers, c: int, l: Log, c': int, k: int)
    requires Holds(Appended(logs, c, l), c', k)
    ensures var n := Appended(logs, c, l)[c'][k];
      if c' != c then Holds(logs, c', k) && n == logs[c'][k]
      else if k == |At(logs, c)| - PushedOut(logs, c) then n == l
      else Holds(logs, c, k + PushedOut(logs, c)) && n == logs[c][k + PushedOut(logs, c)]
  {
    if c' == c {
      var grown := At(logs, c) + [l];
      assert LastN(grown, MAX_LOGS)[k] == grown[k + PushedOut(logs, c)];
    }
  }

  lemma AppendedUnique(logs: Buffers, c: int, l: Log)
    requires Unique(logs)
    requires forall c', k :: Holds(logs, c', k) ==> logs[c'][k].requestID != l.requestID
    ensures Unique(Appended(logs, c, l))
  {
    hide Appended;
    var new_ := Appended(logs, c, l);
    forall c1, k1, c2, k2 | Holds(new_, c1, k1) && Holds(new_, c2, k2) && new_[c1][k1].requestID == new_[c2][k2].requestID
      ensures c1 == c2 && k1 == k2
    {
      AppendedAt(logs, c, l, c1, k1);
      AppendedAt(logs, c, l, c2, k2);
    }
  }

  lemma AppendedIds(logs: Buffers, recorded: map<int, seq<string>>, c: int, l: Log)
    requires LastRecorded(logs, recorded)
    ensures LastRecorded(Appended(logs, c, l), recorded[c := At(recorded, c) + [l.requestID]])
  {
    var old_, ids := At(logs, c), At(recorded, c);
    assert Ids(old_) == LastN(ids, MAX_LOGS);
    assert Ids(old_ + [l]) == Ids(old_) + [l.requestID];
    IdsLastN(old_ + [l], MAX_LOGS);
    SlideLastN(ids, l.requestID, MAX_LOGS);
    forall c' | c' != c
      ensures Ids(At(Appended(logs, c, l), c')) == LastN(At(recorded[c := ids + [l.requestID]], c'), MAX_LOGS)
    {
      assert Ids(At(logs, c')) == LastN(At(recorded, c'), MAX_LOGS);
    }
  }

  lemma IdsLastN(logs: seq<Log>, n: nat)
    ensures Ids(LastN(logs, n)) == LastN(Ids(logs), n)
  {
  }

  lemma SlideLastN<T>(s: seq<T>, x: T, n: nat)
    requires n >= 1
    ensures LastN(LastN(s, n) + [x], n) == LastN(s + [x], n)
  {
  }

  /** Recording a request that is not stored keeps everything. */
  lemma RecordKeeps(w: World, c: int, log: Log)
    requires Inv(w) && log.requestID != ""
    requires forall c', k :: Holds(w.store.logs, c', k) ==> w.store.logs[c'][k].requestID != log.requestID
    ensures Inv(World(Recorded(w.store, c, log), w.recorded[c := At(w.recorded, c) + [log.requestID]],
                      w.used + {log.requestID}))
  {
    hide Appended, Unique, LastRecorded;
    var l := log.(channelIndex := c);
    AppendedUnique(w.store.logs, c, l);
    AppendedIds(w.store.logs, w.recorded, c, l);
    var s := Recorded(w.store, c, log);
    forall c', k | Holds(s.logs, c', k)
      ensures LogPlaced(s, c', s.logs[c'][k]) && s.logs[c'][k].requestID in w.used + {log.requestID}
    {
      AppendedAt(w.store.logs, c, l, c', k);
    }
  }

  // ---------- Updating ----------

  lemma UpdateKeeps(w: World, id: string, change: ChannelLog.Change)
    requires Inv(w)
    ensures Inv(w.(store := Updated(w.store, id, change).0))
  {
    var s := w.store;
    if id != "" && id in s.locations && s.locations[id] in s.logs {
      var c := s.locations[id];
      var k := Find(s.logs[c], id);
      if k < |s.logs[c]| {
        assert Holds(s.logs, c, k);
        ChangeAtKeeps(w, id, change, c, k);
      }
    } else if id != "" && id in s.locations {
      DropUnstoredKeeps(w, id);
    }
  }

  /** A tracked request whose channel has no buffer is stored nowhere. */
  lemma DropUnstoredKeeps(w: World, id: string)
    requires Inv(w) && id in w.store.locations && w.store.locations[id] !in w.store.logs
    ensures Inv(w.(store := w.store.(locations := w.store.locations - {id})))
  {
    hide Unique, LastRecorded;
    var s := w.store.(locations := w.store.locations - {id});
    forall c, k | Holds(s.logs, c, k)
      ensures LogPlaced(s, c, s.logs[c][k])
    {
      assert LogPlaced(w.store, c, s.logs[c][k]);
    }
  }

  lemma ChangeAtKeeps(w: World, id: string, change: ChannelLog.Change, c: int, k: nat)
    requires Inv(w) && id in w.store.locations && Holds(w.store.logs, c, k) && w.store.logs[c][k].requestID == id
    ensures var l := Changed(w.store.logs[c][k], change);
      Inv(w.(store := Store(w.store.logs[c := w.store.logs[c][k := l]],
                            if Terminal(l.status) then w.store.locations - {id} else w.store.locations)))
  {
    var l := Changed(w.store.logs[c][k], change);
    var logs := w.store.logs[c := w.store.logs[c][k := l]];
    var s := Store(logs, if Terminal(l.status) then w.store.locations - {id} else w.store.locations);
    SameIds(w.store.logs, logs, w.recorded);
    hide LastRecorded;
    assert Unique(logs) by {
      assert forall c', k' :: Holds(logs, c', k') ==>
        Holds(w.store.logs, c', k') && logs[c'][k'].requestID == w.store.logs[c'][k'].requestID;
    }
    forall c', k' | Holds(logs, c', k')
      ensures LogPlaced(s, c', logs[c'][k']) && logs[c'][k'].requestID in w.used
    {
      assert Holds(w.store.logs, c', k') && LogPlaced(w.store, c', w.store.logs[c'][k']);
      assert (c', k') != (c, k) ==> w.store.logs[c'][k'].requestID != id;
    }
  }

  lemma SameIds(logs: Buffers, logs': Buffers, recorded: map<int, seq<string>>)
    requires LastRecorded(logs, recorded) && logs.Keys == logs'.Keys
    requires forall c :: c in logs ==> Ids(logs[c]) == Ids(logs'[c])
    ensures LastRecorded(logs', recorded)
  {
    forall c
      ensures Ids(At(logs', c)) == LastN(At(recorded, c), MAX_LOGS)
    {
      assert Ids(At(logs, c)) == Ids(At(logs', c));
    }
  }

  // ---------- Removing a channel ----------

  /** Where the logs of the shifted buffers come from. */
  lemma RemovedLogAt(logs: Buffers, i: int, c: int, k: int)
    requires Holds(RemovedLogs(logs, i), c, k)
    ensures Holds(logs, Up(c, i), k)
    ensures RemovedLogs(logs, i)[c][k] == if c < i then logs[Up(c, i)][k] else logs[Up(c, i)][k].(channelIndex := c)
  {
    RemovedBuffers(logs, i);
  }

  lemma RemoveKeeps(w: World, i: int)
    requires Inv(w)
    ensures Inv(World(Removed(w.store, i), Without(w.recorded, i), w.used))
  {
    hide RemovedLogs, Without, Unique, LastRecorded;
    var s := Removed(w.store, i);
    RemovedUnique(w.store.logs, i);
    RemovedLastRecorded(w.store.logs, w.recorded, i);
    forall c, k | Holds(s.logs, c, k)
      ensures LogPlaced(s, c, s.logs[c][k]) && s.logs[c][k].requestID in w.used
    {
      RemovedLogAt(w.store.logs, i, c, k);
      assert LogPlaced(w.store, Up(c, i), w.store.logs[Up(c, i)][k]);
    }
  }

  lemma RemovedUnique(logs: Buffers, i: int)
    requires Unique(logs)
    ensures Unique(RemovedLogs(logs, i))
  {
    hide RemovedLogs;
    var new_ := RemovedLogs(logs, i);
    forall c1, k1, c2, k2 | Holds(new_, c1, k1) && Holds(new_, c2, k2) && new_[c1][k1].requestID == new_[c2][k2].requestID
      ensures c1 == c2 && k1 == k2
    {
      RemovedLogAt(logs, i, c1, k1);
      RemovedLogAt(logs, i, c2, k2);
      assert Up(c1, i) == Up(c2, i);
    }
  }

  lemma WithoutAt<T>(m: map<int, seq<T>>, i: int, c: int)
    ensures At(Without(m, i), c) == At(m, Up(c, i))
  {
    DownKeysAreUp(m.Keys, i, c);
  }

  lemma RemovedLastRecorded(logs: Buffers, recorded: map<int, seq<string>>, i: int)
    requires LastRecorded(logs, recorded)
    ensures LastRecorded(RemovedLogs(logs, i), Without(recorded, i))
  {
    hide RemovedLogs, Without;
    forall c
      ensures Ids(At(RemovedLogs(logs, i), c)) == LastN(At(Without(recorded, i), c), MAX_LOGS)
    {
      WithoutAt(recorded, i, c);
      BufferMoves(logs, i, c);
      assert Ids(At(logs, Up(c, i))) == LastN(At(recorded, Up(c, i)), MAX_LOGS);
      assert Ids(Moved(At(logs, Up(c, i)), c, i)) == Ids(At(logs, Up(c, i)));
    }
  }

  // ---------- Every step ----------

  lemma StepKeeps(w: World, e: Event)
    requires Inv(w) && Allowed(w, e)
    ensures Inv(Step(w, e))
  {
    hide Inv, Recorded, Removed, Without;
    match e {
      case Create(c, log) =>
        KnownIds(w);
        RecordKeeps(w, c, log);
      case Change(id, change) => UpdateKeeps(w, id, change);
      case Complete(id, change) =>
        UpdateKeeps(w, id, change);
        if Updated(w.store, id, change).1 == MissingEvicted {
          EvictedIsNotStored(w, id, change);
          RewriteKeeps(w, id, change);
        }
      case Remove(c) => RemoveKeeps(w, c);
      case Clear => ClearKeeps(w);
    }
  }

  lemma KnownIds(w: World)
    requires Inv(w)
    ensures forall c, k :: Holds(w.store.logs, c, k) ==> w.store.logs[c][k].requestID in w.used
    ensures w.store.locations.Keys <= w.used && "" !in w.used
  {
  }

  /** An update that finds no log leaves the store as it was. */
  lemma EvictedIsNotStored(w: World, id: string, change: ChannelLog.Change)
    requires Inv(w) && Updated(w.store, id, change).1 == MissingEvicted
    ensures Updated(w.store, id, change).0 == w.store
    ensures id in w.store.locations && Updated(w.store, id, change).2 == w.store.locations[id]
    ensures id in w.used && id != ""
    ensures forall c, k :: Holds(w.store.logs, c, k) ==> w.store.logs[c][k].requestID != id
  {
    forall c, k | Holds(w.store.logs, c, k)
      ensures w.store.logs[c][k].requestID != id
    {
      assert LogPlaced(w.store, c, w.store.logs[c][k]);
    }
  }

  lemma RewriteKeeps(w: World, id: string, change: ChannelLog.Change)
    requires Inv(w) && change.Finish? && Terminal(change.status) && id != ""
    requires Updated(w.store, id, change).1 == MissingEvicted
    ensures Inv(Step(w, Complete(id, change)))
  {
    hide Inv, Recorded;
    EvictedIsNotStored(w, id, change);
    var c := w.store.locations[id];
    var log := Changed(Log(id, c, Pending, 0, false, "", false), change);
    if c >= 0 {
      RecordKeeps(w, c, log);
      assert w.used + {id} == w.used;
    }
  }

  lemma ClearKeeps(w: World)
    requires Inv(w)
    ensures Inv(World(EMPTY, map[], w.used))
  {
  }

  // ---------- One channel per request ----------

  /** A request is recorded in one channel only, and tracked there while that channel has a buffer. */
  ghost predicate Homed(w: World) {
    && (forall id :: id in w.store.locations ==>
          w.store.locations[id] in w.store.logs && id in At(w.recorded, w.store.locations[id]))
    && (forall c, id :: id in At(w.recorded, c) ==> id in w.used)
    && (forall c, c', id :: id in At(w.recorded, c) && id in At(w.recorded, c') ==> c == c')
  }

  ghost predicate Sound(w: World) {
    Inv(w) && Homed(w)
  }

  lemma RecordHomed(w: World, c: int, log: Log)
    requires Homed(w) && log.requestID != ""
    requires forall c' :: log.requestID in At(w.recorded, c') ==> c' == c
    ensures Homed(World(Recorded(w.store, c, log), w.recorded[c := At(w.recorded, c) + [log.requestID]],
                        w.used + {log.requestID}))
  {
    var id := log.requestID;
    var recorded := w.recorded[c := At(w.recorded, c) + [id]];
    forall c', x
      ensures x in At(recorded, c') <==> x in At(w.recorded, c') || (c' == c && x == id)
    {
      assert At(recorded, c') == if c' == c then At(w.recorded, c) + [id] else At(w.recorded, c');
    }
    var s := Recorded(w.store, c, log);
    forall x | x in s.locations
      ensures s.locations[x] in s.logs && x in At(recorded, s.locations[x])
    {
      assert x != id ==> x in w.store.locations && s.locations[x] == w.store.locations[x];
    }
  }

  lemma RemoveHomed(w: World, i: int)
    requires Homed(w)
    ensures Homed(World(Removed(w.store, i), Without(w.recorded, i), w.used))
  {
    hide Without;
    var s := Removed(w.store, i);
    var recorded := Without(w.recorded, i);
    forall c
      ensures At(recorded, c) == At(w.recorded, Up(c, i))
    {
      WithoutAt(w.recorded, i, c);
    }
    forall id | id in s.locations
      ensures s.locations[id] in s.logs && id in At(recorded, s.locations[id])
    {
      var c := w.store.locations[id];
      assert Up(Down(c, i), i) == c;
      RemovedBuffers(w.store.logs, i);
    }
  }

  /** An update tracks nothing new and drops no buffer. */
  lemma UpdateHomed(w: World, id: string, change: ChannelLog.Change)
    requires Homed(w)
    ensures Homed(w.(store := Updated(w.store, id, change).0))
  {
  }

  lemma ClearHomed(w: World)
    requires Homed(w)
    ensures Homed(World(EMPTY, map[], w.used))
  {
  }

  lemma StepHomed(w: World, e: Event)
    requires Sound(w) && Allowed(w, e)
    ensures Homed(Step(w, e))
  {
    hide Inv, Recorded, Removed, Without;
    match e {
      case Create(c, log) => RecordHomed(w, c, log);
      case Change(id, change) => UpdateHomed(w, id, change);
      case Complete(id, change) =>
        UpdateHomed(w, id, change);
        if Updated(w.store, id, change).1 == MissingEvicted {
          RewriteHomed(w, id, change);
        }
      case Remove(c) => RemoveHomed(w, c);
      case Clear => ClearHomed(w);
    }
  }

  lemma RewriteHomed(w: World, id: string, change: ChannelLog.Change)
    requires Sound(w) && Allowed(w, Complete(id, change))
    requires Updated(w.store, id, change).1 == MissingEvicted
    ensures Homed(Step(w, Complete(id, change)))
  {
    hide Inv, Recorded;
    EvictedIsNotStored(w, id, change);
    var c := w.store.locations[id];
    var log := Changed(Log(id, c, Pending, 0, false, "", false), change);
    if c >= 0 {
      RecordHomed(w, c, log);
      assert w.used + {id} == w.used;
    }
  }

  // ---------- Every run ----------

  lemma {:induction false} EveryRunKeeps(w: World, events: seq<Event>)
    requires Sound(w) && Runs(w, events)
    ensures Sound(After(w, events))
    decreases events
  {
    hide Inv, Homed, Step;
    if events != [] {
      StepKeeps(w, events[0]);
      StepHomed(w, events[0]);
      EveryRunKeeps(Step(w, events[0]), events[1..]);
    }
  }

  lemma FreshKeeps()
    ensures Sound(FRESH)
  {
  }

  /** Whatever happens to a new store, all of it holds. */
  lemma AlwaysSound(events: seq<Event>)
    requires Runs(FRESH, events)
    ensures Sound(After(FRESH, events))
  {
    hide Sound;
    FreshKeeps();
    EveryRunKeeps(FRESH, events);
  }

  // ---------- Exactly the request's own log ----------

  /**
   * Update finds a log exactly when the request has an unfinished one stored.
   * It reports an eviction exactly when the request is tracked and no log of it
   * is stored, and a deletion exactly when it is not tracked.
   */
  lemma UpdateFindsExactly(w: World, id: string, change: ChannelLog.Change)
    requires Sound(w)
    ensures Updated(w.store, id, change).1 == Found <==>
      exists c, k :: Holds(w.store.logs, c, k) && w.store.logs[c][k].requestID == id && !Terminal(w.store.logs[c][k].status)
    ensures Updated(w.store, id, change).1 == MissingEvicted <==>
      id in w.store.locations && forall c, k :: Holds(w.store.logs, c, k) ==> w.store.logs[c][k].requestID != id
    ensures Updated(w.store, id, change).1 == MissingDeleted <==> id !in w.store.locations
  {
    hide Unique, LastRecorded;
    var s := w.store;
    if id in s.locations {
      var c := s.locations[id];
      var k := Find(s.logs[c], id);
      if k < |s.logs[c]| {
        assert Holds(s.logs, c, k) && LogPlaced(s, c, s.logs[c][k]);
      } else {
        EvictedIsNotStored(w, id, change);
      }
    }
  }

  /** An update rewrites the one log of its request, in the channel that has it now, and no other. */
  lemma UpdateTouchesOnlyItsLog(w: World, id: string, change: ChannelLog.Change, c: int, k: nat)
    requires Inv(w) && Holds(w.store.logs, c, k)
    ensures var s' := Updated(w.store, id, change).0; var l := w.store.logs[c][k];
      && s'.logs.Keys == w.store.logs.Keys && |s'.logs[c]| == |w.store.logs[c]|
      && s'.logs[c][k] == if l.requestID == id && !Terminal(l.status) then Changed(l, change) else l
  {
    var s := w.store;
    assert LogPlaced(s, c, s.logs[c][k]);
    if id in s.locations && s.locations[id] in s.logs {
      var at := s.locations[id];
      var j := Find(s.logs[at], id);
      if j < |s.logs[at]| {
        assert Holds(s.logs, at, j) && LogPlaced(s, at, s.logs[at][j]);
      }
    }
  }

  // ---------- Finished and removed requests ----------

  /** The stored logs of a request, wherever they are. */
  ghost function Copies(logs: Buffers, id: string): set<Log> {
    set c, k | c in logs && 0 <= k < |logs[c]| && logs[c][k].requestID == id :: logs[c][k].(channelIndex := 0)
  }

  lemma CopyAt(logs: Buffers, id: string, c: int, k: int)
    requires Holds(logs, c, k) && logs[c][k].requestID == id
    ensures logs[c][k].(channelIndex := 0) in Copies(logs, id)
  {
  }

  /** Nobody waits for this request any more. */
  predicate Untracked(w: World, id: string) {
    id in w.used && id !in w.store.locations
  }

  /** A request that is not tracked stays so, and its log can only disappear. */
  lemma UntrackedOnlyFades(w: World, e: Event, id: string)
    requires Inv(w) && Allowed(w, e) && Untracked(w, id)
    ensures Untracked(Step(w, e), id)
    ensures Copies(Step(w, e).store.logs, id) <= Copies(w.store.logs, id)
  {
    hide Copies, Appended, RemovedLogs, Without;
    var before, after := w.store.logs, Step(w, e).store.logs;
    match e {
      case Create(c, log) => AppendedFades(before, c, log.(channelIndex := c), id);
      case Change(other, change) => UpdatedFades(w, other, change, id);
      case Complete(other, change) =>
        UpdatedFades(w, other, change, id);
        if Updated(w.store, other, change).1 == MissingEvicted {
          EvictedIsNotStored(w, other, change);
          RewriteFades(w, other, change, id);
        }
      case Remove(c) => RemovedFades(before, c, id);
      case Clear => ClearFades(before, id);
    }
  }

  lemma ClearFades(logs: Buffers, id: string)
    ensures Copies(map[], id) <= Copies(logs, id)
  {
  }

  lemma RewriteFades(w: World, other: string, change: ChannelLog.Change, id: string)
    requires Inv(w) && change.Finish? && Terminal(change.status) && Untracked(w, id)
    requires Updated(w.store, other, change).1 == MissingEvicted
    ensures Untracked(w.(store := Finished(w.store, other, change)), id)
    ensures Copies(Finished(w.store, other, change).logs, id) <= Copies(w.store.logs, id)
  {
    hide Copies, Appended;
    EvictedIsNotStored(w, other, change);
    var c := w.store.locations[other];
    var log := Changed(Log(other, c, Pending, 0, false, "", false), change);
    if c >= 0 {
      AppendedFades(w.store.logs, c, log.(channelIndex := c), id);
    }
  }

  lemma AppendedFades(logs: Buffers, c: int, l: Log, id: string)
    requires l.requestID != id
    ensures Copies(Appended(logs, c, l), id) <= Copies(logs, id)
  {
    hide Appended;
    var new_ := Appended(logs, c, l);
    forall x | x in Copies(new_, id)
      ensures x in Copies(logs, id)
    {
      var c', k :| Holds(new_, c', k) && new_[c'][k].requestID == id && x == new_[c'][k].(channelIndex := 0);
      AppendedAt(logs, c, l, c', k);
    }
  }

  lemma RemovedFades(logs: Buffers, i: int, id: string)
    ensures Copies(RemovedLogs(logs, i), id) <= Copies(logs, id)
  {
    hide RemovedLogs;
    var new_ := RemovedLogs(logs, i);
    forall x | x in Copies(new_, id)
      ensures x in Copies(logs, id)
    {
      var c, k :| Holds(new_, c, k) && new_[c][k].requestID == id && x == new_[c][k].(channelIndex := 0);
      RemovedLogAt(logs, i, c, k);
      CopyAt(logs, id, Up(c, i), k);
    }
  }

  lemma UpdatedFades(w: World, other: string, change: ChannelLog.Change, id: string)
    requires Inv(w) && Untracked(w, id)
    ensures var s' := Updated(w.store, other, change).0;
      id !in s'.locations && Copies(s'.logs, id) <= Copies(w.store.logs, id)
  {
    var s' := Updated(w.store, other, change).0;
    forall x | x in Copies(s'.logs, id)
      ensures x in Copies(w.store.logs, id)
    {
      var c, k :| Holds(s'.logs, c, k) && s'.logs[c][k].requestID == id && x == s'.logs[c][k].(channelIndex := 0);
      UpdatedKeepsPlaces(w, other, change, c, k);
      UpdateTouchesOnlyItsLog(w, other, change, c, k);
      assert LogPlaced(w.store, c, w.store.logs[c][k]);
    }
  }

  lemma UpdatedKeepsPlaces(w: World, id: string, change: ChannelLog.Change, c: int, k: int)
    requires Holds(Updated(w.store, id, change).0.logs, c, k)
    ensures Holds(w.store.logs, c, k)
  {
  }

  lemma {:induction false} UntrackedFadesForever(w: World, events: seq<Event>, id: string)
    requires Inv(w) && Runs(w, events) && Untracked(w, id)
    ensures Untracked(After(w, events), id)
    ensures Copies(After(w, events).store.logs, id) <= Copies(w.store.logs, id)
    decreases events
  {
    hide Inv, Step, Copies, Untracked;
    if events != [] {
      StepKeeps(w, events[0]);
      UntrackedOnlyFades(w, events[0], id);
      UntrackedFadesForever(Step(w, events[0]), events[1..], id);
    }
  }

  /** A finished log is never changed: over any later run it is there as it was, at whatever index, or gone. */
  lemma FinishedLogsNeverChange(w: World, events: seq<Event>, c: int, k: nat, c': int, k': nat)
    requires Sound(w) && Runs(w, events)
    requires Holds(w.store.logs, c, k) && Terminal(w.store.logs[c][k].status)
    requires Holds(After(w, events).store.logs, c', k')
    requires After(w, events).store.logs[c'][k'].requestID == w.store.logs[c][k].requestID
    ensures After(w, events).store.logs[c'][k'] == w.store.logs[c][k].(channelIndex := c')
  {
    hide After, Runs, Copies;
    var id := w.store.logs[c][k].requestID;
    assert LogPlaced(w.store, c, w.store.logs[c][k]);
    UntrackedFadesForever(w, events, id);
    EveryRunKeeps(w, events);
    var w' := After(w, events);
    assert LogPlaced(w'.store, c', w'.store.logs[c'][k']);
    CopyAt(w'.store.logs, id, c', k');
    OnlyCopy(w, c, k);
  }

  lemma OnlyCopy(w: World, c: int, k: nat)
    requires Inv(w) && Holds(w.store.logs, c, k)
    ensures forall x :: x in Copies(w.store.logs, w.store.logs[c][k].requestID) ==> x == w.store.logs[c][k].(channelIndex := 0)
  {
    var logs, id := w.store.logs, w.store.logs[c][k].requestID;
    forall x | x in Copies(logs, id)
      ensures x == logs[c][k].(channelIndex := 0)
    {
      var c', k' :| Holds(logs, c', k') && logs[c'][k'].requestID == id && x == logs[c'][k'].(channelIndex := 0);
    }
  }

  /** A request recorded in a removed channel, finished or not, never shows up again, in no channel. */
  lemma RemovedRequestsNeverReturn(w: World, i: int, events: seq<Event>, id: string)
    requires Sound(w) && id in At(w.recorded, i) && Runs(Step(w, Remove(i)), events)
    ensures var w' := After(Step(w, Remove(i)), events);
      && id !in w'.store.locations
      && forall c, k :: Holds(w'.store.logs, c, k) ==> w'.store.logs[c][k].requestID != id
  {
    hide After, Runs, Copies, Without, RemovedLogs, Inv;
    var r := Step(w, Remove(i));
    StepKeeps(w, Remove(i));
    RemovedHasNoCopy(w, i, id);
    assert Untracked(r, id);
    UntrackedFadesForever(r, events, id);
    var w' := After(r, events);
    forall c, k | Holds(w'.store.logs, c, k)
      ensures w'.store.logs[c][k].requestID != id
    {
      if w'.store.logs[c][k].requestID == id {
        CopyAt(w'.store.logs, id, c, k);
      }
    }
  }

  /** What is stored was recorded in the same channel. */
  lemma StoredIsRecorded(w: World, c: int, k: nat)
    requires Inv(w) && Holds(w.store.logs, c, k)
    ensures w.store.logs[c][k].requestID in At(w.recorded, c)
  {
    hide Placed, Unique, Known;
    var ids := Ids(w.store.logs[c]);
    assert ids == LastN(At(w.recorded, c), MAX_LOGS);
    assert ids[k] in ids;
  }

  lemma RemovedHasNoCopy(w: World, i: int, id: string)
    requires Sound(w) && id in At(w.recorded, i)
    ensures Copies(RemovedLogs(w.store.logs, i), id) == {}
  {
    hide RemovedLogs, Inv;
    var logs := RemovedLogs(w.store.logs, i);
    forall c, k | Holds(logs, c, k)
      ensures logs[c][k].requestID != id
    {
      RemovedLogAt(w.store.logs, i, c, k);
      StoredIsRecorded(w, Up(c, i), k);
    }
  }
}
