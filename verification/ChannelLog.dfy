// Ring buffers of request logs per channel, with a map of where each open
// request is logged. Removing a channel moves every later one down.
module ChannelLog {
  import opened Common

  datatype Status = Pending | Connecting | FirstByte | Streaming | Completed | Failed | Cancelled

  predicate Terminal(s: Status) {
    s == Completed || s == Failed || s == Cancelled
  }

  datatype Log = Log(requestID: string, channelIndex: int, status: Status,
                     statusCode: int, success: bool, errorInfo: string, isRetry: bool)

  /** What the callers of Update do to a log. */
  datatype Change =
    | SetStatus(status: Status)
    | Finish(status: Status, statusCode: int, success: bool, errorInfo: string, isRetry: bool)

  function Changed(l: Log, change: Change): Log {
    match change
    case SetStatus(status) => l.(status := status)
    case Finish(status, statusCode, success, errorInfo, isRetry) =>
      Log(l.requestID, l.channelIndex, status, statusCode, success, errorInfo, isRetry)
  }

  datatype UpdateStatus = Found | MissingEvicted | MissingDeleted

  type Buffers = map<int, seq<Log>>

  datatype Store = Store(logs: Buffers, locations: map<string, int>)

  const MAX_LOGS := 50
  const EMPTY := Store(map[], map[])

  function At<T>(m: map<int, seq<T>>, c: int): seq<T> {
    if c in m then m[c] else []
  }

  // ---------- What the operations do ----------

  function Recorded(s: Store, c: int, log: Log): Store {
    if log.requestID == "" then s.(logs := Appended(s.logs, c, log))
    else
      Store(Appended(s.logs, c, log.(channelIndex := c)),
            if Terminal(log.status) then s.locations - {log.requestID} else s.locations[log.requestID := c])
  }

  function Appended(logs: Buffers, c: int, log: Log): Buffers {
    logs[c := LastN(At(logs, c) + [log], MAX_LOGS)]
  }

  /** Where position c was before position i was deleted. */
  function Up(c: int, i: int): int {
    if c < i then c else c + 1
  }

  /** Where position c other than i is after position i is deleted. */
  function Down(c: int, i: int): int {
    if c > i then c - 1 else c
  }

  function DownKeys(keys: set<int>, i: int): set<int> {
    set c | c in keys && c != i :: Down(c, i)
  }

  lemma DownKeysAreUp(keys: set<int>, i: int, c: int)
    ensures c in DownKeys(keys, i) <==> Up(c, i) in keys
  {
    assert Down(Up(c, i), i) == c;
  }

  function Without<T>(m: map<int, seq<T>>, i: int): map<int, seq<T>> {
    map c | c in DownKeys(m.Keys, i) :: (DownKeysAreUp(m.Keys, i, c); m[Up(c, i)])
  }

  /** The logs of a channel that moved down to c. */
  function Renumbered(logs: seq<Log>, c: int): (r: seq<Log>)
    ensures |r| == |logs|
    ensures forall k :: 0 <= k < |logs| ==> r[k] == logs[k].(channelIndex := c)
  {
    seq(|logs|, k requires 0 <= k < |logs| => logs[k].(channelIndex := c))
  }

  function Moved(logs: seq<Log>, c: int, i: int): seq<Log> {
    if c < i then logs else Renumbered(logs, c)
  }

  function RemovedLogs(logs: Buffers, i: int): Buffers {
    map c | c in Without(logs, i) :: Moved(Without(logs, i)[c], c, i)
  }

  function RemovedLocations(locations: map<string, int>, i: int): map<string, int> {
    map id | id in locations && locations[id] != i :: Down(locations[id], i)
  }

  function Removed(s: Store, i: int): Store {
    Store(RemovedLogs(s.logs, i), RemovedLocations(s.locations, i))
  }

  /** Position of the first log of the request, or the length. */
  function Find(logs: seq<Log>, id: string): (k: nat)
    ensures k <= |logs|
    ensures k < |logs| ==> logs[k].requestID == id
    ensures forall j :: 0 <= j < k ==> logs[j].requestID != id
  {
    if logs == [] || logs[0].requestID == id then 0
    else
      var k := Find(logs[1..], id);
      assert forall j :: 0 < j < 1 + k ==> logs[j] == logs[1..][j - 1];
      1 + k
  }

  function Updated(s: Store, id: string, change: Change): (r: (Store, UpdateStatus, int)) {
    if id == "" || id !in s.locations then (s, MissingDeleted, -1)
    else
      var c := s.locations[id];
      if c !in s.logs then (s.(locations := s.locations - {id}), MissingDeleted, -1)
      else
        var k := Find(s.logs[c], id);
        if k == |s.logs[c]| then (s, MissingEvicted, c)
        else
          var l := Changed(s.logs[c][k], change);
          (Store(s.logs[c := s.logs[c][k := l]], if Terminal(l.status) then s.locations - {id} else s.locations), Found, c)
  }

  /** CompleteLog: an evicted log is written again, in its final state. */
  function Finished(s: Store, id: string, change: Change): Store
    requires change.Finish?
  {
    var (s', found, c) := Updated(s, id, change);
    if found == MissingEvicted && c >= 0
    then Recorded(s', c, Changed(Log(id, c, Pending, 0, false, "", false), change))
    else s'
  }

  // ---------- The store ----------

  class ChannelLogStore {
    var logs: Buffers
    var requestLocations: map<string, int>

    ghost function State(): Store
      reads this
    {
      Store(logs, requestLocations)
    }

    constructor ()
      ensures State() == EMPTY
    {
      logs, requestLocations := map[], map[];
    }

    method Record(channelIndex: int, log: Log)
      modifies this
      ensures State() == Recorded(old(State()), channelIndex, log)
    {
      var stored := log;
      if log.requestID != "" {
        stored := log.(channelIndex := channelIndex);
        if !Terminal(log.status) {
          requestLocations := requestLocations[log.requestID := channelIndex];
        } else {
          requestLocations := requestLocations - {log.requestID};
        }
      }
      var channelLogs := if channelIndex in logs then logs[channelIndex] else [];
      channelLogs := channelLogs + [stored];
      if |channelLogs| > MAX_LOGS {
        channelLogs := channelLogs[|channelLogs| - MAX_LOGS..];
      }
      logs := logs[channelIndex := channelLogs];
    }

    method RemoveAndShift(channelIndex: int)
      modifies this
      ensures State() == Removed(old(State()), channelIndex)
    {
      hide RemovedLogs, RemovedLocations;
      RemovedFromNothing(State(), channelIndex);
      if |logs| == 0 && |requestLocations| == 0 {
        return;
      }
      ShiftLocations(channelIndex);
      if |logs| == 0 {
        return;
      }
      ShiftLogs(channelIndex);
    }

    method ShiftLocations(channelIndex: int)
      modifies this`requestLocations
      ensures requestLocations == RemovedLocations(old(requestLocations), channelIndex)
    {
      ghost var before := requestLocations;
      var todo := requestLocations.Keys;
      while todo != {}
        invariant todo <= before.Keys
        invariant forall id :: id in todo ==> id in requestLocations && requestLocations[id] == before[id]
        invariant forall id :: id in requestLocations ==> id in before
        invariant forall id :: id in before && id !in todo ==>
          (id in requestLocations <==> before[id] != channelIndex)
        invariant forall id :: id in requestLocations && id !in todo ==> requestLocations[id] == Down(before[id], channelIndex)
        decreases |todo|
      {
        var requestID :| requestID in todo;
        var idx := requestLocations[requestID];
        if idx == channelIndex {
          requestLocations := requestLocations - {requestID};
        } else if idx > channelIndex {
          requestLocations := requestLocations[requestID := idx - 1];
        }
        todo := todo - {requestID};
      }
    }

    method ShiftLogs(channelIndex: int)
      modifies this`logs
      ensures logs == RemovedLogs(old(logs), channelIndex)
    {
      var shifted: Buffers := map[];
      var todo := logs.Keys;
      while todo != {}
        invariant todo <= logs.Keys
        invariant logs == old(logs)
        invariant forall c :: c in shifted <==> Up(c, channelIndex) in logs && Up(c, channelIndex) !in todo
        invariant forall c :: c in shifted ==> shifted[c] == Moved(logs[Up(c, channelIndex)], c, channelIndex)
        decreases |todo|
      {
        ghost var some := Pick(todo);
        assert some in todo;
        var idx :| idx in todo;
        if idx > channelIndex {
          var channelLogs := Renumbered(logs[idx], idx - 1);
          shifted := shifted[idx - 1 := channelLogs];
        } else if idx < channelIndex {
          shifted := shifted[idx := logs[idx]];
        }
        todo := todo - {idx};
      }
      RemovedBuffers(logs, channelIndex);
      assert forall c :: c in shifted <==> c in RemovedLogs(logs, channelIndex);
      assert shifted == RemovedLogs(logs, channelIndex);
      logs := shifted;
    }

    method ClearAll()
      modifies this
      ensures State() == EMPTY
    {
      logs, requestLocations := map[], map[];
    }

    /** A copy of a channel's logs, newest first. */
    method Get(channelIndex: int) returns (result: seq<Log>)
      ensures |result| == |At(logs, channelIndex)|
      ensures forall i :: 0 <= i < |result| ==> result[i] == At(logs, channelIndex)[|result| - 1 - i]
    {
      var src := if channelIndex in logs then logs[channelIndex] else [];
      result := [];
      var j := |src|;
      while j > 0
        invariant 0 <= j <= |src| && |result| == |src| - j
        invariant forall i :: 0 <= i < |result| ==> result[i] == src[|src| - 1 - i]
      {
        j := j - 1;
        result := result + [src[j]];
      }
    }

    method Update(requestID: string, change: Change) returns (status: UpdateStatus, index: int)
      modifies this
      ensures (State(), status, index) == Updated(old(State()), requestID, change)
    {
      if requestID == "" || requestID !in requestLocations {
        return MissingDeleted, -1;
      }
      var actualIndex := requestLocations[requestID];
      if actualIndex !in logs {
        requestLocations := requestLocations - {requestID};
        return MissingDeleted, -1;
      }
      var channelLogs := logs[actualIndex];
      var i := 0;
      while i < |channelLogs| && channelLogs[i].requestID != requestID
        invariant 0 <= i <= |channelLogs|
        invariant forall j :: 0 <= j < i ==> channelLogs[j].requestID != requestID
      {
        i := i + 1;
      }
      if i == |channelLogs| {
        return MissingEvicted, actualIndex;
      }
      var l := Changed(channelLogs[i], change);
      logs := logs[actualIndex := channelLogs[i := l]];
      if Terminal(l.status) {
        requestLocations := requestLocations - {requestID};
      }
      return Found, actualIndex;
    }
  }

  method CompleteLog(store: ChannelLogStore, requestID: string, change: Change)
    requires change.Finish?
    modifies store
    ensures store.State() == if requestID == "" then old(store.State()) else Finished(old(store.State()), requestID, change)
  {
    hide Recorded, Updated;
    if requestID == "" {
      return;
    }
    var status, index := store.Update(requestID, change);
    if status == MissingEvicted && index >= 0 {
      store.Record(index, Log(requestID, index, change.status, change.statusCode, change.success, change.errorInfo, change.isRetry));
    }
  }

  lemma RemovedFromNothing(s: Store, i: int)
    ensures |s.logs| == 0 ==> RemovedLogs(s.logs, i) == s.logs
    ensures |s.locations| == 0 ==> RemovedLocations(s.locations, i) == s.locations
  {
    RemovedBuffers(s.logs, i);
  }

  lemma RemovedBuffers(logs: Buffers, i: int)
    ensures forall c :: c in RemovedLogs(logs, i) <==> Up(c, i) in logs
    ensures forall c :: c in RemovedLogs(logs, i) ==> RemovedLogs(logs, i)[c] == Moved(logs[Up(c, i)], c, i)
  {
    forall c
      ensures c in DownKeys(logs.Keys, i) <==> Up(c, i) in logs
    {
      DownKeysAreUp(logs.Keys, i, c);
    }
  }

  // ---------- A sequence of channels with one position deleted ----------

  /** The open requests of a channel. */
  function OpenAt(s: Store, c: int): set<string> {
    set id | id in s.locations && s.locations[id] == c
  }

  /** Removing channel i deletes position i, for the buffers and for the open requests alike. */
  lemma RemoveDeletesOnePosition(s: Store, i: int, c: int)
    ensures OpenAt(Removed(s, i), c) == OpenAt(s, Up(c, i))
    ensures At(Removed(s, i).logs, c) == Moved(At(s.logs, Up(c, i)), c, i)
  {
    BufferMoves(s.logs, i, c);
  }

  lemma BufferMoves(logs: Buffers, i: int, c: int)
    ensures At(RemovedLogs(logs, i), c) == Moved(At(logs, Up(c, i)), c, i)
  {
    hide RemovedLogs;
    RemovedBuffers(logs, i);
    assert Moved([], c, i) == [];
  }
}
