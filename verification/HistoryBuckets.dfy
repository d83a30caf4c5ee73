// Bucketed request history for charts: all keys' records counted per interval.
module HistoryBuckets {
  import opened Common
  import opened RequestLedger

  datatype Counts = Counts(requests: nat, successes: nat, failures: nat)

  const ZERO := Counts(0, 0, 0)

  datatype DataPoint = DataPoint(timestamp: int, counts: Counts, successRate: real)

  function Plus(a: Counts, b: Counts): Counts {
    Counts(a.requests + b.requests, a.successes + b.successes, a.failures + b.failures)
  }

  function Bumped(c: Counts, success: bool): Counts {
    if success then Counts(c.requests + 1, c.successes + 1, c.failures)
    else Counts(c.requests + 1, c.successes, c.failures + 1)
  }

  // ---------- The window ----------

  /** Rounds down to a multiple of the interval. */
  function Truncate(t: int, interval: int): int
    requires interval > 0
  {
    t / interval * interval
  }

  function Start(now: int, duration: int, interval: int): int
    requires interval > 0
  {
    Truncate(now - duration, interval)
  }

  function End(now: int, interval: int): int
    requires interval > 0
  {
    Truncate(now, interval) + interval
  }

  function NumPoints(duration: int, interval: int): nat
    requires duration > 0 && interval > 0
  {
    (if duration / interval <= 0 then 1 else duration / interval) + 1
  }

  // ---------- What a bucket holds ----------

  /** The records in [from, to), counted. */
  function Tally(records: seq<Record>, from: int, to: int): Counts {
    if records == [] then ZERO
    else
      var r := records[|records| - 1];
      var rest := Tally(records[..|records| - 1], from, to);
      if from <= r.timestamp < to then Bumped(rest, r.success) else rest
  }

  /** Bucket i: the i-th interval from the start, as far as the window goes. */
  function Slot(records: seq<Record>, start: int, end: int, interval: int, i: nat): Counts {
    Tally(records, start + i * interval, Min(start + (i + 1) * interval, end))
  }

  function Flat(histories: seq<seq<Record>>): seq<Record> {
    if histories == [] then [] else Flat(histories[..|histories| - 1]) + histories[|histories| - 1]
  }

  function Total(points: seq<DataPoint>): Counts {
    if points == [] then ZERO else Plus(Total(points[..|points| - 1]), points[|points| - 1].counts)
  }

  // ---------- The bucket loop ----------

  /** Bucket i once a record is placed. */
  function Placed(c: Counts, r: Record, start: int, end: int, interval: int, i: nat): Counts {
    if start + i * interval <= r.timestamp < Min(start + (i + 1) * interval, end) then Bumped(c, r.success) else c
  }

  /** Adds one record to its bucket, if it has one. */
  method Place(buckets: map<int, Counts>, record: Record, start: int, end: int, interval: int, numPoints: nat)
      returns (next: map<int, Counts>)
    requires interval > 0 && forall i :: i in buckets <==> 0 <= i < numPoints
    ensures next.Keys == buckets.Keys
    ensures forall i: nat :: i < numPoints ==> next[i] == Placed(buckets[i], record, start, end, interval, i)
  {
    next := buckets;
    if !(record.timestamp < start) && record.timestamp < end {
      var offset := (record.timestamp - start) / interval;
      forall i | 0 <= i < numPoints
        ensures i == offset <==> start + i * interval <= record.timestamp < start + (i + 1) * interval
      {
        QuotientIs(record.timestamp - start, interval, i);
      }
      if offset >= 0 && offset < numPoints {
        next := next[offset := Bumped(next[offset], record.success)];
      }
    } else {
      forall i | 0 <= i < numPoints
        ensures start + i * interval >= start
      {
        assert i * interval >= 0;
      }
    }
  }

  /** k is the quotient exactly when it fits. */
  lemma QuotientIs(x: int, d: int, k: int)
    requires d > 0
    ensures x / d == k <==> k * d <= x < (k + 1) * d
  {
    var q := x / d;
    assert q * d <= x < q * d + d;
    if k < q {
      assert (k + 1) * d <= q * d;
    } else if k > q {
      assert (q + 1) * d <= k * d;
    }
  }

  method GetAllKeysHistoricalStats(histories: seq<seq<Record>>, now: int, duration: int, interval: int)
      returns (points: seq<DataPoint>)
    ensures interval <= 0 || duration <= 0 ==> points == []
    ensures interval > 0 && duration > 0 ==>
      && |points| == NumPoints(duration, interval)
      && forall i :: 0 <= i < |points| ==>
        && points[i].timestamp == Start(now, duration, interval) + i * interval
        && points[i].counts == Slot(Flat(histories), Start(now, duration, interval), End(now, interval), interval, i)
        && points[i].successRate == Rate(points[i].counts)
  {
    hide Slot, Tally, Bumped, Min;
    if interval <= 0 || duration <= 0 {
      return [];
    }
    var startTime := Truncate(now - duration, interval);
    var endTime := Truncate(now, interval) + interval;
    var numPoints := duration / interval;
    if numPoints <= 0 {
      numPoints := 1;
    }
    numPoints := numPoints + 1;

    var buckets := EmptyBuckets(numPoints);
    ghost var seen := [];
    EmptySlots(startTime, endTime, interval);
    for h := 0 to |histories|
      invariant seen == Flat(histories[..h])
      invariant Filled(buckets, seen, startTime, endTime, interval, numPoints)
    {
      buckets := PlaceAll(buckets, seen, histories[h], startTime, endTime, interval, numPoints);
      seen := seen + histories[h];
      assert histories[..h + 1][..h] == histories[..h];
    }
    assert histories[..|histories|] == histories;

    points := [];
    for i := 0 to numPoints
      invariant |points| == i
      invariant forall j :: 0 <= j < i ==> points[j].timestamp == startTime + j * interval
      invariant forall j :: 0 <= j < i ==> points[j].counts == buckets[j] && points[j].successRate == Rate(buckets[j])
    {
      var b := buckets[i];
      var successRate := 0.0;
      if b.requests > 0 {
        successRate := b.successes as real / b.requests as real * 100.0;
      }
      points := points + [DataPoint(startTime + i * interval, b, successRate)];
    }
  }

  /** Every bucket counts the seen records of its interval. */
  ghost predicate Filled(buckets: map<int, Counts>, seen: seq<Record>, start: int, end: int, interval: int, numPoints: nat) {
    && (forall i :: i in buckets <==> 0 <= i < numPoints)
    && forall i: nat :: i < numPoints ==> buckets[i] == Slot(seen, start, end, interval, i)
  }

  function Rate(c: Counts): real {
    if c.requests > 0 then c.successes as real / c.requests as real * 100.0 else 0.0
  }

  method EmptyBuckets(numPoints: nat) returns (buckets: map<int, Counts>)
    ensures forall i :: i in buckets <==> 0 <= i < numPoints
    ensures forall i :: 0 <= i < numPoints ==> buckets[i] == ZERO
  {
    buckets := map[];
    for i := 0 to numPoints
      invariant forall j :: j in buckets <==> 0 <= j < i
      invariant forall j :: 0 <= j < i ==> buckets[j] == ZERO
    {
      buckets := buckets[i := ZERO];
    }
  }

  method PlaceAll(buckets: map<int, Counts>, ghost seen: seq<Record>, history: seq<Record>,
                  start: int, end: int, interval: int, numPoints: nat)
      returns (next: map<int, Counts>)
    requires interval > 0 && Filled(buckets, seen, start, end, interval, numPoints)
    ensures Filled(next, seen + history, start, end, interval, numPoints)
  {
    hide Tally, Slot, Placed;
    next := buckets;
    assert seen + [] == seen;
    for j := 0 to |history|
      invariant Filled(next, seen + history[..j], start, end, interval, numPoints)
    {
      SlotSnoc(seen + history[..j], history[j], start, end, interval);
      next := Place(next, history[j], start, end, interval, numPoints);
      assert seen + history[..j + 1] == seen + history[..j] + [history[j]];
    }
    assert history[..|history|] == history;
  }

  lemma EmptySlots(start: int, end: int, interval: int)
    ensures forall i: nat :: Slot([], start, end, interval, i) == ZERO
  {
  }

  lemma SlotSnoc(records: seq<Record>, r: Record, start: int, end: int, interval: int)
    ensures forall i: nat ::
      Slot(records + [r], start, end, interval, i) == Placed(Slot(records, start, end, interval, i), r, start, end, interval, i)
  {
    assert (records + [r])[..|records|] == records;
  }

  // ---------- What the counts mean ----------

  /** The positions of the records in [from, to) with the given outcome. */
  ghost function Positions(records: seq<Record>, from: int, to: int, success: bool): set<int> {
    set i | 0 <= i < |records| && from <= records[i].timestamp < to && records[i].success == success
  }

  lemma PositionsLast(records: seq<Record>, from: int, to: int, success: bool)
    requires records != []
    ensures var n := |records| - 1;
      var rest := Positions(records[..n], from, to, success);
      && n !in rest
      && Positions(records, from, to, success) ==
           if from <= records[n].timestamp < to && records[n].success == success then rest + {n} else rest
  {
  }

  /** A count is the number of records of the interval, by outcome. */
  lemma {:induction false} TallyMeans(records: seq<Record>, from: int, to: int)
    ensures var c := Tally(records, from, to);
      && c.successes == |Positions(records, from, to, true)|
      && c.failures == |Positions(records, from, to, false)|
      && c.requests == c.successes + c.failures
  {
    if records != [] {
      hide Positions;
      TallyMeans(records[..|records| - 1], from, to);
      PositionsLast(records, from, to, true);
      PositionsLast(records, from, to, false);
    }
  }

  /** The rate is the percentage of successes, and 0 without requests. */
  lemma RateMeans(records: seq<Record>, from: int, to: int)
    ensures var c := Tally(records, from, to);
      && Rate(c) * c.requests as real == 100.0 * c.successes as real
      && 0.0 <= Rate(c) <= 100.0
      && (c.requests == 0 ==> Rate(c) == 0.0)
  {
    hide Tally, Positions;
    var c := Tally(records, from, to);
    TallyMeans(records, from, to);
    if c.requests > 0 {
      PercentMeans(c.successes as real, c.requests as real);
    }
  }

  lemma PercentMeans(a: real, b: real)
    requires 0.0 <= a <= b && b > 0.0
    ensures a / b * 100.0 * b == 100.0 * a
    ensures 0.0 <= a / b * 100.0 <= 100.0
  {
    var share := a / b;
    assert share * b == a;
    assert share * 100.0 * b == share * b * 100.0;
    assert (share - 1.0) * b <= 0.0;
    NotPositive(share - 1.0, b);
    NotPositive(-share, b);
  }

  lemma NotPositive(x: real, b: real)
    requires b > 0.0 && x * b <= 0.0
    ensures x <= 0.0
  {
  }

  /** The window starts with the interval of a duration ago and ends with the interval of now. */
  lemma WindowMeans(now: int, duration: int, interval: int) returns (first: int, last: int)
    requires interval > 0
    ensures Start(now, duration, interval) == first * interval <= now - duration < (first + 1) * interval
    ensures last * interval <= now < (last + 1) * interval == End(now, interval)
  {
    first, last := (now - duration) / interval, now / interval;
    QuotientIs(now - duration, interval, first);
    QuotientIs(now, interval, last);
    assert (last + 1) * interval == last * interval + interval;
  }

  /** The counts of all histories, added up. */
  function TallySum(histories: seq<seq<Record>>, from: int, to: int): Counts {
    if histories == [] then ZERO else Plus(Tally(histories[0], from, to), TallySum(histories[1..], from, to))
  }

  lemma {:induction false} TallyAppend(a: seq<Record>, b: seq<Record>, from: int, to: int)
    ensures Tally(a + b, from, to) == Plus(Tally(a, from, to), Tally(b, from, to))
  {
    hide Plus, Bumped;
    if b == [] {
      assert a + b == a;
      PlusZero(Tally(a, from, to));
    } else {
      var init := b[..|b| - 1];
      assert (a + b)[..|a + b| - 1] == a + init;
      TallyAppend(a, init, from, to);
      BumpedPlus(Tally(a, from, to), Tally(init, from, to), b[|b| - 1].success);
    }
  }

  lemma PlusZero(c: Counts)
    ensures Plus(c, ZERO) == c == Plus(ZERO, c)
  {
  }

  lemma PlusAssociates(a: Counts, b: Counts, c: Counts)
    ensures Plus(Plus(a, b), c) == Plus(a, Plus(b, c))
  {
  }

  lemma {:induction false} TallySumLast(histories: seq<seq<Record>>, last: seq<Record>, from: int, to: int)
    ensures TallySum(histories + [last], from, to) == Plus(TallySum(histories, from, to), Tally(last, from, to))
  {
    hide Tally, Plus;
    var all := histories + [last];
    PlusZero(Tally(last, from, to));
    if histories == [] {
      assert all == [last] && all[1..] == [];
    } else {
      assert all[1..] == histories[1..] + [last];
      TallySumLast(histories[1..], last, from, to);
      PlusAssociates(Tally(histories[0], from, to), TallySum(histories[1..], from, to), Tally(last, from, to));
    }
  }

  /** The chart counts the records of every key, each of them once. */
  lemma {:induction false} EveryKeyCounts(histories: seq<seq<Record>>, from: int, to: int)
    ensures Tally(Flat(histories), from, to) == TallySum(histories, from, to)
  {
    hide Plus;
    if histories != [] {
      hide Tally;
      var init, last := histories[..|histories| - 1], histories[|histories| - 1];
      EveryKeyCounts(init, from, to);
      TallyAppend(Flat(init), last, from, to);
      TallySumLast(init, last, from, to);
      assert histories == init + [last];
    }
  }

  /** One point more than whole intervals fit into the duration, and never fewer than two. */
  lemma PointsMean(duration: int, interval: int)
    requires duration > 0 && interval > 0
    ensures var n := NumPoints(duration, interval);
      n >= 2 && duration < n * interval && (n == 2 || (n - 1) * interval <= duration)
  {
    var q := duration / interval;
    QuotientIs(duration, interval, q);
    if q <= 0 {
      assert q < 0 ==> (q + 1) * interval <= 0;
      assert 2 * interval > interval;
    }
  }

  // ---------- Conservation ----------

  lemma {:induction false} TallySplits(records: seq<Record>, from: int, mid: int, to: int)
    requires from <= mid <= to
    ensures Tally(records, from, to) == Plus(Tally(records, from, mid), Tally(records, mid, to))
  {
    if records != [] {
      hide Plus, Bumped;
      var rest, r := records[..|records| - 1], records[|records| - 1];
      TallySplits(rest, from, mid, to);
      BumpedPlus(Tally(rest, from, mid), Tally(rest, mid, to), r.success);
    } else {
      assert Tally(records, from, to) == Tally(records, from, mid) == Tally(records, mid, to) == ZERO;
    }
  }

  lemma BumpedPlus(a: Counts, b: Counts, success: bool)
    ensures Bumped(Plus(a, b), success) == Plus(Bumped(a, success), b) == Plus(a, Bumped(b, success))
  {
  }

  lemma {:induction false} NothingBetween(records: seq<Record>, from: int, to: int)
    requires to <= from
    ensures Tally(records, from, to) == ZERO
  {
    if records != [] {
      NothingBetween(records[..|records| - 1], from, to);
    }
  }

  /** n consecutive buckets together count one stretch of time. */
  lemma {:induction false} BucketsTile(points: seq<DataPoint>, records: seq<Record>, start: int, end: int, interval: int)
    requires interval > 0 && start <= end
    requires forall i :: 0 <= i < |points| ==> points[i].counts == Slot(records, start, end, interval, i)
    ensures Total(points) == Tally(records, start, Min(start + |points| * interval, end))
  {
    hide Tally;
    if points == [] {
      NothingBetween(records, start, start);
      assert start + |points| * interval == start;
    } else {
      var n := |points| - 1;
      BucketsTile(points[..n], records, start, end, interval);
      assert n * interval >= 0;
      assert (n + 1) * interval == n * interval + interval;
      if start + n * interval <= end {
        TallySplits(records, start, start + n * interval, Min(start + (n + 1) * interval, end));
      } else {
        NothingBetween(records, start + n * interval, end);
      }
    }
  }

  /** The window needs one bucket more than there are. */
  predicate Overruns(now: int, duration: int, interval: int)
    requires duration > 0 && interval > 0
  {
    duration >= interval && now % interval < duration % interval
  }

  /** The start of the window, counted in whole intervals back from the current one. */
  lemma StartIs(now: int, duration: int, interval: int, back: int)
    requires duration > 0 && interval > 0
    requires back == now / interval - duration / interval - if now % interval < duration % interval then 1 else 0
    ensures Start(now, duration, interval) == back * interval
  {
    var q, r := now / interval, now % interval;
    var a, b := duration / interval, duration % interval;
    assert now == q * interval + r && duration == a * interval + b;
    var less := if r < b then 1 else 0;
    assert (q - a - less) * interval == q * interval - a * interval - less * interval;
    assert (back + 1) * interval == back * interval + interval;
    QuotientIs(now - duration, interval, back);
  }

  lemma Ordered(x: int, y: int, d: int)
    requires d > 0 && x <= y
    ensures x * d <= y * d
  {
  }

  /** The buckets reach the end of the window, or stop exactly one interval short. */
  lemma Reach(now: int, duration: int, interval: int)
    requires duration > 0 && interval > 0
    ensures Start(now, duration, interval) <= End(now, interval)
    ensures var reached := Start(now, duration, interval) + NumPoints(duration, interval) * interval;
      if Overruns(now, duration, interval) then reached == End(now, interval) - interval else reached >= End(now, interval)
  {
    var q, a := now / interval, duration / interval;
    var back := q - a - if now % interval < duration % interval then 1 else 0;
    StartIs(now, duration, interval, back);
    assert a >= 0 && (a >= 1 <==> duration >= interval) by { WholeIntervals(duration, interval); }
    hide Start;
    var n := NumPoints(duration, interval);
    assert (back + n) * interval == back * interval + n * interval;
    assert (q + 1) * interval == q * interval + interval == End(now, interval);
    assert back + n == q || back + n >= q + 1;
    Ordered(back, q + 1, interval);
    if back + n >= q + 1 {
      Ordered(q + 1, back + n, interval);
    }
  }

  lemma WholeIntervals(duration: int, interval: int)
    requires duration > 0 && interval > 0
    ensures duration / interval >= 0 && (duration / interval >= 1 <==> duration >= interval)
  {
    var a := duration / interval;
    assert duration == a * interval + duration % interval;
    if a < 0 {
      Ordered(a, -1, interval);
    } else if a >= 1 {
      Ordered(1, a, interval);
    }
  }

  /**
   * The chart's totals against the records in [start, end): they agree unless
   * the duration is at least an interval and the remainder of now is below the
   * remainder of the duration. Then exactly the records of the current
   * interval are missing.
   */
  lemma DroppedIsTheCurrentInterval(points: seq<DataPoint>, records: seq<Record>, now: int, duration: int, interval: int)
    requires duration > 0 && interval > 0 && |points| == NumPoints(duration, interval)
    requires forall i :: 0 <= i < |points| ==>
      points[i].counts == Slot(records, Start(now, duration, interval), End(now, interval), interval, i)
    ensures var start, end := Start(now, duration, interval), End(now, interval);
      Tally(records, start, end) ==
        if Overruns(now, duration, interval) then Plus(Total(points), Tally(records, end - interval, end)) else Total(points)
  {
    hide Tally, Slot, Start, End, NumPoints, Total, Overruns;
    var start, end := Start(now, duration, interval), End(now, interval);
    Reach(now, duration, interval);
    BucketsTile(points, records, start, end, interval);
    if Overruns(now, duration, interval) {
      assert |points| * interval >= 0;
      TallySplits(records, start, end - interval, end);
    }
  }

  /** An interval that divides the duration, or exceeds it, loses nothing. */
  lemma DividingIntervalLosesNothing(points: seq<DataPoint>, records: seq<Record>, now: int, duration: int, interval: int)
    requires duration > 0 && interval > 0 && |points| == NumPoints(duration, interval)
    requires duration % interval == 0 || interval > duration
    requires forall i :: 0 <= i < |points| ==>
      points[i].counts == Slot(records, Start(now, duration, interval), End(now, interval), interval, i)
    ensures Total(points) == Tally(records, Start(now, duration, interval), End(now, interval))
  {
    hide Tally, Slot, Start, End, NumPoints, Total;
    DroppedIsTheCurrentInterval(points, records, now, duration, interval);
  }

  /** Ninety seconds in one-minute buckets, in the first half of a minute: its own records are in no bucket. */
  lemma LateRecordIsDropped(points: seq<DataPoint>, r: Record, now: int)
    requires now % 60 < 30 && now - now % 60 <= r.timestamp <= now
    requires |points| == NumPoints(90, 60)
    requires forall i :: 0 <= i < |points| ==>
      points[i].counts == Slot([r], Start(now, 90, 60), End(now, 60), 60, i)
    ensures Start(now, 90, 60) <= r.timestamp < End(now, 60) && Total(points) == ZERO
  {
    hide Slot, NumPoints, Total;
    DroppedIsTheCurrentInterval(points, [r], now, 90, 60);
    assert [r][..0] == [];
    assert now / 60 * 60 == now - now % 60;
  }
}
