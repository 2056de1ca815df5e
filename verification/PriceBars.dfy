/**
 Price points, minute buckets and the two views of one history ring: the sorted sequence the
 cache stores and the map from timestamp to point it stands for.

 Timestamps are whole microseconds since the Unix epoch.
 */
module PriceBars {
  import opened Basics
  import opened SymbolGraph

  const MINUTE := 60_000_000
  const FIVE_MINUTES := 300_000_000
  const HOUR := 3_600_000_000
  const DAY := 86_400_000_000

  type Price = p: real | p > 0.0 witness 1.0

  datatype Interval = OneMinute | FiveMinutes | OneDay | Unsupported(name: string)

  datatype PricePoint = PricePoint(
    symbol: Symbol, timestamp: int, price: Price, provider: string, isDerived: bool, interval: Interval)

  /** The start of the one- or five-minute bucket that holds `timestamp`; daily points keep theirs. */
  function Bucket(timestamp: int, interval: Interval): (start: int)
    ensures interval.OneMinute? ==> start <= timestamp < start + MINUTE && start % MINUTE == 0
    ensures interval.FiveMinutes? ==> start <= timestamp < start + FIVE_MINUTES && start % FIVE_MINUTES == 0
    ensures interval.OneDay? ==> start == timestamp
  {
    match interval
    case OneMinute => timestamp - timestamp % MINUTE
    case FiveMinutes => timestamp - timestamp % FIVE_MINUTES
    case _ => timestamp
  }

  lemma FiveMinutesAreWholeMinutes(timestamp: int)
    requires timestamp % FIVE_MINUTES == 0
    ensures timestamp % MINUTE == 0
  {
    assert timestamp == (timestamp / FIVE_MINUTES) * 5 * MINUTE;
  }

  function MinuteOf(timestamp: int): int {
    Bucket(timestamp, OneMinute)
  }

  /** One ring as a finite map; the dictionary comprehension keeps the last of equal timestamps. */
  type Bars = map<int, PricePoint>

  function ByTime(points: seq<PricePoint>): Bars {
    if points == [] then map[]
    else
      var last := points[|points| - 1];
      ByTime(points[..|points| - 1])[last.timestamp := last]
  }

  ghost predicate KeyedByTime(bars: Bars) {
    forall t :: t in bars ==> bars[t].timestamp == t
  }

  ghost predicate Increasing(points: seq<PricePoint>) {
    forall i, j :: 0 <= i < j < |points| ==> points[i].timestamp < points[j].timestamp
  }

  ghost predicate AllWhole(bars: Bars, unit: int)
    requires unit > 0
  {
    forall t :: t in bars ==> t % unit == 0
  }

  lemma {:induction false} ByTimeContents(points: seq<PricePoint>)
    ensures KeyedByTime(ByTime(points))
    ensures forall t :: t in ByTime(points) ==> ByTime(points)[t] in points
    ensures forall p :: p in points ==> p.timestamp in ByTime(points)
  {
    if points != [] {
      var front := points[..|points| - 1];
      ByTimeContents(front);
      assert points == front + [points[|points| - 1]];
    }
  }

  lemma ByTimeSnoc(points: seq<PricePoint>, p: PricePoint)
    ensures ByTime(points + [p]) == ByTime(points)[p.timestamp := p]
  {
    assert (points + [p])[..|points|] == points;
  }

  lemma {:induction false} ByTimeConcat(a: seq<PricePoint>, b: seq<PricePoint>)
    ensures ByTime(a + b) == ByTime(a) + ByTime(b)
    decreases |b|
  {
    if b == [] {
      assert a + b == a;
    } else {
      ByTimeConcat(a, b[..|b| - 1]);
      assert (a + b)[..|a + b| - 1] == a + b[..|b| - 1];
    }
  }

  lemma {:induction false} ByTimeOfIncreasing(points: seq<PricePoint>)
    requires Increasing(points)
    ensures forall i :: 0 <= i < |points| ==>
      points[i].timestamp in ByTime(points) && ByTime(points)[points[i].timestamp] == points[i]
  {
    if points != [] {
      ByTimeOfIncreasing(points[..|points| - 1]);
    }
  }

  // ----- greatest keys

  ghost predicate IsGreatest(keys: set<int>, greatest: int) {
    greatest in keys && forall k :: k in keys ==> k <= greatest
  }

  lemma {:induction false} HasGreatest(keys: set<int>)
    requires keys != {}
    ensures exists greatest :: IsGreatest(keys, greatest)
  {
    assert (forall k :: k !in keys) ==> keys == {};
    var k :| k in keys;
    var rest := keys - {k};
    assert forall i :: i in keys ==> i == k || i in rest;
    if rest == {} {
      assert IsGreatest(keys, k);
    } else {
      HasGreatest(rest);
      var other :| IsGreatest(rest, other);
      assert IsGreatest(keys, if other < k then k else other);
    }
  }

  function Greatest(keys: set<int>): (greatest: int)
    requires keys != {}
    ensures greatest in keys && forall k :: k in keys ==> k <= greatest
  {
    HasGreatest(keys);
    assert exists greatest :: greatest in keys && forall k :: k in keys ==> k <= greatest by {
      var g :| IsGreatest(keys, g);
      assert g in keys;
    }
    var greatest :| greatest in keys && forall k :: k in keys ==> k <= greatest;
    greatest
  }

  // ----- sorted(values)

  /** The points of a dictionary in the order of its sorted keys. */
  function Sorted(bars: Bars): (points: seq<PricePoint>)
    decreases |bars|
  {
    if bars == map[] then []
    else
      var latest := Greatest(bars.Keys);
      var rest := bars - {latest};
      assert rest.Keys == bars.Keys - {latest};
      Sorted(rest) + [bars[latest]]
  }

  lemma AppendIncreasing(points: seq<PricePoint>, p: PricePoint)
    requires Increasing(points) && forall q :: q in points ==> q.timestamp < p.timestamp
    ensures Increasing(points + [p])
  {
    forall i, j | 0 <= i < j < |points + [p]|
      ensures (points + [p])[i].timestamp < (points + [p])[j].timestamp
    {
      assert (points + [p])[i] in points;
    }
  }

  lemma WithoutGreatest(bars: Bars, latest: int, rest: Bars)
    requires bars != map[] && bars.Keys != {} && latest == Greatest(bars.Keys) && rest == bars - {latest}
    ensures |rest| < |bars|
    ensures forall t :: t in rest ==> t < latest
    ensures bars == rest[latest := bars[latest]]
  {
    assert rest.Keys == bars.Keys - {latest};
  }

  lemma {:induction false} SortedIsTheRing(bars: Bars)
    requires KeyedByTime(bars)
    ensures Increasing(Sorted(bars)) && ByTime(Sorted(bars)) == bars
    decreases |bars|
  {
    if bars != map[] {
      var latest := Greatest(bars.Keys);
      var rest := bars - {latest};
      WithoutGreatest(bars, latest, rest);
      SortedIsTheRing(rest);
      var front := Sorted(rest);
      ByTimeContents(front);
      AppendIncreasing(front, bars[latest]);
      ByTimeSnoc(front, bars[latest]);
    }
  }

  lemma LastOfIncreasing(points: seq<PricePoint>)
    requires points != [] && Increasing(points)
    ensures var front, last := points[..|points| - 1], points[|points| - 1];
            && Increasing(front) && last.timestamp !in ByTime(front)
            && ByTime(points).Keys != {} && Greatest(ByTime(points).Keys) == last.timestamp
            && ByTime(points) - {last.timestamp} == ByTime(front)
  {
    var front, last := points[..|points| - 1], points[|points| - 1];
    ByTimeContents(front);
    forall t | t in ByTime(front) ensures t < last.timestamp {
      assert ByTime(front)[t] in front;
    }
    assert last.timestamp in ByTime(points);
  }

  /** Reading the dictionary of a ring in sorted order gives the ring back. */
  lemma {:induction false} RingIsSorted(points: seq<PricePoint>)
    requires Increasing(points)
    ensures Sorted(ByTime(points)) == points
  {
    if points != [] {
      LastOfIncreasing(points);
      RingIsSorted(points[..|points| - 1]);
      assert points == points[..|points| - 1] + [points[|points| - 1]];
    }
  }

  // ----- prefixes and the latest point

  /** The bars at or before `cutoff`. */
  function Upto(bars: Bars, cutoff: int): Bars {
    map t | t in bars && t <= cutoff :: bars[t]
  }

  /** The bars at or after `cutoff`. */
  function Since(bars: Bars, cutoff: int): Bars {
    map t | t in bars && t >= cutoff :: bars[t]
  }

  function Last(bars: Bars): (last: Option<PricePoint>)
    ensures last.None? <==> bars == map[]
    ensures last.Some? ==> exists t :: t in bars && last.value == bars[t] && forall u :: u in bars ==> u <= t
  {
    if bars == map[] then None
    else
      assert bars.Keys != {};
      Some(bars[Greatest(bars.Keys)])
  }

  /** The last observation at or before `cutoff`. */
  function Latest(bars: Bars, cutoff: int): Option<PricePoint> {
    Last(Upto(bars, cutoff))
  }

  lemma LatestIs(bars: Bars, cutoff: int, t: int)
    requires t in bars && t <= cutoff
    requires forall u :: u in bars && u <= cutoff ==> u <= t
    ensures Latest(bars, cutoff) == Some(bars[t])
  {
    assert t in Upto(bars, cutoff);
  }

  lemma LatestIsNone(bars: Bars, cutoff: int)
    ensures Latest(bars, cutoff).None? <==> forall t :: t in bars ==> t > cutoff
  {
    if t :| t in bars && t <= cutoff {
      assert t in Upto(bars, cutoff);
    }
  }

  /** The instant at which the latest point is found. */
  lemma LatestWitness(bars: Bars, cutoff: int) returns (t: int)
    requires Latest(bars, cutoff).Some?
    ensures t in bars && t <= cutoff && Latest(bars, cutoff) == Some(bars[t])
    ensures forall u :: u in bars && u <= cutoff ==> u <= t
  {
    t := Greatest(Upto(bars, cutoff).Keys);
    forall u | u in bars && u <= cutoff ensures u <= t {
      assert u in Upto(bars, cutoff);
    }
  }

  /** At `k` stands the last of the points at or before `cutoff`; of equal timestamps it is the last one given. */
  ghost predicate IsLastAt(points: seq<PricePoint>, k: int, cutoff: int) {
    && 0 <= k < |points| && points[k].timestamp <= cutoff
    && forall j :: 0 <= j < |points| && points[j].timestamp <= cutoff ==>
         points[j].timestamp < points[k].timestamp || (points[j].timestamp == points[k].timestamp && j <= k)
  }

  /** What a lookup in a sequence is to find. */
  ghost predicate IsLatestOf(points: seq<PricePoint>, cutoff: int, latest: Option<PricePoint>) {
    match latest
    case None => forall k :: 0 <= k < |points| ==> points[k].timestamp > cutoff
    case Some(p) => exists k :: IsLastAt(points, k, cutoff) && points[k] == p
  }

  lemma LatestIsLatestOf(points: seq<PricePoint>, cutoff: int)
    ensures IsLatestOf(points, cutoff, Latest(ByTime(points), cutoff))
  {
    hide Latest, ByTime;
    LatestOfPoints(points, cutoff);
  }

  lemma LastAtSnoc(front: seq<PricePoint>, last: PricePoint, k: int, cutoff: int)
    ensures IsLastAt(front + [last], k, cutoff) <==>
      if k == |front|
      then last.timestamp <= cutoff
           && forall j :: 0 <= j < k && front[j].timestamp <= cutoff ==> front[j].timestamp <= last.timestamp
      else IsLastAt(front, k, cutoff) && !(front[k].timestamp <= last.timestamp <= cutoff)
  {
    var points := front + [last];
    assert forall j :: 0 <= j < |front| ==> points[j] == front[j];
    assert points[|front|] == last;
  }

  /** What a lookup in the dictionary of a sequence finds, read off the sequence itself. */
  lemma {:induction false} LatestOfPoints(points: seq<PricePoint>, cutoff: int)
    ensures Latest(ByTime(points), cutoff) == None <==>
      forall k :: 0 <= k < |points| ==> points[k].timestamp > cutoff
    ensures forall k :: IsLastAt(points, k, cutoff) ==> Latest(ByTime(points), cutoff) == Some(points[k])
    ensures Latest(ByTime(points), cutoff).Some? ==> exists k :: IsLastAt(points, k, cutoff)
  {
    if points == [] {
      assert Upto(map[], cutoff) == map[];
    } else {
      var n := |points| - 1;
      var front, last := points[..n], points[n];
      assert points == front + [last];
      LatestOfPoints(front, cutoff);
      ByTimeContents(front);
      LatestAfter(ByTime(front), last, cutoff);
      LatestOfSnoc(front, last, cutoff, Latest(ByTime(front), cutoff), Latest(ByTime(points), cutoff));
    }
  }

  lemma LatestOfSnoc(front: seq<PricePoint>, last: PricePoint, cutoff: int, before: Option<PricePoint>,
                     after: Option<PricePoint>)
    requires before == None <==> forall k :: 0 <= k < |front| ==> front[k].timestamp > cutoff
    requires forall k :: IsLastAt(front, k, cutoff) ==> before == Some(front[k])
    requires before.Some? ==> exists k :: IsLastAt(front, k, cutoff)
    requires after == if last.timestamp <= cutoff && (before.None? || before.value.timestamp <= last.timestamp)
                      then Some(last) else before
    ensures var points := front + [last];
            && (after == None <==> forall k :: 0 <= k < |points| ==> points[k].timestamp > cutoff)
            && (forall k :: IsLastAt(points, k, cutoff) ==> after == Some(points[k]))
            && (after.Some? ==> exists k :: IsLastAt(points, k, cutoff))
  {
    var points := front + [last];
    forall k | IsLastAt(points, k, cutoff) ensures after == Some(points[k]) {
      LastAtSnoc(front, last, k, cutoff);
      if k == |front| && before.Some? {
        var j :| IsLastAt(front, j, cutoff);
      }
    }
    if before.Some? {
      var j :| IsLastAt(front, j, cutoff);
      LastAtSnoc(front, last, j, cutoff);
      LastAtSnoc(front, last, |front|, cutoff);
      assert points[j] == front[j];
    } else {
      LastAtSnoc(front, last, |front|, cutoff);
    }
    assert points[|front|] == last;
    assert forall k :: 0 <= k < |front| ==> points[k] == front[k];
  }

  /** One more bar decides a lookup exactly when it is early enough and nothing eligible is later. */
  lemma LatestAfter(bars: Bars, p: PricePoint, cutoff: int)
    requires KeyedByTime(bars)
    ensures Latest(bars[p.timestamp := p], cutoff) ==
      if p.timestamp <= cutoff && (Latest(bars, cutoff).None? || Latest(bars, cutoff).value.timestamp <= p.timestamp)
      then Some(p) else Latest(bars, cutoff)
  {
    hide Latest;
    LatestIsNone(bars, cutoff);
    LatestIsNone(bars[p.timestamp := p], cutoff);
    if Latest(bars, cutoff).Some? {
      var t := LatestWitness(bars, cutoff);
      LatestIs(bars[p.timestamp := p], cutoff, if p.timestamp <= cutoff && t <= p.timestamp then p.timestamp else t);
    } else if p.timestamp <= cutoff {
      LatestIs(bars[p.timestamp := p], cutoff, p.timestamp);
    }
  }

  /** Whole-minute bars look the same from every instant of one minute. */
  lemma UptoWithinMinute(bars: Bars, a: int, b: int)
    requires AllWhole(bars, MINUTE) && MinuteOf(a) == MinuteOf(b)
    ensures Upto(bars, a) == Upto(bars, b)
  {
  }

  // ----- sorted(points, key=timestamp), which is stable

  function InsertByTime(points: seq<PricePoint>, p: PricePoint): seq<PricePoint> {
    if points != [] && points[|points| - 1].timestamp > p.timestamp
    then InsertByTime(points[..|points| - 1], p) + [points[|points| - 1]]
    else points + [p]
  }

  function SortByTime(points: seq<PricePoint>): seq<PricePoint> {
    if points == [] then []
    else InsertByTime(SortByTime(points[..|points| - 1]), points[|points| - 1])
  }

  ghost predicate NonDecreasing(points: seq<PricePoint>) {
    forall i, j :: 0 <= i < j < |points| ==> points[i].timestamp <= points[j].timestamp
  }

  lemma {:induction false} InsertByTimeContents(points: seq<PricePoint>, p: PricePoint)
    ensures multiset(InsertByTime(points, p)) == multiset(points) + multiset{p}
  {
    if points != [] && points[|points| - 1].timestamp > p.timestamp {
      InsertByTimeContents(points[..|points| - 1], p);
      assert points == points[..|points| - 1] + [points[|points| - 1]];
    }
  }

  lemma {:induction false} InsertByTimeSorts(points: seq<PricePoint>, p: PricePoint)
    requires NonDecreasing(points)
    ensures NonDecreasing(InsertByTime(points, p))
  {
    if points != [] && points[|points| - 1].timestamp > p.timestamp {
      var front, last := points[..|points| - 1], points[|points| - 1];
      InsertByTimeSorts(front, p);
      InsertedMembers(front, p);
      SortedSnoc(InsertByTime(front, p), last);
    } else {
      SortedSnoc(points, p);
    }
  }

  lemma InsertedMembers(points: seq<PricePoint>, p: PricePoint)
    ensures forall q :: q in InsertByTime(points, p) ==> q in points || q == p
  {
    hide InsertByTime;
    InsertByTimeContents(points, p);
    forall q | q in InsertByTime(points, p) ensures q in points || q == p {
      assert q in multiset(InsertByTime(points, p));
    }
  }

  lemma SortedSnoc(points: seq<PricePoint>, last: PricePoint)
    requires NonDecreasing(points) && forall q :: q in points ==> q.timestamp <= last.timestamp
    ensures NonDecreasing(points + [last])
  {
    assert forall i :: 0 <= i < |points| ==> points[i] in points;
  }

  lemma {:induction false} InsertByTimeKeepsBars(points: seq<PricePoint>, p: PricePoint)
    ensures ByTime(InsertByTime(points, p)) == ByTime(points)[p.timestamp := p]
  {
    if points != [] && points[|points| - 1].timestamp > p.timestamp {
      var front, last := points[..|points| - 1], points[|points| - 1];
      InsertByTimeKeepsBars(front, p);
      ByTimeSnoc(InsertByTime(front, p), last);
    } else {
      ByTimeSnoc(points, p);
    }
  }

  lemma {:induction false} SortByTimeContents(points: seq<PricePoint>)
    ensures multiset(SortByTime(points)) == multiset(points)
  {
    if points != [] {
      var front, last := points[..|points| - 1], points[|points| - 1];
      SortByTimeContents(front);
      InsertByTimeContents(SortByTime(front), last);
      assert points == front + [last];
    }
  }

  lemma {:induction false} SortByTimeSorts(points: seq<PricePoint>)
    ensures NonDecreasing(SortByTime(points))
  {
    if points != [] {
      SortByTimeSorts(points[..|points| - 1]);
      InsertByTimeSorts(SortByTime(points[..|points| - 1]), points[|points| - 1]);
    }
  }

  /** Stability: among equal timestamps the last given stays last. */
  lemma {:induction false} SortByTimeKeepsBars(points: seq<PricePoint>)
    ensures ByTime(SortByTime(points)) == ByTime(points)
  {
    if points != [] {
      SortByTimeKeepsBars(points[..|points| - 1]);
      InsertByTimeKeepsBars(SortByTime(points[..|points| - 1]), points[|points| - 1]);
    }
  }
}
