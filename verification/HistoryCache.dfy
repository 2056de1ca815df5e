/**
 The history cache as it runs: sorted rings per symbol, a minute-local cache of references,
 recipes for virtual histories and a reverse index from each input to its dependents. Every
 method is tied to the operation of `HistoryModel` it performs on the state the rings stand for.
 */
module HistoryCache {
  import opened Basics
  import opened SymbolGraph
  import opened PriceBars
  import opened HistoryModel
  import opened HistoryRuns
  import opened StoredBars
  import opened Upkeep
  import opened CrossHistory
  import opened Analytics

  type Rings = map<Symbol, seq<PricePoint>>

  function Ring(rings: Rings, s: Symbol): seq<PricePoint> {
    if s in rings then rings[s] else []
  }

  ghost predicate LegalRings(rings: Rings) {
    forall s :: s in rings ==> rings[s] != [] && Increasing(rings[s])
  }

  function HistoriesOf(rings: Rings): Histories {
    map s | s in rings :: ByTime(rings[s])
  }

  lemma BarsOfRing(rings: Rings, s: Symbol)
    ensures BarsOf(HistoriesOf(rings), s) == ByTime(Ring(rings, s))
  {
  }

  /** Storing a ring, or dropping the key when the ring is empty, stores its bars. */
  function WithRing(rings: Rings, s: Symbol, ring: seq<PricePoint>): Rings {
    if ring == [] then rings - {s} else rings[s := ring]
  }

  lemma RingBarsEmpty(ring: seq<PricePoint>)
    ensures ByTime(ring) == map[] <==> ring == []
  {
    if ring != [] {
      assert ring[|ring| - 1].timestamp in ByTime(ring);
    }
  }

  lemma WithRingIsLegal(rings: Rings, s: Symbol, ring: seq<PricePoint>)
    requires LegalRings(rings) && Increasing(ring)
    ensures LegalRings(WithRing(rings, s, ring))
  {
    hide Increasing;
  }

  lemma HistoryWithRing(rings: Rings, s: Symbol, ring: seq<PricePoint>, t: Symbol)
    ensures var after, before := HistoriesOf(WithRing(rings, s, ring)), HistoriesOf(rings);
            && (t in after <==> if t == s then ring != [] else t in before)
            && (t in after ==> after[t] == if t == s then ByTime(ring) else before[t])
  {
    hide ByTime;
  }

  lemma WithRingMeans(rings: Rings, s: Symbol, ring: seq<PricePoint>)
    requires LegalRings(rings) && Increasing(ring)
    ensures LegalRings(WithRing(rings, s, ring))
    ensures HistoriesOf(WithRing(rings, s, ring)) ==
      if ByTime(ring) == map[] then HistoriesOf(rings) - {s} else HistoriesOf(rings)[s := ByTime(ring)]
  {
    hide ByTime, Increasing, LegalRings, HistoriesOf, WithRing;
    WithRingIsLegal(rings, s, ring);
    RingBarsEmpty(ring);
    var after, before := HistoriesOf(WithRing(rings, s, ring)), HistoriesOf(rings);
    forall t ensures (t in after <==> if t == s then ring != [] else t in before)
                     && (t in after ==> after[t] == if t == s then ByTime(ring) else before[t]) {
      HistoryWithRing(rings, s, ring, t);
    }
    assert ring == [] ==> after == before - {s};
    assert ring != [] ==> after == before[s := ByTime(ring)];
  }

  // ----- counting points

  ghost function Total(rings: Rings): nat
    decreases |rings|
  {
    if rings == map[] then 0
    else
      var s :| s in rings;
      assert (rings - {s}).Keys == rings.Keys - {s};
      |rings[s]| + Total(rings - {s})
  }

  lemma {:induction false} TotalWithout(rings: Rings, s: Symbol)
    ensures Total(rings) == |Ring(rings, s)| + Total(rings - {s})
    decreases |rings|
  {
    if s !in rings {
      assert rings - {s} == rings;
    } else {
      var p :| p in rings && Total(rings) == |rings[p]| + Total(rings - {p});
      if p != s {
        assert (rings - {p}).Keys == rings.Keys - {p};
        assert (rings - {s}).Keys == rings.Keys - {s};
        TotalWithout(rings - {p}, s);
        TotalWithout(rings - {s}, p);
        assert rings - {p} - {s} == rings - {s} - {p};
      }
    }
  }

  lemma TotalWithRing(rings: Rings, s: Symbol, ring: seq<PricePoint>)
    ensures Total(WithRing(rings, s, ring)) + |Ring(rings, s)| == Total(rings) + |ring|
  {
    hide Total;
    TotalWithout(rings, s);
    TotalWithout(WithRing(rings, s, ring), s);
    assert WithRing(rings, s, ring) - {s} == rings - {s};
  }

  // ----- doing an operation symbol by symbol

  lemma ForgetTwice(references: map<Symbol, ReferenceEntry>, a: set<Symbol>, b: set<Symbol>)
    ensures Forget(Forget(references, a), b) == Forget(references, a + b)
  {
  }

  lemma PruneHistoriesStep(histories: Histories, done: set<Symbol>, s: Symbol, cutoff: int)
    requires s !in done
    ensures PruneHistories(PruneHistories(histories, done, cutoff), {s}, cutoff)
      == PruneHistories(histories, done + {s}, cutoff)
  {
  }

  lemma PruneSymbolsStep(st: HistoryState, done: set<Symbol>, s: Symbol, now: int)
    requires s !in done
    ensures PruneSymbols(PruneSymbols(st, done, now), {s}, now) == PruneSymbols(st, done + {s}, now)
  {
    hide PruneHistories, Expires, Affected;
    var middle := PruneSymbols(st, done, now);
    PruneHistoriesStep(st.one, done, s, now - ONE_MINUTE_RETENTION);
    PruneHistoriesStep(st.five, done, s, now - FIVE_MINUTE_RETENTION);
    PruneHistoriesStep(st.daily, done, s, now - DAILY_RETENTION);
    ExpiryIsLocal(st, done, s, now);
    var before := AffectedByAny(st.recipes, set x | x in done && Expires(st, x, now));
    var step := AffectedByAny(st.recipes, set x | x in {s} && Expires(middle, x, now));
    ForgetTwice(st.references, before, step);
    assert before + step == AffectedByAny(st.recipes, set x | x in done + {s} && Expires(st, x, now));
  }

  lemma ExpiryIsLocal(st: HistoryState, done: set<Symbol>, s: Symbol, now: int)
    requires s !in done
    ensures Expires(PruneSymbols(st, done, now), s, now) == Expires(st, s, now)
  {
    hide Affected;
  }

  lemma LoadedBarsAreLocal(st: HistoryState, points: seq<PricePoint>, done: set<Symbol>, s: Symbol,
                           histories: Histories,
                           middle: HistoryState, middleHistories: Histories, ring: Interval, retention: int)
    requires s !in done && middle == LoadSymbols(st, points, done)
    requires middleHistories == LoadHistories(st, points, done, histories, ring, retention)
    ensures LoadedBars(middle, points, s, middleHistories, ring, retention)
      == LoadedBars(st, points, s, histories, ring, retention)
  {
    LoadKeepsOthers(st, points, done, s);
    hide Incoming, SortByTime, Affected, LoadedBars, Since;
    assert BarsOf(middleHistories, s) == BarsOf(histories, s);
    SameBarsSameLoad(st, points, s, histories, middle, middleHistories, ring, retention);
  }

  lemma SameBarsSameLoad(st: HistoryState, points: seq<PricePoint>, s: Symbol, histories: Histories,
                         middle: HistoryState, middleHistories: Histories, ring: Interval, retention: int)
    requires BarsOf(middleHistories, s) == BarsOf(histories, s)
    requires BarsOf(middle.one, s) == BarsOf(st.one, s) && BarsOf(middle.five, s) == BarsOf(st.five, s)
    requires BarsOf(middle.daily, s) == BarsOf(st.daily, s)
    ensures LoadedBars(middle, points, s, middleHistories, ring, retention)
      == LoadedBars(st, points, s, histories, ring, retention)
  {
    hide Incoming, SortByTime, BarsOf, Since;
  }

  lemma LoadHistoriesAt(st: HistoryState, points: seq<PricePoint>, symbols: set<Symbol>, histories: Histories,
                        ring: Interval, retention: int, x: Symbol)
    ensures var loaded := LoadHistories(st, points, symbols, histories, ring, retention);
            && (x in loaded <==>
                if x in symbols then LoadedBars(st, points, x, histories, ring, retention) != map[] else x in histories)
            && (x in loaded ==>
                loaded[x] == if x in symbols then LoadedBars(st, points, x, histories, ring, retention)
                else histories[x])
  {
    hide LoadedBars;
  }

  lemma LoadHistoriesStep(st: HistoryState, points: seq<PricePoint>, done: set<Symbol>, s: Symbol, histories: Histories,
                          middle: HistoryState, middleHistories: Histories, ring: Interval, retention: int)
    requires s !in done && middle == LoadSymbols(st, points, done)
    requires middleHistories == LoadHistories(st, points, done, histories, ring, retention)
    ensures LoadHistories(middle, points, {s}, middleHistories, ring, retention)
         == LoadHistories(st, points, done + {s}, histories, ring, retention)
  {
    hide *;
    LoadedBarsAreLocal(st, points, done, s, histories, middle, middleHistories, ring, retention);
    var a := LoadHistories(middle, points, {s}, middleHistories, ring, retention);
    var b := LoadHistories(st, points, done + {s}, histories, ring, retention);
    forall x ensures (x in a <==> x in b) && (x in a ==> a[x] == b[x]) {
      LoadHistoriesAt(middle, points, {s}, middleHistories, ring, retention, x);
      LoadHistoriesAt(st, points, done + {s}, histories, ring, retention, x);
      LoadHistoriesAt(st, points, done, histories, ring, retention, x);
    }
  }

  lemma LoadSymbolsStep(st: HistoryState, points: seq<PricePoint>, done: set<Symbol>, s: Symbol)
    requires s !in done
    ensures LoadSymbols(LoadSymbols(st, points, done), points, {s}) == LoadSymbols(st, points, done + {s})
  {
    hide LoadHistories, Affected;
    var middle := LoadSymbols(st, points, done);
    LoadHistoriesStep(st, points, done, s, st.one, middle, middle.one, OneMinute, ONE_MINUTE_RETENTION);
    LoadHistoriesStep(st, points, done, s, st.five, middle, middle.five, FiveMinutes, FIVE_MINUTE_RETENTION);
    LoadHistoriesStep(st, points, done, s, st.daily, middle, middle.daily, OneDay, DAILY_RETENTION);
    ForgetTwice(st.references, AffectedByAny(st.recipes, done), AffectedByAny(st.recipes, {s}));
    assert AffectedByAny(st.recipes, done) + AffectedByAny(st.recipes, {s}) == AffectedByAny(st.recipes, done + {s});
  }

  // ----- one ring

  lemma TailReplaced(target: seq<PricePoint>, bucketed: PricePoint)
    requires target != [] && Increasing(target) && target[|target| - 1].timestamp == bucketed.timestamp
    ensures var updated := target[..|target| - 1] + [bucketed];
            Increasing(updated) && ByTime(updated) == ByTime(target)[bucketed.timestamp := bucketed]
  {
    hide ByTime;
    LastOfIncreasing(target);
    ByTimeSnoc(target[..|target| - 1], bucketed);
  }

  lemma TailAppended(target: seq<PricePoint>, bucketed: PricePoint)
    requires Increasing(target) && (target != [] ==> target[|target| - 1].timestamp < bucketed.timestamp)
    ensures Increasing(target + [bucketed])
      && ByTime(target + [bucketed]) == ByTime(target)[bucketed.timestamp := bucketed]
  {
    hide ByTime;
    ByTimeSnoc(target, bucketed);
  }

  /** Puts a bucketed point into a ring: replace the tail, append, or rebuild from a dictionary. */
  method UpsertBucket(target: seq<PricePoint>, bucketed: PricePoint) returns (updated: seq<PricePoint>)
    requires Increasing(target)
    ensures Increasing(updated) && ByTime(updated) == ByTime(target)[bucketed.timestamp := bucketed]
  {
    hide Sorted, ByTime;
    if target != [] && target[|target| - 1].timestamp == bucketed.timestamp {
      updated := target[..|target| - 1] + [bucketed];
      TailReplaced(target, bucketed);
    } else if target == [] || target[|target| - 1].timestamp < bucketed.timestamp {
      updated := target + [bucketed];
      TailAppended(target, bucketed);
    } else {
      var values := ByTime(target)[bucketed.timestamp := bucketed];
      ByTimeContents(target);
      SortedIsTheRing(values);
      updated := Sorted(values);
    }
  }

  lemma {:induction false} DroppingHead(ring: seq<PricePoint>)
    requires ring != [] && Increasing(ring)
    ensures ByTime(ring[1..]) == ByTime(ring) - {ring[0].timestamp}
    ensures ring[0].timestamp in ByTime(ring)
    decreases |ring|
  {
    var n := |ring| - 1;
    if n > 0 {
      DroppingHead(ring[..n]);
      assert ring[..n][1..] == ring[1..][..n - 1];
    }
  }

  lemma AllKept(ring: seq<PricePoint>, cutoff: int)
    requires Increasing(ring) && (ring != [] ==> ring[0].timestamp >= cutoff)
    ensures Since(ByTime(ring), cutoff) == ByTime(ring)
  {
    ByTimeContents(ring);
    forall t | t in ByTime(ring) ensures t >= cutoff {
      var p := ByTime(ring)[t];
      var i :| 0 <= i < |ring| && ring[i] == p;
    }
  }

  /** Pops expired points from the left end. */
  method PruneRing(ring: seq<PricePoint>, cutoff: int) returns (kept: seq<PricePoint>, removed: nat)
    requires Increasing(ring)
    ensures Increasing(kept) && ByTime(kept) == Since(ByTime(ring), cutoff)
    ensures removed == |ring| - |kept| && kept == ring[removed..]
    ensures removed == 0 <==> Since(ByTime(ring), cutoff) == ByTime(ring)
  {
    hide ByTime;
    kept, removed := ring, 0;
    while kept != [] && kept[0].timestamp < cutoff
      invariant removed <= |ring| && kept == ring[removed..]
      invariant Since(ByTime(kept), cutoff) == Since(ByTime(ring), cutoff)
      invariant removed > 0 ==> Since(ByTime(ring), cutoff) != ByTime(ring)
    {
      DroppingHead(kept);
      if removed == 0 {
        assert kept[0].timestamp in ByTime(ring) && kept[0].timestamp !in Since(ByTime(ring), cutoff);
      }
      kept, removed := kept[1..], removed + 1;
    }
    AllKept(kept, cutoff);
  }

  /** `deque(points)` under the key, or no key when there are none. */
  lemma ReplaceRingMeans(rings: Rings, s: Symbol, bars: Bars)
    requires LegalRings(rings) && KeyedByTime(bars)
    ensures LegalRings(WithRing(rings, s, Sorted(bars)))
    ensures HistoriesOf(WithRing(rings, s, Sorted(bars))) ==
      if bars == map[] then HistoriesOf(rings) - {s} else HistoriesOf(rings)[s := bars]
  {
    hide Sorted, ByTime;
    SortedIsTheRing(bars);
    WithRingMeans(rings, s, Sorted(bars));
  }

  /** The newest point at or before the cutoff, scanning from the right end. */
  method LatestAtOrBefore(ring: seq<PricePoint>, cutoff: int) returns (latest: Option<PricePoint>)
    requires Increasing(ring)
    ensures latest == Latest(ByTime(ring), cutoff)
  {
    latest := LastAtOrBefore(ring, cutoff);
  }

  // ----- the cache

  datatype Registration = InvalidRecipe | NegativeSkew | DependencyCycle | Accepted

  predicate Drops(entry: ReferenceEntry, timestamp: Option<int>) {
    timestamp.None? || timestamp.value <= entry.asOf - HOUR
  }

  ghost function Dropped(references: map<Symbol, ReferenceEntry>, symbols: set<Symbol>, timestamp: Option<int>)
    : map<Symbol, ReferenceEntry>
  {
    map k | k in references && !(k in symbols && Drops(references[k], timestamp)) :: references[k]
  }

  lemma DroppedTwice(references: map<Symbol, ReferenceEntry>, a: set<Symbol>, b: set<Symbol>, timestamp: Option<int>)
    ensures Dropped(Dropped(references, a, timestamp), b, timestamp) == Dropped(references, a + b, timestamp)
  {
  }

  /** The reverse index lists, for every input, exactly the symbols whose recipe reads it. */
  ghost predicate Inverts(dependents: Graph, recipes: map<Symbol, Recipe>) {
    forall x, d :: d in Successors(dependents, x) <==> d in recipes && x in recipes[d].inputs
  }

  class HistoryCache {
    const compute: Arithmetic
    var oneMinute: Rings
    var fiveMinute: Rings
    var daily: Rings
    var referenceCache: map<Symbol, ReferenceEntry>
    var recipes: map<Symbol, Recipe>
    var dependents: Graph

    ghost function State(): HistoryState
      reads this
    {
      HistoryState(HistoriesOf(oneMinute), HistoriesOf(fiveMinute), HistoriesOf(daily), referenceCache, recipes)
    }

    ghost predicate Valid()
      reads this
    {
      && LegalRings(oneMinute) && LegalRings(fiveMinute) && LegalRings(daily)
      && Inverts(dependents, recipes)
      && WellFormed(State())
    }

    ghost function PointCount(): nat
      reads this
    {
      Total(oneMinute) + Total(fiveMinute) + Total(daily)
    }

    constructor (compute: Arithmetic)
      ensures Valid() && State() == EMPTY && this.compute == compute
    {
      this.compute := compute;
      oneMinute, fiveMinute, daily := map[], map[], map[];
      referenceCache, recipes, dependents := map[], map[], map[];
      new;
      EmptyIsCoherent(compute);
    }

    // --- invalidation

    /**
     Drops the entries of `symbol` and, through the reverse index, of everything derived from it;
     `visited` stops a second visit.
     */
    method Invalidate(symbol: Symbol, timestamp: Option<int>, visited: set<Symbol>, ghost universe: set<Symbol>)
      returns (seen: set<Symbol>)
      requires Inverts(dependents, recipes)
      requires recipes.Keys <= universe && symbol in universe && visited <= universe
      modifies this`referenceCache
      ensures visited + {symbol} <= seen <= universe
      ensures forall x :: x in seen - visited ==>
        Reaches(InputGraph(recipes), x, symbol) && Successors(dependents, x) <= seen
      ensures referenceCache == Dropped(old(referenceCache), seen - visited, timestamp)
      decreases |universe - visited|
    {
      hide InputGraph, Reaches;
      if symbol in visited {
        seen := visited;
        assert seen - visited == {};
        return;
      }
      seen := visited + {symbol};
      assert universe - seen < universe - visited;
      SmallerSet(universe - seen, universe - visited);
      if symbol in referenceCache && Drops(referenceCache[symbol], timestamp) {
        referenceCache := referenceCache - {symbol};
      }
      ReachesSelf(InputGraph(recipes), symbol);
      assert seen - visited == {symbol};
      var pending := Successors(dependents, symbol);
      ghost var all := pending;
      while pending != {}
        invariant pending <= all && all - pending <= seen
        invariant visited + {symbol} <= seen <= universe
        invariant forall x :: x in seen - visited ==>
          Reaches(InputGraph(recipes), x, symbol) && (x == symbol || Successors(dependents, x) <= seen)
        invariant referenceCache == Dropped(old(referenceCache), seen - visited, timestamp)
        invariant |universe - seen| < |universe - visited|
        decreases pending
      {
        var dependent :| dependent in pending;
        assert dependent in recipes && symbol in recipes[dependent].inputs;
        ghost var before := seen;
        seen := Invalidate(dependent, timestamp, seen, universe);
        forall x | x in seen - before ensures Reaches(InputGraph(recipes), x, symbol) {
          InputEdge(recipes, dependent, symbol);
          ReachesThenEdge(InputGraph(recipes), x, dependent, symbol);
        }
        DroppedTwice(old(referenceCache), before - visited, seen - before, timestamp);
        assert before - visited + (seen - before) == seen - visited;
        SmallerOrEqualSet(universe - seen, universe - before);
        pending := pending - {dependent};
      }
    }

    method InvalidateReferences(symbol: Symbol, timestamp: Option<int>)
      requires Inverts(dependents, recipes)
      modifies this`referenceCache
      ensures referenceCache == Dropped(old(referenceCache), Affected(recipes, symbol), timestamp)
    {
      hide Reaches;
      var seen := Invalidate(symbol, timestamp, {}, recipes.Keys + {symbol});
      assert seen - {} == seen;
      SeenIsAffected(dependents, recipes, symbol, seen);
    }

    // --- add

    /** Stores one observation in the rings it feeds. */
    method PutInRing(rings: Rings, ring: Interval, point: PricePoint) returns (updated: Rings)
      requires LegalRings(rings) && Feeds(point.interval, ring)
      ensures LegalRings(updated) && HistoriesOf(updated) == Put(HistoriesOf(rings), ring, point)
    {
      hide ByTime, Increasing;
      EmptyRing();
      var upserted := UpsertBucket(Ring(rings, point.symbol), Bucketed(point, ring));
      BarsOfRing(rings, point.symbol);
      RingBarsEmpty(upserted);
      assert Bucketed(point, ring).timestamp in ByTime(upserted);
      updated := rings[point.symbol := upserted];
    }

    method Add(point: PricePoint) returns (ok: bool)
      requires Valid()
      modifies this
      ensures Valid() && ok == !point.interval.Unsupported?
      ensures State() == HistoryModel.Add(old(State()), point)
      ensures if ok then IsAdded(old(State()), State(), point) && EntriesAfterAdd(old(State()), State(), point)
              else State() == old(State())
    {
      hide HistoriesOf, LegalRings, Put, WellFormed, PruneSymbols, Affected, IsAdded, EntriesAfterAdd;
      match point.interval {
        case OneDay =>
          daily := PutInRing(daily, OneDay, point);
        case FiveMinutes =>
          fiveMinute := PutInRing(fiveMinute, FiveMinutes, point);
        case OneMinute =>
          oneMinute := PutInRing(oneMinute, OneMinute, point);
          fiveMinute := PutInRing(fiveMinute, FiveMinutes, point);
        case Unsupported(_) =>
          return false;
      }
      PutOnlyWhereFed(old(State()), point);
      PutIsWellFormed(old(State()), point);
      var removed := PruneSymbol(point.symbol, point.timestamp);
      ghost var pruned := State();
      InvalidateReferences(point.symbol, Some(point.timestamp));
      DroppedIsForgetReached(pruned.references, Affected(recipes, point.symbol), point.timestamp);
      AddIsWellFormed(old(State()), point);
      AddIs(old(State()), point);
      AddKeepsEntries(old(State()), point);
      ok := true;
    }

    // --- expiry

    /** Expires the three rings of one symbol; any removal drops every reference that reads them. */
    method PruneSymbol(symbol: Symbol, now: int) returns (removed: nat)
      requires Valid()
      modifies this
      ensures Valid()
      ensures State() == PruneSymbols(old(State()), {symbol}, now)
      ensures recipes == old(recipes) && dependents == old(dependents)
      ensures removed == 0 <==> !Expires(old(State()), symbol, now)
      ensures removed + PointCount() == old(PointCount())
    {
      hide HistoriesOf, WellFormed, Affected, ByTime, Since, PruneHistories, Expires, BarsOf, Increasing, LegalRings,
           WithRing, Ring, Forget, AffectedByAny, Dropped, Inverts, Total;
      ghost var before := State();
      RingIsIncreasing(oneMinute, symbol);
      RingIsIncreasing(fiveMinute, symbol);
      RingIsIncreasing(daily, symbol);
      ExpiryOfRings(before, oneMinute, fiveMinute, daily, symbol, now);
      var one, oneRemoved := PruneRing(Ring(oneMinute, symbol), now - ONE_MINUTE_RETENTION);
      var five, fiveRemoved := PruneRing(Ring(fiveMinute, symbol), now - FIVE_MINUTE_RETENTION);
      var day, dayRemoved := PruneRing(Ring(daily, symbol), now - DAILY_RETENTION);
      PrunedRingMeans(oneMinute, symbol, one, now - ONE_MINUTE_RETENTION);
      PrunedRingMeans(fiveMinute, symbol, five, now - FIVE_MINUTE_RETENTION);
      PrunedRingMeans(daily, symbol, day, now - DAILY_RETENTION);
      TotalWithRing(oneMinute, symbol, one);
      TotalWithRing(fiveMinute, symbol, five);
      TotalWithRing(daily, symbol, day);
      oneMinute, fiveMinute, daily := WithRing(oneMinute, symbol, one), WithRing(fiveMinute, symbol, five),
      WithRing(daily, symbol, day);
      removed := oneRemoved + fiveRemoved + dayRemoved;
      if removed > 0 {
        InvalidateReferences(symbol, None);
        DroppedIsForget(before.references, Affected(recipes, symbol));
      }
      PruneOneSymbol(before, symbol, now);
      PruneIsWellFormed(before, {symbol}, now);
    }

    /** Expires every symbol that has a ring, collected or not. */
    method Prune(now: int) returns (removed: nat)
      requires Valid()
      modifies this
      ensures Valid() && State() == HistoryModel.Prune(old(State()), now)
      ensures IsPruned(old(State()), State(), now)
      ensures removed + PointCount() == old(PointCount())
    {
      hide HistoriesOf, WellFormed, Expires, PruneSymbols, LegalRings, Total, Inverts, IsPruned;
      ghost var before := State();
      PruneIs(before, now);
      var pending := oneMinute.Keys + fiveMinute.Keys + daily.Keys;
      ghost var all := pending;
      HistoryKeys(oneMinute);
      HistoryKeys(fiveMinute);
      HistoryKeys(daily);
      removed := 0;
      PruneNothing(before, now);
      assert all - pending == {};
      while pending != {}
        invariant pending <= all && Valid() && State() == PruneSymbols(before, all - pending, now)
        invariant removed + PointCount() == old(PointCount())
        decreases pending
      {
        var symbol :| symbol in pending;
        var gone := PruneSymbol(symbol, now);
        removed := removed + gone;
        PruneSymbolsStep(before, all - pending, symbol, now);
        assert all - pending + {symbol} == all - (pending - {symbol});
        pending := pending - {symbol};
      }
      assert all - {} == all;
    }

    // --- load

    method LoadSymbol(symbol: Symbol, incomingOne: Bars, incomingFive: Bars, incomingDaily: Bars,
                      ghost points: seq<PricePoint>)
      requires Valid()
      requires incomingOne == Incoming(SortByTime(points), symbol, OneMinute)
      requires incomingFive == Incoming(SortByTime(points), symbol, FiveMinutes)
      requires incomingDaily == Incoming(SortByTime(points), symbol, OneDay)
      requires incomingOne.Keys + incomingFive.Keys + incomingDaily.Keys != {}
      modifies this
      ensures Valid() && State() == LoadSymbols(old(State()), points, {symbol})
      ensures recipes == old(recipes)
    {
      hide HistoriesOf, WellFormed, Affected, ByTime, Incoming, SortByTime, Since, LegalRings, Inverts, LoadHistories,
           Forget, Dropped, AffectedByAny, Total, BarsOf, WithRing, Sorted, KeyedByTime;
      ghost var before := State();
      InvalidateReferences(symbol, None);
      DroppedIsForget(before.references, Affected(recipes, symbol));
      AffectedByOne(recipes, symbol);
      var one := incomingOne + ByTime(Ring(oneMinute, symbol));
      var five := incomingFive + ByTime(Ring(fiveMinute, symbol));
      var day := incomingDaily + ByTime(Ring(daily, symbol));
      BarsOfRing(oneMinute, symbol);
      BarsOfRing(fiveMinute, symbol);
      BarsOfRing(daily, symbol);
      assert one.Keys + five.Keys + day.Keys != {} by {
        assert incomingOne.Keys + incomingFive.Keys + incomingDaily.Keys <= one.Keys + five.Keys + day.Keys;
      }
      var latest := Greatest(one.Keys + five.Keys + day.Keys);
      assert latest == NewestAfterLoad(before, points, symbol);
      ReplacedRingMeans(before, points, symbol, oneMinute, OneMinute, ONE_MINUTE_RETENTION);
      ReplacedRingMeans(before, points, symbol, fiveMinute, FiveMinutes, FIVE_MINUTE_RETENTION);
      ReplacedRingMeans(before, points, symbol, daily, OneDay, DAILY_RETENTION);
      oneMinute := WithRing(oneMinute, symbol, Sorted(Since(one, latest - ONE_MINUTE_RETENTION)));
      fiveMinute := WithRing(fiveMinute, symbol, Sorted(Since(five, latest - FIVE_MINUTE_RETENTION)));
      daily := WithRing(daily, symbol, Sorted(Since(day, latest - DAILY_RETENTION)));
      LoadSymbolsIsWellFormed(before, points, {symbol});
    }

    /** Merges what was collected for each symbol into its rings, in any order. */
    method LoadCollected(ghost points: seq<PricePoint>, one: Histories, five: Histories, day: Histories)
      requires Valid() && Collected(SortByTime(points), one, OneMinute)
        && Collected(SortByTime(points), five, FiveMinutes)
      requires Collected(SortByTime(points), day, OneDay)
      modifies this
      ensures Valid() && State() == LoadSymbols(old(State()), points, one.Keys + five.Keys + day.Keys)
    {
      hide HistoriesOf, WellFormed, LoadSymbols, LegalRings, Inverts, Incoming, SortByTime, BarsOf, Collected;
      ghost var before, done: set<Symbol> := State(), {};
      LoadNothing(before, points);
      var all := one.Keys + five.Keys + day.Keys;
      var pending := all;
      while pending != {}
        invariant done !! pending && done + pending == all
        invariant Valid() && State() == LoadSymbols(before, points, done)
        decreases pending
      {
        var symbol :| symbol in pending;
        CollectedBars(SortByTime(points), one, OneMinute, symbol);
        CollectedBars(SortByTime(points), five, FiveMinutes, symbol);
        CollectedBars(SortByTime(points), day, OneDay, symbol);
        LoadSymbol(symbol, BarsOf(one, symbol), BarsOf(five, symbol), BarsOf(day, symbol), points);
        LoadSymbolsStep(before, points, done, symbol);
        pending, done := pending - {symbol}, done + {symbol};
      }
    }

    /** Merges a backfill: nothing happens when any point has an unsupported interval. */
    method Load(points: seq<PricePoint>) returns (ok: bool)
      requires Valid()
      modifies this
      ensures Valid() && ok == AllSupported(points)
      ensures State() == HistoryModel.Load(old(State()), points)
      ensures if ok then IsLoaded(old(State()), State(), points) && EntriesAfterLoad(old(State()), State(), points)
              else State() == old(State())
    {
      hide HistoriesOf, WellFormed, LoadSymbols, LegalRings, Inverts, Incoming, SortByTime, SymbolsOf, BarsOf,
           Collected, IsLoaded, EntriesAfterLoad, Bucket, Bucketed;
      ghost var before := State();
      LoadNothing(before, points);
      if AllSupported(points) {
        LoadIs(before, points);
        LoadKeepsEntries(before, points);
      }
      if points == [] {
        return true;
      }
      var sorted := SortByTime(points);
      SortedMembers(points);
      var one: Histories, five: Histories, day: Histories := map[], map[], map[];
      CollectNothing();
      for i := 0 to |sorted|
        invariant Valid() && State() == before
        invariant Collected(sorted[..i], one, OneMinute) && Collected(sorted[..i], five, FiveMinutes)
        invariant Collected(sorted[..i], day, OneDay)
        invariant one.Keys + five.Keys + day.Keys == SymbolsOf(sorted[..i])
        invariant forall p :: p in sorted[..i] ==> !p.interval.Unsupported?
      {
        var point := sorted[i];
        assert sorted[..i + 1] == sorted[..i] + [point];
        if point.interval.Unsupported? {
          assert point in points;
          OneUnsupported(points, point);
          return false;
        }
        CollectOne(sorted[..i], point, one, OneMinute);
        CollectOne(sorted[..i], point, five, FiveMinutes);
        CollectOne(sorted[..i], point, day, OneDay);
        SymbolsOfSnoc(sorted[..i], point);
        if point.interval.OneDay? {
          day := Put(day, OneDay, point);
          continue;
        }
        if point.interval.OneMinute? {
          one := Put(one, OneMinute, point);
        }
        five := Put(five, FiveMinutes, point);
      }
      assert sorted[..|sorted|] == sorted;
      LoadCollected(points, one, five, day);
      ok := true;
    }

    // --- reading

    /** The merged history: minute bars, older five-minute bars, oldest daily bars. */
    method Points(symbol: Symbol) returns (merged: seq<PricePoint>)
      requires Valid()
      ensures Increasing(merged)
      ensures ByTime(merged)
        == MergedHistory(BarsOf(State().one, symbol), BarsOf(State().five, symbol), BarsOf(State().daily, symbol))
    {
      hide HistoriesOf, WellFormed, ByTime, Increasing, Before;
      BarsOfRing(oneMinute, symbol);
      BarsOfRing(fiveMinute, symbol);
      BarsOfRing(daily, symbol);
      RingIsIncreasing(oneMinute, symbol);
      RingIsIncreasing(fiveMinute, symbol);
      RingIsIncreasing(daily, symbol);
      var withFive := Overlay(Ring(daily, symbol), Ring(fiveMinute, symbol));
      merged := Overlay(withFive, Ring(oneMinute, symbol));
    }

    /**
     What a lookup in the ring of one interval is to find: a bar of the symbol, or the newest one its inputs yield.
     */
    ghost predicate Finds(rings: Rings, interval: Interval, symbol: Symbol, cutoff: int, found: Option<PricePoint>)
      reads this`recipes
      requires symbol in recipes ==> LegalRecipe(recipes[symbol])
    {
      if symbol !in recipes then IsLatestOf(Ring(rings, symbol), cutoff, found)
      else
        var recipe := recipes[symbol];
        IsNewestDerived(compute, symbol, recipe, interval, Ring(rings, recipe.inputs[0]),
                        Ring(rings, recipe.inputs[|recipe.inputs| - 1]), cutoff, found)
    }

    /** The finest interval that has anything decides. */
    ghost predicate FindsFirst(symbol: Symbol, cutoff: int, found: Option<PricePoint>)
      reads this
      requires symbol in recipes ==> LegalRecipe(recipes[symbol])
    {
      if Finds(oneMinute, OneMinute, symbol, cutoff, None) then
        if Finds(fiveMinute, FiveMinutes, symbol, cutoff, None) then Finds(daily, OneDay, symbol, cutoff, found)
        else found.Some? && Finds(fiveMinute, FiveMinutes, symbol, cutoff, found)
      else found.Some? && Finds(oneMinute, OneMinute, symbol, cutoff, found)
    }

    /** The reference lookup without copying a ring. */
    method PlainReferenceAt(symbol: Symbol, cutoff: int) returns (reference: Option<PricePoint>)
      requires Valid()
      ensures reference == PlainReference(State(), symbol, cutoff)
      ensures symbol !in recipes ==> FindsFirst(symbol, cutoff, reference)
    {
      hide HistoriesOf, WellFormed, ByTime, Latest, Increasing, Ring, BarsOf, IsLatestOf;
      LatestIsLatestOf(Ring(oneMinute, symbol), cutoff);
      LatestIsLatestOf(Ring(fiveMinute, symbol), cutoff);
      LatestIsLatestOf(Ring(daily, symbol), cutoff);
      FoundOrNot(Ring(oneMinute, symbol), cutoff);
      FoundOrNot(Ring(fiveMinute, symbol), cutoff);
      BarsOfRing(oneMinute, symbol);
      BarsOfRing(fiveMinute, symbol);
      BarsOfRing(daily, symbol);
      RingIsIncreasing(oneMinute, symbol);
      RingIsIncreasing(fiveMinute, symbol);
      RingIsIncreasing(daily, symbol);
      var one := Ring(oneMinute, symbol);
      HeadDecides(one, cutoff);
      if one != [] && one[0].timestamp <= cutoff {
        reference := LatestAtOrBefore(one, cutoff);
        return;
      }
      var five := Ring(fiveMinute, symbol);
      HeadDecides(five, cutoff);
      if five != [] && five[0].timestamp <= cutoff {
        reference := LatestAtOrBefore(five, cutoff);
        return;
      }
      reference := LatestAtOrBefore(Ring(daily, symbol), cutoff);
    }

    /** One interval of a synthetic lookup; an empty input ring yields nothing. */
    method SyntheticFromRings(rings: Rings, symbol: Symbol, recipe: Recipe, interval: Interval, cutoff: int)
      returns (reference: Option<PricePoint>)
      requires LegalRings(rings) && LegalRecipe(recipe)
      ensures reference == Latest(DerivedHistory(compute, HistoriesOf(rings), symbol, recipe, interval), cutoff)
      ensures IsNewestDerived(compute, symbol, recipe, interval, Ring(rings, recipe.inputs[0]),
                              Ring(rings, recipe.inputs[|recipe.inputs| - 1]), cutoff, reference)
    {
      hide HistoriesOf, ByTime, Latest, Increasing, Ring, BarsOf, DerivedBars, IsNewestDerived;
      var left := Ring(rings, recipe.inputs[0]);
      BarsOfRing(rings, recipe.inputs[0]);
      BarsOfRing(rings, recipe.inputs[|recipe.inputs| - 1]);
      RingIsIncreasing(rings, recipe.inputs[0]);
      RingIsIncreasing(rings, recipe.inputs[|recipe.inputs| - 1]);
      LatestIsNewestDerived(compute, symbol, recipe, interval, left, Ring(rings, recipe.inputs[|recipe.inputs| - 1]),
                            cutoff);
      if left == [] {
        EmptyInput(compute, symbol, recipe, interval, ByTime(Ring(rings, recipe.inputs[|recipe.inputs| - 1])), cutoff);
        return None;
      }
      if recipe.operation.Inverse? {
        reference := ScanInverse(compute, symbol, recipe, interval, left, left, cutoff);
        return;
      }
      var right := Ring(rings, recipe.inputs[1]);
      if right == [] {
        EmptyPartner(compute, symbol, recipe, interval, ByTime(left), cutoff);
        return None;
      }
      reference := ScanBackward(compute, symbol, recipe, interval, left, right, cutoff);
    }

    lemma YieldedOrNot(symbol: Symbol, recipe: Recipe, interval: Interval, left: seq<PricePoint>,
                       right: seq<PricePoint>,
                       cutoff: int)
      ensures forall p :: IsNewestDerived(compute, symbol, recipe, interval, left, right, cutoff, Some(p)) ==>
        !IsNewestDerived(compute, symbol, recipe, interval, left, right, cutoff, None)
    {
      hide Yields;
    }

    method ReferenceAt(symbol: Symbol, cutoff: int) returns (reference: Option<PricePoint>)
      requires Valid()
      ensures reference == Reference(compute, State(), symbol, cutoff)
      ensures FindsFirst(symbol, cutoff, reference)
    {
      hide HistoriesOf, LegalHistories, LegalRings, DerivedHistory, Latest, PlainReference, Inverts, Ranked,
           IsNewestDerived;
      if symbol in recipes {
        var recipe := recipes[symbol];
        YieldedOrNot(symbol, recipe, OneMinute, Ring(oneMinute, recipe.inputs[0]),
                     Ring(oneMinute, recipe.inputs[|recipe.inputs| - 1]), cutoff);
        YieldedOrNot(symbol, recipe, FiveMinutes, Ring(fiveMinute, recipe.inputs[0]),
                     Ring(fiveMinute, recipe.inputs[|recipe.inputs| - 1]), cutoff);
        reference := SyntheticFromRings(oneMinute, symbol, recipe, OneMinute, cutoff);
        if reference.Some? { return; }
        reference := SyntheticFromRings(fiveMinute, symbol, recipe, FiveMinutes, cutoff);
        if reference.Some? { return; }
        reference := SyntheticFromRings(daily, symbol, recipe, OneDay, cutoff);
      } else {
        reference := PlainReferenceAt(symbol, cutoff);
      }
    }

    /** The six references of one symbol, reusing the entry selected earlier in the same minute. */
    method ChangeReferences(symbol: Symbol, currentAsOf: int) returns (references: map<Window, Option<PricePoint>>)
      requires Valid()
      modifies this`referenceCache
      ensures Valid() && State() == HistoryModel.ChangeReferences(compute, old(State()), symbol, currentAsOf)
      ensures referenceCache[symbol].references == references
      ensures old(WholeMinuteDaily(State()) && Coherent(compute, State())) ==>
        references == FreshReferences(compute, old(State()), symbol, currentAsOf)
    {
      hide HistoriesOf, LegalHistories, LegalRings, Inverts, Ranked, Reference, LegalRecipe;
      ghost var before := State();
      if symbol in referenceCache && MinuteOf(referenceCache[symbol].asOf) == MinuteOf(currentAsOf) {
        assert Coherent(compute, before) ==> EntryIsFresh(compute, before, symbol);
        return referenceCache[symbol].references;
      }
      references := map[];
      for i := 0 to |WINDOWS|
        invariant Valid() && State() == before
        invariant forall j :: 0 <= j < i ==> WINDOWS[j] in references
        invariant forall w :: w in references ==>
          references[w] == Reference(compute, before, symbol, currentAsOf - Duration(w))
      {
        var reference := ReferenceAt(symbol, currentAsOf - Duration(WINDOWS[i]));
        references := references[WINDOWS[i] := reference];
      }
      forall w: Window ensures w in references {
        WindowsAreAll(w);
      }
      assert references == FreshReferences(compute, before, symbol, currentAsOf);
      referenceCache := referenceCache[symbol := ReferenceEntry(currentAsOf, references)];
    }

    // --- the recipe graph

    /** Adds `symbol` to the dependents of every input. */
    method Link(symbol: Symbol, inputs: seq<Symbol>)
      modifies this`dependents
      ensures forall x ::
        Successors(dependents, x) == Successors(old(dependents), x) + if x in inputs then {symbol} else {}
    {
      for i := 0 to |inputs|
        invariant forall x ::
          Successors(dependents, x) == Successors(old(dependents), x) + if x in inputs[..i] then {symbol} else {}
      {
        assert inputs[..i + 1] == inputs[..i] + [inputs[i]];
        dependents := dependents[inputs[i] := Successors(dependents, inputs[i]) + {symbol}];
      }
      assert inputs[..|inputs|] == inputs;
    }

    /** Discards `symbol` from the dependents of every input, forgetting inputs left without any. */
    method Unlink(symbol: Symbol, inputs: seq<Symbol>)
      modifies this`dependents
      ensures forall x ::
        Successors(dependents, x) == Successors(old(dependents), x) - if x in inputs then {symbol} else {}
    {
      for i := 0 to |inputs|
        invariant forall x ::
          Successors(dependents, x) == Successors(old(dependents), x) - if x in inputs[..i] then {symbol} else {}
      {
        assert inputs[..i + 1] == inputs[..i] + [inputs[i]];
        if inputs[i] in dependents {
          var left := dependents[inputs[i]] - {symbol};
          dependents := if left == {} then dependents - {inputs[i]} else dependents[inputs[i] := left];
        }
      }
      assert inputs[..|inputs|] == inputs;
    }

    /** Keeps a synthetic history virtual; refuses malformed recipes and dependency cycles. */
    method RegisterSyntheticHistory(symbol: Symbol, recipe: Recipe) returns (outcome: Registration)
      requires Valid()
      modifies this
      ensures Valid() && State() == Register(old(State()), symbol, recipe)
      ensures outcome == if !LegalShape(recipe) then InvalidRecipe
                         else if recipe.maxSkew < 0 then NegativeSkew
                         else if ClosesCycle(old(recipes), symbol, recipe) then DependencyCycle
                         else Accepted
      ensures if outcome == Accepted && !(symbol in old(recipes) && old(recipes)[symbol] == recipe)
              then IsRegistered(old(State()), State(), symbol, recipe) else State() == old(State())
      ensures outcome != InvalidRecipe <==>
        match recipe.operation
        case Inverse => |recipe.inputs| == 1
        case Multiply => |recipe.inputs| == 2
        case Divide => |recipe.inputs| == 2
        case Unknown(_) => false
    {
      hide HistoriesOf, LegalRings, WellFormed, Affected, ClosesCycle, Forget, Dropped, Inverts, Total, LegalShape,
           IsRegistered;
      LegalShapeMeans(recipe);
      if !LegalShape(recipe) {
        return InvalidRecipe;
      }
      if recipe.maxSkew < 0 {
        return NegativeSkew;
      }
      var cyclic := InputsReach(recipes, recipe, symbol);
      if cyclic {
        return DependencyCycle;
      }
      if symbol in recipes && recipes[symbol] == recipe {
        return Accepted;
      }
      ghost var before := State();
      if symbol in recipes {
        Unlink(symbol, recipes[symbol].inputs);
      }
      Link(symbol, recipe.inputs);
      Relinked(old(dependents), dependents, recipes, symbol, recipe);
      recipes := recipes[symbol := recipe];
      WithoutRing(oneMinute, symbol);
      WithoutRing(fiveMinute, symbol);
      WithoutRing(daily, symbol);
      oneMinute, fiveMinute, daily := oneMinute - {symbol}, fiveMinute - {symbol}, daily - {symbol};
      InvalidateReferences(symbol, None);
      DroppedIsForget(before.references, Affected(recipes, symbol));
      RegisterIsWellFormed(before, symbol, recipe);
      RegisterIs(before, symbol, recipe);
      outcome := Accepted;
    }

    /** Pops every ring, and the references, of symbols that are not retained. */
    method DropRings(retained: set<Symbol>) returns (removed: nat, ghost gone: set<Symbol>)
      modifies this`oneMinute, this`fiveMinute, this`daily, this`referenceCache
      ensures gone == old(oneMinute).Keys + old(fiveMinute).Keys + old(daily).Keys - retained
      ensures oneMinute == old(oneMinute) - gone && fiveMinute == old(fiveMinute) - gone && daily == old(daily) - gone
      ensures referenceCache == old(referenceCache) - gone
      ensures removed + PointCount() == old(PointCount())
    {
      hide Total;
      var pending := oneMinute.Keys + fiveMinute.Keys + daily.Keys - retained;
      gone := {};
      removed := 0;
      while pending != {}
        invariant gone + pending == old(oneMinute).Keys + old(fiveMinute).Keys + old(daily).Keys - retained
        invariant oneMinute == old(oneMinute) - gone && fiveMinute == old(fiveMinute) - gone
          && daily == old(daily) - gone
        invariant referenceCache == old(referenceCache) - gone
        invariant removed + PointCount() == old(PointCount())
        decreases pending
      {
        var symbol :| symbol in pending;
        var points := PopRings(symbol);
        removed := removed + points;
        pending, gone := pending - {symbol}, gone + {symbol};
      }
    }

    method PopRings(symbol: Symbol) returns (points: nat)
      modifies this`oneMinute, this`fiveMinute, this`daily, this`referenceCache
      ensures oneMinute == old(oneMinute) - {symbol} && fiveMinute == old(fiveMinute) - {symbol}
        && daily == old(daily) - {symbol}
      ensures referenceCache == old(referenceCache) - {symbol}
      ensures points + PointCount() == old(PointCount())
    {
      hide Total;
      points := |Ring(oneMinute, symbol)| + |Ring(fiveMinute, symbol)| + |Ring(daily, symbol)|;
      TotalWithout(oneMinute, symbol);
      TotalWithout(fiveMinute, symbol);
      TotalWithout(daily, symbol);
      oneMinute, fiveMinute, daily := oneMinute - {symbol}, fiveMinute - {symbol}, daily - {symbol};
      referenceCache := referenceCache - {symbol};
    }

    /** Pops every recipe that is not retained and takes it out of the reverse index. */
    method DropRecipes(retained: set<Symbol>) returns (ghost gone: set<Symbol>)
      requires Inverts(dependents, recipes)
      modifies this`recipes, this`dependents, this`referenceCache
      ensures gone == old(recipes).Keys - retained
      ensures recipes == old(recipes) - gone && Inverts(dependents, recipes)
      ensures referenceCache == old(referenceCache) - gone
    {
      hide Inverts;
      var obsolete := recipes.Keys - retained;
      gone := {};
      while obsolete != {}
        invariant gone + obsolete == old(recipes).Keys - retained && obsolete <= recipes.Keys
        invariant recipes == old(recipes) - gone && Inverts(dependents, recipes)
        invariant referenceCache == old(referenceCache) - gone
        decreases obsolete
      {
        var symbol :| symbol in obsolete;
        var recipe := recipes[symbol];
        ghost var linked := dependents;
        Unlink(symbol, recipe.inputs);
        Unlinked(linked, dependents, recipes, symbol);
        recipes := recipes - {symbol};
        referenceCache := referenceCache - {symbol};
        obsolete, gone := obsolete - {symbol}, gone + {symbol};
      }
    }

    /** Drops what the active catalog no longer needs, keeping the inputs of kept recipes. */
    method RetainSymbols(symbols: set<Symbol>) returns (removed: nat)
      requires Valid()
      modifies this
      ensures Valid() && State() == Retain(old(State()), symbols) && IsRetained(old(State()), State(), symbols)
      ensures removed + PointCount() == old(PointCount())
    {
      hide HistoriesOf, LegalRings, WellFormed, Retained, Inverts, Total, InputGraph, RetainHistories, IsRetained;
      ghost var before := State();
      RetainIs(before, symbols);
      var retained := TransitiveInputs(recipes, symbols);
      ghost var gone, obsolete;
      removed, gone := DropRings(retained);
      obsolete := DropRecipes(retained);
      ghost var present := old(oneMinute).Keys + old(fiveMinute).Keys + old(daily).Keys;
      RetainedRings(before, old(oneMinute), before.one, gone, symbols, retained, present);
      RetainedRings(before, old(fiveMinute), before.five, gone, symbols, retained, present);
      RetainedRings(before, old(daily), before.daily, gone, symbols, retained, present);
      RetainedRecords(before, gone, obsolete, symbols, retained, old(oneMinute), old(fiveMinute), old(daily));
      assert before.references - gone - obsolete == before.references - (gone + obsolete);
      RetainIsWellFormed(before, symbols);
    }
  }

  // ----- the recipe graph

  /** Whether `candidate` depends on `target`, never visiting a symbol twice. */
  method ReachesTarget(recipes: map<Symbol, Recipe>, candidate: Symbol, target: Symbol, visited: set<Symbol>)
    returns (found: bool, seen: set<Symbol>)
    requires target !in visited
    ensures found ==> Reaches(InputGraph(recipes), candidate, target)
    ensures !found ==> visited + {candidate} <= seen && target !in seen
    ensures !found ==> forall x :: x in seen - visited ==> Successors(InputGraph(recipes), x) <= seen
    ensures visited <= seen
    decreases |recipes.Keys - visited|
  {
    hide Reaches, InputGraph;
    seen := visited;
    if candidate == target {
      ReachesSelf(InputGraph(recipes), candidate);
      return true, seen;
    }
    if candidate in visited {
      return false, seen;
    }
    seen := visited + {candidate};
    SuccessorsAreInputs(recipes, candidate);
    if candidate !in recipes {
      return false, seen;
    }
    SmallerSet(recipes.Keys - seen, recipes.Keys - visited);
    var inputs := recipes[candidate].inputs;
    for i := 0 to |inputs|
      invariant visited + {candidate} <= seen && target !in seen
      invariant forall x :: x in inputs[..i] ==> x in seen
      invariant forall x :: x in seen - visited && x != candidate ==> Successors(InputGraph(recipes), x) <= seen
      invariant |recipes.Keys - seen| < |recipes.Keys - visited|
    {
      assert inputs[..i + 1] == inputs[..i] + [inputs[i]];
      ghost var before := seen;
      found, seen := ReachesTarget(recipes, inputs[i], target, seen);
      if found {
        ReachesStep(InputGraph(recipes), candidate, inputs[i], target);
        return;
      }
      SmallerOrEqualSet(recipes.Keys - seen, recipes.Keys - before);
    }
    assert inputs[..|inputs|] == inputs;
    found := false;
  }

  lemma SuccessorsAreInputs(recipes: map<Symbol, Recipe>, s: Symbol)
    ensures Successors(InputGraph(recipes), s) == if s in recipes then set x | x in recipes[s].inputs else {}
  {
  }

  method InputsReach(recipes: map<Symbol, Recipe>, recipe: Recipe, target: Symbol) returns (found: bool)
    ensures found == ClosesCycle(recipes, target, recipe)
  {
    hide Reaches, InputGraph;
    for i := 0 to |recipe.inputs|
      invariant forall x :: x in recipe.inputs[..i] ==> !Reaches(InputGraph(recipes), x, target)
    {
      assert recipe.inputs[..i + 1] == recipe.inputs[..i] + [recipe.inputs[i]];
      var seen;
      found, seen := ReachesTarget(recipes, recipe.inputs[i], target, {});
      if found {
        assert recipe.inputs[i] in recipe.inputs;
        return;
      }
      assert seen - {} == seen;
      assert SuccessorClosed(InputGraph(recipes), seen);
      if Reaches(InputGraph(recipes), recipe.inputs[i], target) {
        ReachesStaysForward(InputGraph(recipes), seen, recipe.inputs[i], target);
      }
    }
    assert recipe.inputs[..|recipe.inputs|] == recipe.inputs;
    found := false;
  }

  function Reindexed(dependents: set<Symbol>, s: Symbol, wasInput: bool, isInput: bool): set<Symbol> {
    (if wasInput then dependents - {s} else dependents) + if isInput then {s} else {}
  }

  lemma Relinked(before: Graph, after: Graph, recipes: map<Symbol, Recipe>, s: Symbol, recipe: Recipe)
    requires Inverts(before, recipes)
    requires forall x ::
      Successors(after, x) == Reindexed(Successors(before, x), s, s in recipes
                                        && x in recipes[s].inputs, x in recipe.inputs)
    ensures Inverts(after, recipes[s := recipe])
  {
    hide Successors;
  }

  lemma Unlinked(before: Graph, after: Graph, recipes: map<Symbol, Recipe>, s: Symbol)
    requires Inverts(before, recipes) && s in recipes
    requires forall x :: Successors(after, x) == Successors(before, x) - (if x in recipes[s].inputs then {s} else {})
    ensures Inverts(after, recipes - {s})
  {
    hide Successors;
  }

  lemma WithoutRing(rings: Rings, s: Symbol)
    requires LegalRings(rings)
    ensures LegalRings(rings - {s}) && HistoriesOf(rings - {s}) == HistoriesOf(rings) - {s}
  {
  }

  /** Retains and enqueues the inputs not retained yet. */
  method EnqueueInputs(inputs: seq<Symbol>, retained: set<Symbol>, pending: set<Symbol>)
    returns (retained': set<Symbol>, pending': set<Symbol>)
    ensures retained' == retained + set x | x in inputs
    ensures pending' == pending + ((set x | x in inputs) - retained)
  {
    retained', pending' := retained, pending;
    ghost var taken: set<Symbol> := {};
    for i := 0 to |inputs|
      invariant forall x :: x in taken <==> x in inputs[..i]
      invariant retained' == retained + taken && pending' == pending + (taken - retained)
    {
      assert inputs[..i + 1] == inputs[..i] + [inputs[i]];
      taken := taken + {inputs[i]};
      if inputs[i] !in retained' {
        retained', pending' := retained' + {inputs[i]}, pending' + {inputs[i]};
      }
    }
    assert inputs[..|inputs|] == inputs;
  }

  /** The worklist closure of the requested symbols under recipe inputs. */
  method TransitiveInputs(recipes: map<Symbol, Recipe>, symbols: set<Symbol>) returns (retained: set<Symbol>)
    ensures forall s :: s in retained <==> Retained(recipes, symbols, s)
  {
    hide Reaches, InputGraph, Retained;
    retained := symbols;
    var pending := symbols;
    ghost var universe := symbols + set d, x | d in recipes && x in recipes[d].inputs :: x;
    RequestedAreRetained(recipes, symbols);
    while pending != {}
      invariant symbols <= retained <= universe && pending <= retained
      invariant forall x :: x in retained ==> Retained(recipes, symbols, x)
      invariant forall x :: x in retained - pending ==> Successors(InputGraph(recipes), x) <= retained
      decreases universe - retained, pending
    {
      var symbol :| symbol in pending;
      pending := pending - {symbol};
      SuccessorsAreInputs(recipes, symbol);
      if symbol in recipes {
        RetainedInputs(recipes, symbols, symbol);
        retained, pending := EnqueueInputs(recipes[symbol].inputs, retained, pending);
      }
    }
    RetainedIsClosed(recipes, symbols, retained);
  }

  lemma RequestedAreRetained(recipes: map<Symbol, Recipe>, symbols: set<Symbol>)
    ensures forall s :: s in symbols ==> Retained(recipes, symbols, s)
  {
    hide Reaches;
    forall s | s in symbols ensures Retained(recipes, symbols, s) {
      ReachesSelf(InputGraph(recipes), s);
    }
  }

  lemma RetainedInputs(recipes: map<Symbol, Recipe>, symbols: set<Symbol>, s: Symbol)
    requires s in recipes && Retained(recipes, symbols, s)
    ensures forall x :: x in recipes[s].inputs ==> Retained(recipes, symbols, x)
  {
    forall x | x in recipes[s].inputs ensures Retained(recipes, symbols, x) {
      RetainedInput(recipes, symbols, s, x);
    }
  }

  lemma RetainedIsClosed(recipes: map<Symbol, Recipe>, symbols: set<Symbol>, retained: set<Symbol>)
    requires symbols <= retained && forall x :: x in retained ==> Retained(recipes, symbols, x)
    requires forall x :: x in retained ==> Successors(InputGraph(recipes), x) <= retained
    ensures forall s :: s in retained <==> Retained(recipes, symbols, s)
  {
    hide Reaches;
    assert SuccessorClosed(InputGraph(recipes), retained);
    forall s | Retained(recipes, symbols, s) ensures s in retained {
      var r :| r in symbols && Reaches(InputGraph(recipes), r, s);
      ReachesStaysForward(InputGraph(recipes), retained, r, s);
    }
  }

  lemma RetainedRings(st: HistoryState, rings: Rings, histories: Histories, gone: set<Symbol>,
                      symbols: set<Symbol>, retained: set<Symbol>, present: set<Symbol>)
    requires LegalRings(rings) && histories == HistoriesOf(rings) && gone == present - retained && rings.Keys <= present
    requires forall s :: s in retained <==> Retained(st.recipes, symbols, s)
    ensures LegalRings(rings - gone) && HistoriesOf(rings - gone) == RetainHistories(st, histories, symbols)
  {
    hide Retained, ByTime, Increasing;
  }

  lemma RetainedRecords(st: HistoryState, gone: set<Symbol>, obsolete: set<Symbol>, symbols: set<Symbol>,
                        retained: set<Symbol>,
                        one: Rings, five: Rings, daily: Rings)
    requires st.one == HistoriesOf(one) && st.five == HistoriesOf(five) && st.daily == HistoriesOf(daily)
    requires gone == one.Keys + five.Keys + daily.Keys - retained && obsolete == st.recipes.Keys - retained
    requires forall s :: s in retained <==> Retained(st.recipes, symbols, s)
    ensures st.references - (gone + obsolete) == Retain(st, symbols).references
    ensures st.recipes - obsolete == Retain(st, symbols).recipes
  {
    hide Retained, RetainHistories, ByTime;
  }

  // ----- collecting a batch

  lemma LoadNothing(st: HistoryState, points: seq<PricePoint>)
    ensures LoadSymbols(st, points, {}) == st
    ensures points == [] ==> AllSupported(points) && SymbolsOf(points) == {}
  {
    hide LoadedBars;
    assert AffectedByAny(st.recipes, {}) == {};
  }

  lemma OneUnsupported(points: seq<PricePoint>, p: PricePoint)
    requires p in points && p.interval.Unsupported?
    ensures !AllSupported(points)
  {
  }

  lemma SortedMembers(points: seq<PricePoint>)
    ensures forall p :: p in SortByTime(points) <==> p in points
    ensures SymbolsOf(SortByTime(points)) == SymbolsOf(points)
  {
    hide SortByTime;
    SortByTimeContents(points);
    forall p ensures p in SortByTime(points) <==> p in points {
      assert p in SortByTime(points) <==> p in multiset(SortByTime(points));
    }
  }

  /** The dictionaries filled so far hold exactly the batch's contribution to one ring. */
  ghost predicate Collected(prefix: seq<PricePoint>, collected: Histories, ring: Interval) {
    && (forall s :: BarsOf(collected, s) == Incoming(prefix, s, ring))
    && (forall s :: s in collected ==> collected[s] != map[])
  }

  lemma CollectNothing()
    ensures Collected([], map[], OneMinute) && Collected([], map[], FiveMinutes) && Collected([], map[], OneDay)
    ensures SymbolsOf([]) == {}
  {
  }

  lemma CollectOne(prefix: seq<PricePoint>, p: PricePoint, collected: Histories, ring: Interval)
    requires Collected(prefix, collected, ring)
    ensures Collected(prefix + [p], Put(collected, ring, p), ring)
  {
    hide Bucket;
    assert (prefix + [p])[..|prefix|] == prefix;
    forall s ensures BarsOf(Put(collected, ring, p), s) == Incoming(prefix + [p], s, ring) {
      assert BarsOf(collected, s) == Incoming(prefix, s, ring);
    }
    if Feeds(p.interval, ring) {
      assert Bucket(p.timestamp, ring) in Put(collected, ring, p)[p.symbol];
    }
  }

  lemma SymbolsOfSnoc(prefix: seq<PricePoint>, p: PricePoint)
    ensures SymbolsOf(prefix + [p]) == SymbolsOf(prefix) + {p.symbol}
  {
    assert forall q :: q in prefix + [p] <==> q in prefix || q == p;
    assert p in prefix + [p];
  }

  lemma CollectedBars(sorted: seq<PricePoint>, collected: Histories, ring: Interval, s: Symbol)
    requires Collected(sorted, collected, ring)
    ensures BarsOf(collected, s) == Incoming(sorted, s, ring)
    ensures s in collected ==> BarsOf(collected, s).Keys != {}
  {
    hide Incoming;
    if s in collected {
      assert collected[s] != map[];
      assert collected[s].Keys != {};
    }
  }

  // ----- reading

  /** `newer` on top of the part of `older` before its first point. */
  method Overlay(older: seq<PricePoint>, newer: seq<PricePoint>) returns (merged: seq<PricePoint>)
    requires Increasing(older) && Increasing(newer)
    ensures Increasing(merged) && ByTime(merged) == Before(ByTime(older), ByTime(newer)) + ByTime(newer)
  {
    hide ByTime;
    if newer == [] {
      EmptyRing();
      assert Before(ByTime(older), map[]) == ByTime(older);
      return older;
    }
    var cutoff := newer[0].timestamp;
    var kept := 0;
    while kept < |older| && older[kept].timestamp < cutoff
      invariant 0 <= kept <= |older|
      invariant forall j :: 0 <= j < kept ==> older[j].timestamp < cutoff
    {
      kept := kept + 1;
    }
    merged := older[..kept] + newer;
    OverlayMeans(older, newer, kept);
  }

  lemma OverlayMeans(older: seq<PricePoint>, newer: seq<PricePoint>, kept: nat)
    requires Increasing(older) && Increasing(newer) && newer != [] && kept <= |older|
    requires forall j :: 0 <= j < kept ==> older[j].timestamp < newer[0].timestamp
    requires kept < |older| ==> older[kept].timestamp >= newer[0].timestamp
    ensures Increasing(older[..kept] + newer)
    ensures ByTime(older[..kept] + newer) == Before(ByTime(older), ByTime(newer)) + ByTime(newer)
  {
    hide ByTime;
    ByTimeConcat(older[..kept], newer);
    EarlierPart(older, kept, newer[0].timestamp);
    KeysFromHead(newer);
    BeforeHead(ByTime(older), ByTime(newer), newer[0].timestamp);
  }

  /** What lies before all of a ring lies before its first point. */
  lemma BeforeHead(older: Bars, newer: Bars, head: int)
    requires head in newer && forall t :: t in newer ==> t >= head
    ensures Before(older, newer) == map t | t in older && t < head :: older[t]
  {
  }

  lemma KeysFromHead(ring: seq<PricePoint>)
    requires Increasing(ring) && ring != []
    ensures ring[0].timestamp in ByTime(ring) && forall t :: t in ByTime(ring) ==> t >= ring[0].timestamp
  {
    ByTimeContents(ring);
    forall t | t in ByTime(ring) ensures t >= ring[0].timestamp {
      var p := ByTime(ring)[t];
      var i :| 0 <= i < |ring| && ring[i] == p;
    }
  }

  lemma {:induction false} EarlierPart(ring: seq<PricePoint>, kept: nat, cutoff: int)
    requires Increasing(ring) && kept <= |ring|
    requires forall j :: 0 <= j < kept ==> ring[j].timestamp < cutoff
    requires kept < |ring| ==> ring[kept].timestamp >= cutoff
    ensures ByTime(ring[..kept]) == map t | t in ByTime(ring) && t < cutoff :: ByTime(ring)[t]
    decreases |ring|
  {
    if kept < |ring| {
      var n := |ring| - 1;
      assert ring[n].timestamp >= cutoff;
      EarlierPart(ring[..n], kept, cutoff);
      assert ring[..n][..kept] == ring[..kept];
    } else {
      assert ring[..kept] == ring;
      AllBelow(ring, cutoff);
    }
  }

  lemma AllBelow(ring: seq<PricePoint>, cutoff: int)
    requires forall j :: 0 <= j < |ring| ==> ring[j].timestamp < cutoff
    ensures forall t :: t in ByTime(ring) ==> t < cutoff
  {
    ByTimeContents(ring);
    forall t | t in ByTime(ring) ensures t < cutoff {
      var p := ByTime(ring)[t];
      var i :| 0 <= i < |ring| && ring[i] == p;
    }
  }

  lemma LegalShapeMeans(recipe: Recipe)
    ensures LegalShape(recipe) <==>
      match recipe.operation
      case Inverse => |recipe.inputs| == 1
      case Multiply => |recipe.inputs| == 2
      case Divide => |recipe.inputs| == 2
      case Unknown(_) => false
  {
  }

  lemma FoundOrNot(ring: seq<PricePoint>, cutoff: int)
    ensures forall p :: IsLatestOf(ring, cutoff, Some(p)) ==> !IsLatestOf(ring, cutoff, None)
  {
  }

  /** A ring has a point at or before the cutoff exactly when its head is. */
  lemma HeadDecides(ring: seq<PricePoint>, cutoff: int)
    requires Increasing(ring)
    ensures Latest(ByTime(ring), cutoff).Some? <==> ring != [] && ring[0].timestamp <= cutoff
  {
    hide ByTime, Latest;
    LatestIsNone(ByTime(ring), cutoff);
    if ring == [] {
      EmptyRing();
    } else {
      KeysFromHead(ring);
    }
  }

  lemma EmptyInput(compute: Arithmetic, symbol: Symbol, recipe: Recipe, interval: Interval, right: Bars, cutoff: int)
    ensures Latest(DerivedBars(compute, symbol, recipe, interval, ByTime([]), right), cutoff) == None
  {
    LatestIsNone(DerivedBars(compute, symbol, recipe, interval, ByTime([]), right), cutoff);
  }

  lemma EmptyPartner(compute: Arithmetic, symbol: Symbol, recipe: Recipe, interval: Interval, left: Bars, cutoff: int)
    requires !recipe.operation.Inverse?
    ensures Latest(DerivedBars(compute, symbol, recipe, interval, left, ByTime([])), cutoff) == None
  {
    forall t: int ensures Latest(ByTime([]), t) == None {
      assert Upto(map[], t) == map[];
    }
    LatestIsNone(DerivedBars(compute, symbol, recipe, interval, left, ByTime([])), cutoff);
  }

  lemma HistoryKeys(rings: Rings)
    ensures HistoriesOf(rings).Keys == rings.Keys
  {
  }

  lemma PruneNothing(st: HistoryState, now: int)
    ensures PruneSymbols(st, {}, now) == st
  {
    assert (set s | s in {} && Expires(st, s, now)) == {};
    assert AffectedByAny(st.recipes, {}) == {};
  }

  lemma AffectedByOne(recipes: map<Symbol, Recipe>, s: Symbol)
    ensures AffectedByAny(recipes, {s}) == Affected(recipes, s)
  {
    hide Affected;
  }

  /** Rebuilding one ring from incoming and existing points is the load of that ring. */
  lemma ReplacedRingMeans(st: HistoryState, points: seq<PricePoint>, s: Symbol, rings: Rings, ring: Interval,
                          retention: int)
    requires LegalRings(rings)
    ensures var bars :=
      Since(Incoming(SortByTime(points), s, ring) + ByTime(Ring(rings, s)), NewestAfterLoad(st, points, s) - retention);
            var updated := WithRing(rings, s, Sorted(bars));
            LegalRings(updated) && HistoriesOf(updated)
              == LoadHistories(st, points, {s}, HistoriesOf(rings), ring, retention)
  {
    hide Sorted, ByTime, Incoming, SortByTime, NewestAfterLoad, HistoriesOf, LegalRings, WithRing, BarsOf, AllWhole;
    BarsOfRing(rings, s);
    IncomingIsKeyed(SortByTime(points), s, ring);
    ByTimeContents(Ring(rings, s));
    var bars := Since(Incoming(SortByTime(points), s, ring) + ByTime(Ring(rings, s)),
                      NewestAfterLoad(st, points, s) - retention);
    ReplaceRingMeans(rings, s, bars);
    assert bars == LoadedBars(st, points, s, HistoriesOf(rings), ring, retention);
    LoadOneSymbol(st, points, s, HistoriesOf(rings), ring, retention);
  }

  lemma {:induction false} IncomingIsKeyed(sorted: seq<PricePoint>, s: Symbol, ring: Interval)
    ensures KeyedByTime(Incoming(sorted, s, ring))
  {
    if sorted != [] {
      IncomingIsKeyed(sorted[..|sorted| - 1], s, ring);
    }
  }

  lemma LoadOneSymbol(st: HistoryState, points: seq<PricePoint>, s: Symbol, histories: Histories, ring: Interval,
                      retention: int)
    ensures LoadHistories(st, points, {s}, histories, ring, retention) ==
      var bars := LoadedBars(st, points, s, histories, ring, retention);
      if bars == map[] then histories - {s} else histories[s := bars]
  {
    hide LoadedBars;
  }

  lemma RingIsIncreasing(rings: Rings, s: Symbol)
    requires LegalRings(rings)
    ensures Increasing(Ring(rings, s))
  {
  }

  lemma ExpiryOfRings(st: HistoryState, one: Rings, five: Rings, daily: Rings, s: Symbol, now: int)
    requires st.one == HistoriesOf(one) && st.five == HistoriesOf(five) && st.daily == HistoriesOf(daily)
    ensures !Expires(st, s, now) <==>
      && Since(ByTime(Ring(one, s)), now - ONE_MINUTE_RETENTION) == ByTime(Ring(one, s))
      && Since(ByTime(Ring(five, s)), now - FIVE_MINUTE_RETENTION) == ByTime(Ring(five, s))
      && Since(ByTime(Ring(daily, s)), now - DAILY_RETENTION) == ByTime(Ring(daily, s))
  {
    hide ByTime, Since, HistoriesOf, BarsOf;
    BarsOfRing(one, s);
    BarsOfRing(five, s);
    BarsOfRing(daily, s);
  }

  lemma EmptyRing()
    ensures Increasing([]) && ByTime([]) == map[]
  {
  }

  lemma PutOnlyWhereFed(st: HistoryState, p: PricePoint)
    ensures PutPoint(st, p) == match p.interval
      case OneDay => st.(daily := Put(st.daily, OneDay, p))
      case FiveMinutes => st.(five := Put(st.five, FiveMinutes, p))
      case OneMinute => st.(one := Put(st.one, OneMinute, p), five := Put(st.five, FiveMinutes, p))
      case Unsupported(_) => st
  {
  }

  lemma DroppedIsForgetReached(references: map<Symbol, ReferenceEntry>, symbols: set<Symbol>, timestamp: int)
    ensures Dropped(references, symbols, Some(timestamp)) == ForgetReached(references, symbols, timestamp)
  {
  }

  lemma DroppedIsForget(references: map<Symbol, ReferenceEntry>, symbols: set<Symbol>)
    ensures Dropped(references, symbols, None) == Forget(references, symbols)
  {
  }

  lemma PrunedRingMeans(rings: Rings, s: Symbol, kept: seq<PricePoint>, cutoff: int)
    requires LegalRings(rings) && Increasing(kept) && ByTime(kept) == Since(ByTime(Ring(rings, s)), cutoff)
    ensures LegalRings(WithRing(rings, s, kept))
    ensures HistoriesOf(WithRing(rings, s, kept)) == PruneHistories(HistoriesOf(rings), {s}, cutoff)
    ensures Ring(WithRing(rings, s, kept), s) == kept
  {
    hide ByTime, Increasing;
    WithRingMeans(rings, s, kept);
    EmptyRing();
    if s !in rings {
      assert ByTime(kept) == map[];
    }
  }

  lemma PruneOneSymbol(st: HistoryState, s: Symbol, now: int)
    ensures PruneSymbols(st, {s}, now).references
         == if Expires(st, s, now) then Forget(st.references, Affected(st.recipes, s)) else st.references
  {
    hide Expires, Affected;
    if Expires(st, s, now) {
      assert (set x | x in {s} && Expires(st, x, now)) == {s};
      assert AffectedByAny(st.recipes, {s}) == Affected(st.recipes, s);
    } else {
      assert (set x | x in {s} && Expires(st, x, now)) == {};
    }
  }

  lemma InputEdge(recipes: map<Symbol, Recipe>, d: Symbol, x: Symbol)
    requires d in recipes && x in recipes[d].inputs
    ensures x in Successors(InputGraph(recipes), d)
  {
  }

  lemma SmallerSet(a: set<Symbol>, b: set<Symbol>)
    requires a < b
    ensures |a| < |b|
  {
    assert |b - a| > 0;
    assert b == a + (b - a);
  }

  lemma SmallerOrEqualSet(a: set<Symbol>, b: set<Symbol>)
    requires a <= b
    ensures |a| <= |b|
  {
    assert b == a + (b - a);
  }

  /** A set that holds `s`, whose members all depend on `s` and which is closed under dependents. */
  lemma SeenIsAffected(dependents: Graph, recipes: map<Symbol, Recipe>, s: Symbol, seen: set<Symbol>)
    requires Inverts(dependents, recipes) && s in seen
    requires forall x :: x in seen ==> Reaches(InputGraph(recipes), x, s) && Successors(dependents, x) <= seen
    ensures seen == Affected(recipes, s)
  {
    hide Reaches;
    var g := InputGraph(recipes);
    assert PredecessorClosed(g, seen);
    forall x | x in seen && x != s ensures x in recipes {
      var next := ReachesFirstEdge(g, x, s);
    }
    forall d | d in recipes && Reaches(g, d, s) ensures d in seen {
      ReachesStaysBackward(g, seen, d, s);
    }
  }
}
