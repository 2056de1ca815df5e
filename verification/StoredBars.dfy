/**
 What the rings hold, told by the points that were brought: which bar an added point becomes, what a backfill
 contributes, where the bars of a whole run come from, and what a completed activation leaves.
 */
module StoredBars {
  import opened Basics
  import opened SymbolGraph
  import opened PriceBars
  import opened HistoryModel
  import opened HistoryRuns

  function RingOf(st: HistoryState, ring: Interval, s: Symbol): Bars {
    match ring
    case OneMinute => BarsOf(st.one, s)
    case FiveMinutes => BarsOf(st.five, s)
    case OneDay => BarsOf(st.daily, s)
    case Unsupported(_) => map[]
  }

  function Retention(ring: Interval): int {
    match ring
    case OneMinute => 48 * HOUR
    case FiveMinutes => 45 * DAY
    case OneDay => 400 * DAY
    case Unsupported(_) => 0
  }

  /** A one-minute point enters the one- and the five-minute ring, any other point the ring of its interval. */
  predicate Enters(p: PricePoint, ring: Interval) {
    match ring
    case OneMinute => p.interval.OneMinute?
    case FiveMinutes => p.interval.OneMinute? || p.interval.FiveMinutes?
    case OneDay => p.interval.OneDay?
    case Unsupported(_) => false
  }

  /** The bar a ring keeps of a point: all its fields, at the start of its bucket. */
  predicate IsBarOf(bar: PricePoint, p: PricePoint, ring: Interval) {
    && bar.symbol == p.symbol && bar.price == p.price && bar.provider == p.provider && bar.isDerived == p.isDerived
    && bar.interval == ring && bar.timestamp == Bucket(p.timestamp, ring)
  }

  // ----- adding a point

  ghost predicate RingIsAdded(before: Bars, after: Bars, p: PricePoint, ring: Interval) {
    forall t ::
      && (t in after <==>
            (t in before || (Enters(p, ring) && t == Bucket(p.timestamp, ring))) && t >= p.timestamp - Retention(ring))
      && (t in after ==>
            if Enters(p, ring) && t == Bucket(p.timestamp, ring) then IsBarOf(after[t], p, ring)
              else after[t] == before[t])
  }

  /**
   Of the rings of its symbol the point changes its bucket and expires what it makes too old; nothing else changes.
   */
  ghost predicate IsAdded(before: HistoryState, after: HistoryState, p: PricePoint) {
    && after.recipes == before.recipes
    && forall ring: Interval, s ::
         if s == p.symbol && !ring.Unsupported?
           then RingIsAdded(RingOf(before, ring, s), RingOf(after, ring, s), p, ring)
         else RingOf(after, ring, s) == RingOf(before, ring, s)
  }

  lemma PrunedRingOf(st: HistoryState, symbols: set<Symbol>, now: int, ring: Interval, s: Symbol)
    ensures RingOf(PruneSymbols(st, symbols, now), ring, s) ==
      if s in symbols then Since(RingOf(st, ring, s), now - Retention(ring)) else RingOf(st, ring, s)
  {
    hide PruneHistories, Forget, AffectedByAny;
    PrunedRing(st.one, symbols, now - ONE_MINUTE_RETENTION, s);
    PrunedRing(st.five, symbols, now - FIVE_MINUTE_RETENTION, s);
    PrunedRing(st.daily, symbols, now - DAILY_RETENTION, s);
  }

  lemma PutRing(histories: Histories, ring: Interval, p: PricePoint, s: Symbol)
    ensures BarsOf(Put(histories, ring, p), s) ==
      if s == p.symbol && Feeds(p.interval, ring)
      then BarsOf(histories, s)[Bucket(p.timestamp, ring) := Bucketed(p, ring)] else BarsOf(histories, s)
  {
  }

  lemma PutRingOf(st: HistoryState, p: PricePoint, ring: Interval, s: Symbol)
    requires !p.interval.Unsupported?
    ensures RingOf(PutPoint(st, p), ring, s) ==
      if s == p.symbol && Enters(p, ring) then RingOf(st, ring, s)[Bucket(p.timestamp, ring) := Bucketed(p, ring)]
      else RingOf(st, ring, s)
  {
    hide Put, BarsOf, Bucketed;
    PutRing(st.one, OneMinute, p, s);
    PutRing(st.five, FiveMinutes, p, s);
    PutRing(st.daily, OneDay, p, s);
  }

  lemma BucketedIsBarOf(p: PricePoint, ring: Interval)
    ensures IsBarOf(Bucketed(p, ring), p, ring)
  {
  }

  /** Each ring a point enters holds, in the bucket of the point, a bar with the point's own price and origin. */
  lemma AddIs(st: HistoryState, p: PricePoint)
    requires !p.interval.Unsupported?
    ensures IsAdded(st, Add(st, p), p)
  {
    hide PruneSymbols, PutPoint, ForgetReached, Affected, Bucketed, IsBarOf, BarsOf, Bucket;
    forall ring: Interval, s
      ensures if s == p.symbol && !ring.Unsupported?
              then RingIsAdded(RingOf(st, ring, s), RingOf(Add(st, p), ring, s), p, ring)
              else RingOf(Add(st, p), ring, s) == RingOf(st, ring, s)
    {
      PutRingOf(st, p, ring, s);
      PrunedRingOf(PutPoint(st, p), {p.symbol}, p.timestamp, ring, s);
      BucketedIsBarOf(p, ring);
      AddedRingOf(st, p, ring, s);
    }
    AddKeepsRecipes(st, p);
  }

  lemma AddedRingOf(st: HistoryState, p: PricePoint, ring: Interval, s: Symbol)
    requires !p.interval.Unsupported?
    ensures RingOf(Add(st, p), ring, s) == RingOf(PruneSymbols(PutPoint(st, p), {p.symbol}, p.timestamp), ring, s)
  {
    hide PruneSymbols, PutPoint, ForgetReached, Affected, BarsOf;
  }

  lemma AddKeepsRecipes(st: HistoryState, p: PricePoint)
    ensures Add(st, p).recipes == st.recipes
  {
    hide PruneHistories, Put, Affected, Expires;
  }

  // ----- what a backfill contributes

  predicate FillsBucket(p: PricePoint, s: Symbol, ring: Interval, bucket: int) {
    p.symbol == s && Enters(p, ring) && Bucket(p.timestamp, ring) == bucket
  }

  /** Of the points that fall into the bucket the one at `i` is the newest; of equal ones it is the last given. */
  ghost predicate IsNewestOf(points: seq<PricePoint>, s: Symbol, ring: Interval, bucket: int, i: int) {
    && 0 <= i < |points| && FillsBucket(points[i], s, ring, bucket)
    && forall j :: 0 <= j < |points| && FillsBucket(points[j], s, ring, bucket) ==>
         points[j].timestamp < points[i].timestamp || (points[j].timestamp == points[i].timestamp && j <= i)
  }

  /** The last point of a sequence that falls into the bucket. */
  function LastFill(points: seq<PricePoint>, s: Symbol, ring: Interval, bucket: int): Option<PricePoint> {
    if points == [] then None
    else
      var last := points[|points| - 1];
      if FillsBucket(last, s, ring, bucket) then Some(last) else LastFill(points[..|points| - 1], s, ring, bucket)
  }

  lemma {:induction false} LastFillIsThere(points: seq<PricePoint>, s: Symbol, ring: Interval, bucket: int)
    ensures LastFill(points, s, ring, bucket).Some? ==> LastFill(points, s, ring, bucket).value in points
  {
    if points != [] {
      LastFillIsThere(points[..|points| - 1], s, ring, bucket);
    }
  }

  lemma LastFillSnoc(points: seq<PricePoint>, p: PricePoint, s: Symbol, ring: Interval, bucket: int)
    ensures LastFill(points + [p], s, ring, bucket) ==
      if FillsBucket(p, s, ring, bucket) then Some(p) else LastFill(points, s, ring, bucket)
  {
    assert (points + [p])[..|points|] == points;
    hide FillsBucket;
  }

  lemma {:induction false} LastFillOfInserted(sorted: seq<PricePoint>, p: PricePoint, s: Symbol, ring: Interval,
                                              bucket: int)
    requires NonDecreasing(sorted)
    ensures var before := LastFill(sorted, s, ring, bucket);
            LastFill(InsertByTime(sorted, p), s, ring, bucket) ==
              if FillsBucket(p, s, ring, bucket) && (before == None || before.value.timestamp <= p.timestamp)
              then Some(p) else before
  {
    hide FillsBucket;
    LastFillIsThere(sorted, s, ring, bucket);
    if sorted != [] && sorted[|sorted| - 1].timestamp > p.timestamp {
      var front, last := sorted[..|sorted| - 1], sorted[|sorted| - 1];
      assert sorted == front + [last];
      LastFillOfInserted(front, p, s, ring, bucket);
      LastFillSnoc(InsertByTime(front, p), last, s, ring, bucket);
      LastFillSnoc(front, last, s, ring, bucket);
    } else {
      LastFillSnoc(sorted, p, s, ring, bucket);
    }
  }

  /** The sorted sequence ends, bucket by bucket, with the newest point given. */
  lemma {:induction false} LastFillIsNewest(points: seq<PricePoint>, s: Symbol, ring: Interval, bucket: int)
    ensures var last := LastFill(SortByTime(points), s, ring, bucket);
            && (last == None <==> forall j :: 0 <= j < |points| ==> !FillsBucket(points[j], s, ring, bucket))
            && (last.Some? ==> exists i :: IsNewestOf(points, s, ring, bucket, i) && points[i] == last.value)
  {
    hide FillsBucket;
    if points != [] {
      var front, p := points[..|points| - 1], points[|points| - 1];
      assert points == front + [p];
      LastFillIsNewest(front, s, ring, bucket);
      SortByTimeSorts(front);
      LastFillOfInserted(SortByTime(front), p, s, ring, bucket);
      NewestOfSnoc(front, p, s, ring, bucket, LastFill(SortByTime(front), s, ring, bucket));
    }
  }

  lemma NewestOfSnoc(front: seq<PricePoint>, p: PricePoint, s: Symbol, ring: Interval, bucket: int,
                     before: Option<PricePoint>)
    requires before == None <==> forall j :: 0 <= j < |front| ==> !FillsBucket(front[j], s, ring, bucket)
    requires before.Some? ==> exists i :: IsNewestOf(front, s, ring, bucket, i) && front[i] == before.value
    ensures var points := front + [p];
            var last := if FillsBucket(p, s, ring, bucket) && (before == None || before.value.timestamp <= p.timestamp)
                        then Some(p) else before;
            && (last == None <==> forall j :: 0 <= j < |points| ==> !FillsBucket(points[j], s, ring, bucket))
            && (last.Some? ==> exists i :: IsNewestOf(points, s, ring, bucket, i) && points[i] == last.value)
  {
    hide FillsBucket;
    var points := front + [p];
    assert points[|front|] == p && forall j :: 0 <= j < |front| ==> points[j] == front[j];
    if before.Some? {
      var i :| IsNewestOf(front, s, ring, bucket, i) && front[i] == before.value;
      if FillsBucket(p, s, ring, bucket) && front[i].timestamp <= p.timestamp {
        assert IsNewestOf(points, s, ring, bucket, |front|);
      } else {
        assert IsNewestOf(points, s, ring, bucket, i);
      }
    } else if FillsBucket(p, s, ring, bucket) {
      assert IsNewestOf(points, s, ring, bucket, |front|);
    }
  }

  lemma {:induction false} IncomingIsLastFill(sorted: seq<PricePoint>, s: Symbol, ring: Interval, bucket: int)
    requires !ring.Unsupported?
    ensures bucket in Incoming(sorted, s, ring) <==> LastFill(sorted, s, ring, bucket).Some?
    ensures bucket in Incoming(sorted, s, ring) ==>
      IsBarOf(Incoming(sorted, s, ring)[bucket], LastFill(sorted, s, ring, bucket).value, ring)
  {
    hide Bucket;
    if sorted != [] {
      var last := sorted[|sorted| - 1];
      IncomingIsLastFill(sorted[..|sorted| - 1], s, ring, bucket);
      BucketedIsBarOf(last, ring);
    }
  }

  /**
   A loaded ring holds, for each bucket, the existing point if there is one and otherwise a bar with the price and
   origin of the newest incoming point that falls into the bucket.
   */
  lemma LoadPrefersExistingThenNewest(histories: Histories, points: seq<PricePoint>, s: Symbol, ring: Interval,
                                      bucket: int)
    requires !ring.Unsupported?
    ensures var merged, existing := Merged(histories, points, s, ring), BarsOf(histories, s);
      if bucket in existing then bucket in merged && merged[bucket] == existing[bucket]
      else if bucket in merged
      then exists i :: IsNewestOf(points, s, ring, bucket, i) && IsBarOf(merged[bucket], points[i], ring)
      else forall j :: 0 <= j < |points| ==> !FillsBucket(points[j], s, ring, bucket)
  {
    hide FillsBucket, Incoming, IsBarOf, SortByTime, LastFill;
    LastFillIsNewest(points, s, ring, bucket);
    IncomingIsLastFill(SortByTime(points), s, ring, bucket);
  }

  /** The ring has a bar for the bucket, or some incoming point falls into it. */
  ghost predicate IsFilled(bars: Bars, points: seq<PricePoint>, s: Symbol, ring: Interval, bucket: int) {
    bucket in bars || exists j :: 0 <= j < |points| && FillsBucket(points[j], s, ring, bucket)
  }

  /** The last bucket any of the three rings has once the points are in. */
  ghost predicate IsNewest(before: HistoryState, points: seq<PricePoint>, s: Symbol, newest: int) {
    && (exists ring :: IsFilled(RingOf(before, ring, s), points, s, ring, newest))
    && forall ring, t :: IsFilled(RingOf(before, ring, s), points, s, ring, t) ==> t <= newest
  }

  ghost predicate RingIsLoaded(before: Bars, after: Bars, points: seq<PricePoint>, s: Symbol, ring: Interval,
                               newest: int) {
    forall t ::
      && (t in after <==> IsFilled(before, points, s, ring, t) && t >= newest - Retention(ring))
      && (t in after ==>
            if t in before then after[t] == before[t]
            else exists i :: IsNewestOf(points, s, ring, t, i) && IsBarOf(after[t], points[i], ring))
  }

  ghost predicate SymbolIsLoaded(before: HistoryState, after: HistoryState, points: seq<PricePoint>, s: Symbol) {
    exists newest ::
      && IsNewest(before, points, s, newest)
      && forall ring: Interval :: !ring.Unsupported? ==>
           RingIsLoaded(RingOf(before, ring, s), RingOf(after, ring, s), points, s, ring, newest)
  }

  /** Each symbol named gets what its rings lack, within the retention of the newest bar; nothing else changes. */
  ghost predicate IsLoaded(before: HistoryState, after: HistoryState, points: seq<PricePoint>) {
    && after.recipes == before.recipes
    && forall s ::
         if s in SymbolsOf(points) then SymbolIsLoaded(before, after, points, s)
         else forall ring :: RingOf(after, ring, s) == RingOf(before, ring, s)
  }

  function MergedRing(st: HistoryState, points: seq<PricePoint>, ring: Interval, s: Symbol): Bars {
    match ring
    case OneMinute => Merged(st.one, points, s, OneMinute)
    case FiveMinutes => Merged(st.five, points, s, FiveMinutes)
    case OneDay => Merged(st.daily, points, s, OneDay)
    case Unsupported(_) => map[]
  }

  lemma MergedIff(st: HistoryState, points: seq<PricePoint>, ring: Interval, s: Symbol, t: int)
    ensures t in MergedRing(st, points, ring, s) <==> IsFilled(RingOf(st, ring, s), points, s, ring, t)
    ensures t in MergedRing(st, points, ring, s) ==>
      if t in RingOf(st, ring, s) then MergedRing(st, points, ring, s)[t] == RingOf(st, ring, s)[t]
      else exists i :: IsNewestOf(points, s, ring, t, i) && IsBarOf(MergedRing(st, points, ring, s)[t], points[i], ring)
  {
    hide FillsBucket, IsBarOf, Merged;
    match ring
    case OneMinute => LoadPrefersExistingThenNewest(st.one, points, s, ring, t);
    case FiveMinutes => LoadPrefersExistingThenNewest(st.five, points, s, ring, t);
    case OneDay => LoadPrefersExistingThenNewest(st.daily, points, s, ring, t);
    case Unsupported(_) => NothingEnters(points, s, ring, t);
  }

  lemma NothingEnters(points: seq<PricePoint>, s: Symbol, ring: Interval, bucket: int)
    requires ring.Unsupported?
    ensures forall j :: 0 <= j < |points| ==> !FillsBucket(points[j], s, ring, bucket)
  {
  }

  /** A point of a supported interval enters some ring. */
  lemma SomethingIsFilled(st: HistoryState, points: seq<PricePoint>, s: Symbol)
    requires AllSupported(points) && s in SymbolsOf(points)
    ensures exists ring, t :: IsFilled(RingOf(st, ring, s), points, s, ring, t)
  {
    hide RingOf, Bucket;
    var p :| p in points && p.symbol == s;
    var j :| 0 <= j < |points| && points[j] == p;
    assert FillsBucket(points[j], s, p.interval, Bucket(p.timestamp, p.interval));
    assert IsFilled(RingOf(st, p.interval, s), points, s, p.interval, Bucket(p.timestamp, p.interval));
  }

  lemma NewestIsNewest(st: HistoryState, points: seq<PricePoint>, s: Symbol)
    requires exists ring, t :: IsFilled(RingOf(st, ring, s), points, s, ring, t)
    ensures IsNewest(st, points, s, NewestAfterLoad(st, points, s))
  {
    hide IsFilled, RingOf, Merged;
    forall ring, t ensures t in MergedRing(st, points, ring, s) <==> IsFilled(RingOf(st, ring, s), points, s, ring, t) {
      MergedIff(st, points, ring, s, t);
    }
    var ring, t :| IsFilled(RingOf(st, ring, s), points, s, ring, t);
    assert t in MergedRing(st, points, ring, s);
    var newest := NewestAfterLoad(st, points, s);
    assert newest in MergedRing(st, points, OneMinute, s) || newest in MergedRing(st, points, FiveMinutes, s)
           || newest in MergedRing(st, points, OneDay, s);
  }

  lemma LoadedRingOf(st: HistoryState, points: seq<PricePoint>, ring: Interval, s: Symbol)
    ensures RingOf(LoadSymbols(st, points, SymbolsOf(points)), ring, s) ==
      if s in SymbolsOf(points) && !ring.Unsupported?
      then Since(MergedRing(st, points, ring, s), NewestAfterLoad(st, points, s) - Retention(ring))
      else RingOf(st, ring, s)
  {
    hide LoadHistories, Merged, NewestAfterLoad, SymbolsOf, Forget, AffectedByAny;
    var symbols := SymbolsOf(points);
    LoadedRing(st, points, symbols, st.one, OneMinute, ONE_MINUTE_RETENTION, s);
    LoadedRing(st, points, symbols, st.five, FiveMinutes, FIVE_MINUTE_RETENTION, s);
    LoadedRing(st, points, symbols, st.daily, OneDay, DAILY_RETENTION, s);
  }

  /** What a backfill makes of every ring. */
  lemma LoadIs(st: HistoryState, points: seq<PricePoint>)
    requires AllSupported(points)
    ensures IsLoaded(st, Load(st, points), points)
  {
    hide LoadHistories, RingOf, MergedRing, IsFilled, IsNewestOf, IsBarOf, IsNewest, NewestAfterLoad, AffectedByAny,
         Forget, AllSupported;
    var after := Load(st, points);
    forall s ensures if s in SymbolsOf(points) then SymbolIsLoaded(st, after, points, s)
                     else forall ring :: RingOf(after, ring, s) == RingOf(st, ring, s)
    {
      if s in SymbolsOf(points) {
        SomethingIsFilled(st, points, s);
        NewestIsNewest(st, points, s);
        forall ring: Interval | !ring.Unsupported?
          ensures RingIsLoaded(RingOf(st, ring, s), RingOf(after, ring, s), points, s, ring,
                               NewestAfterLoad(st, points, s))
        {
          LoadedRingOf(st, points, ring, s);
          forall t {
            MergedIff(st, points, ring, s, t);
          }
        }
      } else {
        forall ring ensures RingOf(after, ring, s) == RingOf(st, ring, s) {
          LoadedRingOf(st, points, ring, s);
        }
      }
    }
  }

  // ----- where the bars of a run come from

  /** Some call brought the point the bar is made of. */
  ghost predicate IsBrought(calls: seq<Call>, s: Symbol, ring: Interval, t: int, bar: PricePoint) {
    exists i, p ::
      && 0 <= i < |calls| && Brings(calls[i], p)
      && FillsBucket(p, s, ring, t) && IsBarOf(bar, p, ring)
  }

  predicate Brings(call: Call, p: PricePoint) {
    match call
    case AddCall(q) => p == q
    case LoadCall(points) => p in points
    case _ => false
  }

  /** After one call every bar is an old one or made of a point the call brought. */
  lemma StepBrings(compute: Arithmetic, st: HistoryState, call: Call, s: Symbol, ring: Interval, t: int)
    requires WellFormed(st) && t in RingOf(Step(compute, st, call), ring, s)
    ensures var bar := RingOf(Step(compute, st, call), ring, s)[t];
            || (t in RingOf(st, ring, s) && bar == RingOf(st, ring, s)[t])
            || exists p :: Brings(call, p) && FillsBucket(p, s, ring, t) && IsBarOf(bar, p, ring)
  {
    hide Add, Load, PruneSymbols, Retain, Register, ChangeReferences, IsBarOf, Bucket, LegalHistories, Ranked,
         IsNewestOf;
    match call
    case AddCall(p) =>
      if !p.interval.Unsupported? {
        AddIs(st, p);
      } else {
        UnsupportedAddsNothing(st, p);
      }
    case LoadCall(points) => LoadBrings(st, points, s, ring, t);
    case PruneCall(now) => PrunedRingOf(st, Present(st), now, ring, s);
    case RetainCall(symbols) => RetainBrings(st, symbols, s, ring, t);
    case RegisterCall(x, recipe) => RegisterBrings(st, x, recipe, s, ring, t);
    case ReferencesCall(x, asOf) => ReferencesBring(compute, st, x, asOf, s, ring);
  }

  lemma UnsupportedAddsNothing(st: HistoryState, p: PricePoint)
    requires p.interval.Unsupported?
    ensures Add(st, p) == st
  {
  }

  lemma LoadBrings(st: HistoryState, points: seq<PricePoint>, s: Symbol, ring: Interval, t: int)
    requires t in RingOf(Load(st, points), ring, s)
    ensures var bar := RingOf(Load(st, points), ring, s)[t];
            || (t in RingOf(st, ring, s) && bar == RingOf(st, ring, s)[t])
            || exists p :: p in points && FillsBucket(p, s, ring, t) && IsBarOf(bar, p, ring)
  {
    if AllSupported(points) {
      LoadIs(st, points);
      hide Load, RingOf, IsFilled, IsNewest, IsBarOf, FillsBucket, AllSupported;
      if s in SymbolsOf(points) && !ring.Unsupported? && t !in RingOf(st, ring, s) {
        var newest :| IsNewest(st, points, s, newest) && forall r: Interval :: !r.Unsupported? ==>
          RingIsLoaded(RingOf(st, r, s), RingOf(Load(st, points), r, s), points, s, r, newest);
        var i :| IsNewestOf(points, s, ring, t, i) && IsBarOf(RingOf(Load(st, points), ring, s)[t], points[i], ring);
        assert points[i] in points;
      }
    }
  }

  lemma RetainBrings(st: HistoryState, requested: set<Symbol>, s: Symbol, ring: Interval, t: int)
    requires t in RingOf(Retain(st, requested), ring, s)
    ensures t in RingOf(st, ring, s) && RingOf(Retain(st, requested), ring, s)[t] == RingOf(st, ring, s)[t]
  {
    hide RetainHistories, Retained;
    RetainedRing(st, st.one, requested, s);
    RetainedRing(st, st.five, requested, s);
    RetainedRing(st, st.daily, requested, s);
  }

  lemma RegisterBrings(st: HistoryState, x: Symbol, recipe: Recipe, s: Symbol, ring: Interval, t: int)
    requires t in RingOf(Register(st, x, recipe), ring, s)
    ensures t in RingOf(st, ring, s) && RingOf(Register(st, x, recipe), ring, s)[t] == RingOf(st, ring, s)[t]
  {
    hide Installs, Affected;
  }

  lemma ReferencesBring(compute: Arithmetic, st: HistoryState, x: Symbol, asOf: int, s: Symbol, ring: Interval)
    requires LegalRecipes(st.recipes)
    ensures RingOf(ChangeReferences(compute, st, x, asOf), ring, s) == RingOf(st, ring, s)
  {
    hide FreshReferences;
  }

  /**
   Over every run of all six calls: each bar of each ring stood there at the start or has the price and origin of a
   point that some call brought for that very symbol and bucket.
   */
  lemma {:induction false} BarsAreBrought(compute: Arithmetic, st: HistoryState, calls: seq<Call>, s: Symbol,
                                          ring: Interval,
                                          t: int)
    requires WellFormed(st) && t in RingOf(Run(compute, st, calls), ring, s)
    ensures var bar := RingOf(Run(compute, st, calls), ring, s)[t];
            (t in RingOf(st, ring, s) && bar == RingOf(st, ring, s)[t]) || IsBrought(calls, s, ring, t, bar)
    decreases |calls|
  {
    hide Step, RingOf, FillsBucket, IsBarOf, Brings, LegalHistories, Ranked;
    if calls != [] {
      StepIsWellFormed(compute, st, calls[0]);
      var next := Step(compute, st, calls[0]);
      var bar := RingOf(Run(compute, st, calls), ring, s)[t];
      BarsAreBrought(compute, next, calls[1..], s, ring, t);
      if t in RingOf(next, ring, s) && bar == RingOf(next, ring, s)[t] {
        StepBrings(compute, st, calls[0], s, ring, t);
      } else {
        var i, p :|
          0 <= i < |calls[1..]| && Brings(calls[1..][i], p) && FillsBucket(p, s, ring, t) && IsBarOf(bar, p, ring);
        assert Brings(calls[i + 1], p);
      }
    }
  }

  // ----- points added one after the other

  /** The last of the points that fall into the bucket. */
  ghost predicate IsLastFill(points: seq<PricePoint>, s: Symbol, ring: Interval, bucket: int, i: int) {
    && 0 <= i < |points| && FillsBucket(points[i], s, ring, bucket)
    && forall j :: i < j < |points| ==> !FillsBucket(points[j], s, ring, bucket)
  }

  /** No point of the symbol from the `i`-th on makes a bar at `t` too old. */
  ghost predicate Outlives(points: seq<PricePoint>, s: Symbol, ring: Interval, t: int, i: int) {
    forall j :: 0 <= j < |points| && i <= j && points[j].symbol == s && !points[j].interval.Unsupported? ==>
      t >= points[j].timestamp - Retention(ring)
  }

  /**
   What points added one after the other make of one bucket: a bar of the last of them that falls into it, and
   otherwise what was there, in either case unless a point added later made it too old.
   */
  ghost predicate IsFilledBy(before: Bars, after: Bars, points: seq<PricePoint>, s: Symbol, ring: Interval, t: int) {
    && (forall i :: IsLastFill(points, s, ring, t, i) ==>
          (t in after <==> Outlives(points, s, ring, t, i)) && (t in after ==> IsBarOf(after[t], points[i], ring)))
    && ((forall i :: 0 <= i < |points| ==> !FillsBucket(points[i], s, ring, t)) ==>
          (t in after <==> t in before && Outlives(points, s, ring, t, 0)) && (t in after ==> after[t] == before[t]))
  }

  lemma {:induction false} AddsFill(compute: Arithmetic, st: HistoryState, points: seq<PricePoint>, s: Symbol,
                                    ring: Interval,
                                    t: int)
    requires WellFormed(st) && !ring.Unsupported?
    ensures var after := Run(compute, st, WarmCalls(points));
            after.recipes == st.recipes && IsFilledBy(RingOf(st, ring, s), RingOf(after, ring, s), points, s, ring, t)
    decreases |points|
  {
    hide Add, RingOf, IsFilledBy, LegalHistories, Ranked;
    if points == [] {
      NothingFills(RingOf(st, ring, s), s, ring, t);
    } else {
      var p, rest := points[0], points[1..];
      var next := Add(st, p);
      AddIsWellFormed(st, p);
      assert WarmCalls(points)[1..] == WarmCalls(rest);
      AddsFill(compute, next, rest, s, ring, t);
      if p.interval.Unsupported? {
        UnsupportedAddsNothing(st, p);
      } else {
        AddIs(st, p);
      }
      FilledByMore(RingOf(st, ring, s), RingOf(next, ring, s), RingOf(Run(compute, next, WarmCalls(rest)), ring, s), p,
                   rest,
                   s, ring, t);
      assert [p] + rest == points;
    }
  }

  lemma NothingFills(bars: Bars, s: Symbol, ring: Interval, t: int)
    ensures IsFilledBy(bars, bars, [], s, ring, t)
  {
  }

  lemma FilledByMore(before: Bars, middle: Bars, after: Bars, p: PricePoint, rest: seq<PricePoint>, s: Symbol,
                     ring: Interval, t: int)
    requires IsFilledBy(middle, after, rest, s, ring, t) && !ring.Unsupported?
    requires if s == p.symbol && !p.interval.Unsupported? then RingIsAdded(before, middle, p, ring)
      else middle == before
    ensures IsFilledBy(before, after, [p] + rest, s, ring, t)
  {
    hide IsBarOf, Bucket, Outlives;
    var points := [p] + rest;
    assert points[0] == p && forall j :: 0 <= j < |rest| ==> points[j + 1] == rest[j];
    assert forall j :: 1 <= j < |points| ==> points[j] == rest[j - 1];
    UnsupportedFillsNothing(p, s, ring, t);
    forall i | 0 <= i < |rest| ensures Outlives(points, s, ring, t, i + 1) <==> Outlives(rest, s, ring, t, i) {
      OutlivesMore(p, rest, s, ring, t, i);
    }
    OutlivesAll(p, rest, s, ring, t);
    forall i | IsLastFill(points, s, ring, t, i)
      ensures t in after <==> Outlives(points, s, ring, t, i)
      ensures t in after ==> IsBarOf(after[t], points[i], ring)
    {
      if i > 0 {
        assert IsLastFill(rest, s, ring, t, i - 1);
      } else {
        assert forall j :: 0 <= j < |rest| ==> !FillsBucket(rest[j], s, ring, t);
      }
    }
  }

  lemma UnsupportedFillsNothing(p: PricePoint, s: Symbol, ring: Interval, t: int)
    ensures p.interval.Unsupported? || ring.Unsupported? ==> !FillsBucket(p, s, ring, t)
  {
  }

  lemma OutlivesMore(p: PricePoint, rest: seq<PricePoint>, s: Symbol, ring: Interval, t: int, i: nat)
    ensures Outlives([p] + rest, s, ring, t, i + 1) <==> Outlives(rest, s, ring, t, i)
  {
    var points := [p] + rest;
    assert forall j :: 0 <= j < |rest| ==> points[j + 1] == rest[j];
    if Outlives(rest, s, ring, t, i) {
      forall j | 0 <= j < |points| && i + 1 <= j && points[j].symbol == s && !points[j].interval.Unsupported?
        ensures t >= points[j].timestamp - Retention(ring)
      {
        assert points[j] == rest[j - 1];
      }
    }
    if Outlives(points, s, ring, t, i + 1) {
      forall j | 0 <= j < |rest| && i <= j && rest[j].symbol == s && !rest[j].interval.Unsupported?
        ensures t >= rest[j].timestamp - Retention(ring)
      {
        assert points[j + 1] == rest[j];
      }
    }
  }

  lemma OutlivesAll(p: PricePoint, rest: seq<PricePoint>, s: Symbol, ring: Interval, t: int)
    ensures Outlives([p] + rest, s, ring, t, 0) <==>
      (p.symbol == s && !p.interval.Unsupported? ==> t >= p.timestamp - Retention(ring))
        && Outlives(rest, s, ring, t, 0)
  {
    var points := [p] + rest;
    OutlivesMore(p, rest, s, ring, t, 0);
    assert points[0] == p;
  }

  // ----- what a completed activation leaves

  /**
   A completed activation keeps the closure of the new generation and nothing else. Each warm price has its bar, unless
   a later warm price fell into the same bucket or made it too old. A symbol the archive held nothing of otherwise has
   the bars it would have without the attempt, and all of them if it has no warm price either.
   */
  ghost predicate HistoryAdvanced(after: HistoryState, alone: HistoryState, archive: seq<PricePoint>,
                                  warm: seq<PricePoint>,
                                  closure: set<Symbol>)
  {
    forall s ::
      if Retained(alone.recipes, closure, s) then SymbolAdvanced(after, alone, archive, warm, s)
      else s !in after.one && s !in after.five && s !in after.daily && s !in after.recipes
  }

  ghost predicate SymbolAdvanced(after: HistoryState, alone: HistoryState, archive: seq<PricePoint>,
                                 warm: seq<PricePoint>,
                                 s: Symbol)
  {
    && (s in after.recipes <==> s in alone.recipes) && (s in after.recipes ==> after.recipes[s] == alone.recipes[s])
    && (forall ring: Interval, i :: !ring.Unsupported? && 0 <= i < |warm| && warm[i].symbol == s ==>
          HasBarOf(after, warm, i, ring))
    && (s !in SymbolsOf(archive) ==>
          && (forall ring: Interval, t :: !ring.Unsupported? ==>
                IsFilledBy(RingOf(alone, ring, s), RingOf(after, ring, s), warm, s, ring, t))
          && (s !in SymbolsOf(warm) ==> SameRings(after, alone, s)))
  }

  /** The point has its bar unless a later one fell into the bucket or made it too old. */
  ghost predicate HasBarOf(after: HistoryState, points: seq<PricePoint>, i: int, ring: Interval)
    requires 0 <= i < |points|
  {
    var p, bucket := points[i], Bucket(points[i].timestamp, ring);
    Enters(p, ring) && IsLastFill(points, p.symbol, ring, bucket, i) && Outlives(points, p.symbol, ring, bucket, i) ==>
      bucket in RingOf(after, ring, p.symbol) && IsBarOf(RingOf(after, ring, p.symbol)[bucket], p, ring)
  }

  lemma FilledHasBar(before: Bars, after: HistoryState, points: seq<PricePoint>, i: int, ring: Interval)
    requires 0 <= i < |points| && !ring.Unsupported?
    requires IsFilledBy(before, RingOf(after, ring, points[i].symbol), points, points[i].symbol, ring,
                        Bucket(points[i].timestamp, ring))
    ensures HasBarOf(after, points, i, ring)
  {
    hide RingOf, Bucket, IsBarOf, Outlives;
  }

  lemma RetainedRingOf(st: HistoryState, requested: set<Symbol>, ring: Interval, s: Symbol)
    requires Retained(st.recipes, requested, s)
    ensures RingOf(Retain(st, requested), ring, s) == RingOf(st, ring, s)
  {
    hide RetainHistories, Retained;
    RetainedRing(st, st.one, requested, s);
    RetainedRing(st, st.five, requested, s);
    RetainedRing(st, st.daily, requested, s);
  }

  lemma RetainedRecipe(st: HistoryState, requested: set<Symbol>, s: Symbol)
    ensures var after := Retain(st, requested);
            if Retained(st.recipes, requested, s)
            then (s in after.recipes <==> s in st.recipes) && (s in after.recipes ==> after.recipes[s] == st.recipes[s])
            else s !in after.one && s !in after.five && s !in after.daily && s !in after.recipes
  {
    hide Retained;
  }

  lemma SameRingsOf(a: HistoryState, b: HistoryState, s: Symbol)
    ensures SameRings(a, b, s) <==> forall ring :: RingOf(a, ring, s) == RingOf(b, ring, s)
  {
    hide BarsOf;
    if forall ring :: RingOf(a, ring, s) == RingOf(b, ring, s) {
      assert RingOf(a, OneMinute, s) == RingOf(b, OneMinute, s)
        && RingOf(a, FiveMinutes, s) == RingOf(b, FiveMinutes, s)
             && RingOf(a, OneDay, s) == RingOf(b, OneDay, s);
    }
  }

  lemma UnfilledIsSame(before: Bars, after: Bars, points: seq<PricePoint>, s: Symbol, ring: Interval)
    requires s !in SymbolsOf(points) && forall t :: IsFilledBy(before, after, points, s, ring, t)
    ensures after == before
  {
    hide Bucket, IsBarOf;
    forall i | 0 <= i < |points| ensures points[i].symbol != s {
      assert points[i] in points;
    }
    forall t ensures (t in after <==> t in before) && (t in after ==> after[t] == before[t]) {
      assert IsFilledBy(before, after, points, s, ring, t);
    }
  }

  lemma ArchiveKeepsOthers(compute: Arithmetic, st: HistoryState, traffic: Traffic)
    requires WellFormed(st)
    ensures AgreeOutside(Attempted(compute, st, traffic, true), Unattempted(compute, st, traffic),
                         SymbolsOf(traffic.archive))
  {
    hide Run, Load, SymbolsOf, SameRings, LegalHistories, Ranked;
    var before := Run(compute, st, traffic.earlier);
    LoadIsWellFormed(before, traffic.archive);
    RestoringAgrees(before, traffic.archive);
    RunsAgree(compute, Load(before, traffic.archive), before, traffic.later, SymbolsOf(traffic.archive));
  }

  /** What the end of a successful activation makes of the history, symbol by symbol. */
  lemma SuccessAdvances(compute: Arithmetic, st: HistoryState, traffic: Traffic, closure: set<Symbol>)
    requires WellFormed(st)
    ensures HistoryAdvanced(AfterSuccess(compute, st, traffic, closure), Unattempted(compute, st, traffic),
                            traffic.archive,
                            traffic.warm, closure)
  {
    hide Attempted, Unattempted, Run, WarmCalls, Retain, Retained, RingOf, SymbolAdvanced, SymbolsOf, SameRings;
    var middle, alone := Attempted(compute, st, traffic, true), Unattempted(compute, st, traffic);
    var warmed, after := Run(compute, middle, WarmCalls(traffic.warm)), AfterSuccess(compute, st, traffic, closure);
    ArchiveKeepsOthers(compute, st, traffic);
    AddsKeepRecipes(compute, middle, traffic.warm);
    forall s
      ensures if Retained(alone.recipes, closure, s) then SymbolAdvanced(after, alone, traffic.archive, traffic.warm, s)
              else s !in after.one && s !in after.five && s !in after.daily && s !in after.recipes
    {
      RetainedRecipe(warmed, closure, s);
      if Retained(alone.recipes, closure, s) {
        forall ring: Interval, t | !ring.Unsupported?
          ensures IsFilledBy(RingOf(middle, ring, s), RingOf(after, ring, s), traffic.warm, s, ring, t)
        {
          AddsFill(compute, middle, traffic.warm, s, ring, t);
          RetainedRingOf(warmed, closure, ring, s);
        }
        FilledAdvances(middle, after, alone, traffic.archive, traffic.warm, s);
      }
    }
  }

  lemma FilledAdvances(middle: HistoryState, after: HistoryState, alone: HistoryState, archive: seq<PricePoint>,
                       warm: seq<PricePoint>, s: Symbol)
    requires (s in after.recipes <==> s in alone.recipes)
      && (s in after.recipes ==> after.recipes[s] == alone.recipes[s])
    requires s !in SymbolsOf(archive) ==> SameRings(middle, alone, s)
    requires forall ring: Interval, t :: !ring.Unsupported? ==>
      IsFilledBy(RingOf(middle, ring, s), RingOf(after, ring, s), warm, s, ring, t)
    ensures SymbolAdvanced(after, alone, archive, warm, s)
  {
    hide RingOf, SameRings, IsFilledBy, HasBarOf, SymbolsOf;
    forall ring: Interval, i | !ring.Unsupported? && 0 <= i < |warm| && warm[i].symbol == s
      ensures HasBarOf(after, warm, i, ring)
    {
      FilledHasBar(RingOf(middle, ring, s), after, warm, i, ring);
    }
    if s !in SymbolsOf(archive) {
      SameRingsOf(middle, alone, s);
      SameRingsOf(after, alone, s);
      if s !in SymbolsOf(warm) {
        forall ring ensures RingOf(after, ring, s) == RingOf(alone, ring, s) {
          UnfilledRing(middle, after, warm, s, ring);
        }
      }
    }
  }

  lemma UnfilledRing(before: HistoryState, after: HistoryState, points: seq<PricePoint>, s: Symbol, ring: Interval)
    requires s !in SymbolsOf(points)
    requires !ring.Unsupported? ==>
      forall t :: IsFilledBy(RingOf(before, ring, s), RingOf(after, ring, s), points, s, ring, t)
    ensures RingOf(after, ring, s) == RingOf(before, ring, s)
  {
    if !ring.Unsupported? {
      hide IsFilledBy, RingOf;
      UnfilledIsSame(RingOf(before, ring, s), RingOf(after, ring, s), points, s, ring);
    }
  }

  lemma AddsKeepRecipes(compute: Arithmetic, st: HistoryState, points: seq<PricePoint>)
    requires WellFormed(st)
    ensures Run(compute, st, WarmCalls(points)).recipes == st.recipes
  {
    hide Run, WarmCalls, IsFilledBy, RingOf;
    AddsFill(compute, st, points, Symbol(""), OneMinute, 0);
  }
}
