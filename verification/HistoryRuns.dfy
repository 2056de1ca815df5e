/**
 Properties of whole runs of the history cache: its structural invariant, the acyclic recipe
 graph, and the coherence of the minute-local reference cache with a fresh lookup.
 */
module HistoryRuns {
  import opened Basics
  import opened SymbolGraph
  import opened PriceBars
  import opened HistoryModel

  // ----- references depend on prefixes only

  /** The symbols whose rings a lookup of `s` reads. */
  ghost function Sources(recipes: map<Symbol, Recipe>, s: Symbol): set<Symbol> {
    if s in recipes then set x | x in recipes[s].inputs else {s}
  }

  ghost predicate SamePrefixes(a: HistoryState, ca: int, b: HistoryState, cb: int, x: Symbol) {
    && Upto(BarsOf(a.one, x), ca) == Upto(BarsOf(b.one, x), cb)
    && Upto(BarsOf(a.five, x), ca) == Upto(BarsOf(b.five, x), cb)
    && Upto(BarsOf(a.daily, x), ca) == Upto(BarsOf(b.daily, x), cb)
  }

  ghost predicate SameRecipe(a: HistoryState, b: HistoryState, s: Symbol) {
    if s in a.recipes then s in b.recipes && a.recipes[s] == b.recipes[s] else s !in b.recipes
  }

  lemma DerivedFromPrefixes(compute: Arithmetic, s: Symbol, recipe: Recipe, interval: Interval,
                            a: Histories, ca: int, b: Histories, cb: int)
    requires LegalRecipe(recipe)
    requires forall x :: x in a ==> KeyedByTime(a[x])
    requires forall x :: x in b ==> KeyedByTime(b[x])
    requires forall x :: x in recipe.inputs ==> Upto(BarsOf(a, x), ca) == Upto(BarsOf(b, x), cb)
    ensures Latest(DerivedHistory(compute, a, s, recipe, interval), ca)
         == Latest(DerivedHistory(compute, b, s, recipe, interval), cb)
  {
    var left, right := recipe.inputs[0], recipe.inputs[|recipe.inputs| - 1];
    DerivedPrefix(compute, s, recipe, interval, BarsOf(a, left), BarsOf(a, right), ca);
    DerivedPrefix(compute, s, recipe, interval, BarsOf(b, left), BarsOf(b, right), cb);
  }

  lemma ReferenceFromPrefixes(compute: Arithmetic, a: HistoryState, ca: int, b: HistoryState, cb: int, s: Symbol)
    requires WellFormed(a) && WellFormed(b) && SameRecipe(a, b, s)
    requires forall x :: x in Sources(a.recipes, s) ==> SamePrefixes(a, ca, b, cb, x)
    ensures Reference(compute, a, s, ca) == Reference(compute, b, s, cb)
  {
    if s in a.recipes {
      var recipe := a.recipes[s];
      assert forall x :: x in recipe.inputs ==> x in Sources(a.recipes, s);
      DerivedFromPrefixes(compute, s, recipe, OneMinute, a.one, ca, b.one, cb);
      DerivedFromPrefixes(compute, s, recipe, FiveMinutes, a.five, ca, b.five, cb);
      DerivedFromPrefixes(compute, s, recipe, OneDay, a.daily, ca, b.daily, cb);
    } else {
      assert SamePrefixes(a, ca, b, cb, s);
    }
  }

  lemma ShiftByWholeMinutes(a: int, n: int)
    ensures MinuteOf(a - n * MINUTE) == MinuteOf(a) - n * MINUTE
  {
    var minutes, rest := a / MINUTE, a % MINUTE;
    assert a - n * MINUTE == (minutes - n) * MINUTE + rest;
  }

  lemma ShiftWithinMinute(a: int, b: int, w: Window)
    requires MinuteOf(a) == MinuteOf(b)
    ensures MinuteOf(a - Duration(w)) == MinuteOf(b - Duration(w))
  {
    hide Bucket;
    DurationsAreWholeMinutes(w);
    var n := Duration(w) / MINUTE;
    assert Duration(w) == n * MINUTE;
    ShiftByWholeMinutes(a, n);
    ShiftByWholeMinutes(b, n);
  }

  lemma PrefixesStableWithinMinute(st: HistoryState, a: int, b: int, x: Symbol)
    requires WellFormed(st) && WholeMinuteDaily(st) && MinuteOf(a) == MinuteOf(b)
    ensures SamePrefixes(st, a, st, b, x)
  {
    FiveMinuteBarsAreWhole(BarsOf(st.five, x));
    UptoWithinMinute(BarsOf(st.one, x), a, b);
    UptoWithinMinute(BarsOf(st.five, x), a, b);
    UptoWithinMinute(BarsOf(st.daily, x), a, b);
  }

  lemma ReferenceStableWithinMinute(compute: Arithmetic, st: HistoryState, s: Symbol, a: int, b: int)
    requires WellFormed(st) && WholeMinuteDaily(st) && MinuteOf(a) == MinuteOf(b)
    ensures Reference(compute, st, s, a) == Reference(compute, st, s, b)
  {
    forall x | x in Sources(st.recipes, s) ensures SamePrefixes(st, a, st, b, x) {
      PrefixesStableWithinMinute(st, a, b, x);
    }
    ReferenceFromPrefixes(compute, st, a, st, b, s);
  }

  /** On whole-minute rings the six references are the same for every instant of one minute. */
  lemma ReferencesStableWithinMinute(compute: Arithmetic, st: HistoryState, s: Symbol, a: int, b: int)
    requires WellFormed(st) && WholeMinuteDaily(st) && MinuteOf(a) == MinuteOf(b)
    ensures FreshReferences(compute, st, s, a) == FreshReferences(compute, st, s, b)
  {
    hide Reference;
    forall w: Window
      ensures Reference(compute, st, s, a - Duration(w)) == Reference(compute, st, s, b - Duration(w))
    {
      ShiftWithinMinute(a, b, w);
      ReferenceStableWithinMinute(compute, st, s, a - Duration(w), b - Duration(w));
    }
  }

  lemma FiveMinuteBarsAreWhole(bars: Bars)
    requires AllWhole(bars, FIVE_MINUTES)
    ensures AllWhole(bars, MINUTE)
  {
    forall t | t in bars ensures t % MINUTE == 0 {
      FiveMinutesAreWholeMinutes(t);
    }
  }

  /** No ring read for `s` changes at or before `latest`. */
  ghost predicate PrefixesKept(before: HistoryState, after: HistoryState, s: Symbol, latest: int) {
    forall x, c :: x in Sources(before.recipes, s) && c <= latest ==> SamePrefixes(before, c, after, c, x)
  }

  lemma FreshReferencesKept(compute: Arithmetic, before: HistoryState, after: HistoryState, s: Symbol, asOf: int)
    requires WellFormed(before) && WellFormed(after) && SameRecipe(before, after, s)
    requires PrefixesKept(before, after, s, asOf - HOUR)
    ensures FreshReferences(compute, before, s, asOf) == FreshReferences(compute, after, s, asOf)
  {
    hide Reference;
    forall w: Window
      ensures Reference(compute, before, s, asOf - Duration(w)) == Reference(compute, after, s, asOf - Duration(w))
    {
      DurationsAreWholeMinutes(w);
      ReferenceFromPrefixes(compute, before, asOf - Duration(w), after, asOf - Duration(w), s);
    }
  }

  /** An entry stays fresh when no ring it reads changes at or before its latest cutoff. */
  lemma EntrySurvives(compute: Arithmetic, before: HistoryState, after: HistoryState, s: Symbol)
    requires WellFormed(before) && WellFormed(after) && WholeMinuteDaily(after)
    requires s in before.references && s in after.references && before.references[s] == after.references[s]
    requires EntryIsFresh(compute, before, s) && SameRecipe(before, after, s)
    requires PrefixesKept(before, after, s, before.references[s].asOf - HOUR)
    ensures EntryIsFresh(compute, after, s)
  {
    var entry := before.references[s];
    FreshReferencesKept(compute, before, after, s, entry.asOf);
    forall asOf | MinuteOf(asOf) == MinuteOf(entry.asOf)
      ensures entry.references == FreshReferences(compute, after, s, asOf)
    {
      ReferencesStableWithinMinute(compute, after, s, entry.asOf, asOf);
    }
  }

  /** A symbol whose own rings are read by `s` counts `s` among the affected. */
  lemma SourceAffects(recipes: map<Symbol, Recipe>, s: Symbol, x: Symbol)
    requires x in Sources(recipes, s)
    ensures s in Affected(recipes, x)
  {
    if s in recipes {
      ReachesSelf(InputGraph(recipes), x);
      ReachesStep(InputGraph(recipes), s, x, x);
    }
  }

  // ----- structural invariant of every operation

  lemma SinceIsLegal(bars: Bars, cutoff: int, unit: int)
    requires unit > 0 && KeyedByTime(bars) && AllWhole(bars, unit)
    ensures KeyedByTime(Since(bars, cutoff)) && AllWhole(Since(bars, cutoff), unit)
  {
  }

  lemma PrunedHistoriesAreLegal(histories: Histories, symbols: set<Symbol>, cutoff: int, unit: int)
    requires unit > 0 && LegalHistories(histories, unit)
    ensures LegalHistories(PruneHistories(histories, symbols, cutoff), unit)
  {
  }

  lemma PruneIsWellFormed(st: HistoryState, symbols: set<Symbol>, now: int)
    requires WellFormed(st)
    ensures WellFormed(PruneSymbols(st, symbols, now))
    ensures WholeMinuteDaily(st) ==> WholeMinuteDaily(PruneSymbols(st, symbols, now))
  {
    hide Reaches, Affected, Expires;
    PrunedHistoriesAreLegal(st.one, symbols, now - ONE_MINUTE_RETENTION, MINUTE);
    PrunedHistoriesAreLegal(st.five, symbols, now - FIVE_MINUTE_RETENTION, FIVE_MINUTES);
    PrunedHistoriesAreLegal(st.daily, symbols, now - DAILY_RETENTION, 1);
    if WholeMinuteDaily(st) {
      PrunedHistoriesAreLegal(st.daily, symbols, now - DAILY_RETENTION, MINUTE);
    }
  }

  lemma PutIsLegal(histories: Histories, ring: Interval, p: PricePoint, unit: int)
    requires unit > 0 && LegalHistories(histories, unit)
    requires Feeds(p.interval, ring) ==> Bucket(p.timestamp, ring) % unit == 0
    ensures LegalHistories(Put(histories, ring, p), unit)
  {
    if Feeds(p.interval, ring) {
      assert Bucket(p.timestamp, ring) in Put(histories, ring, p)[p.symbol];
    }
  }

  /** The daily timestamps a caller supplies are whole minutes. */
  ghost predicate WholeMinuteIfDaily(p: PricePoint) {
    p.interval.OneDay? ==> p.timestamp % MINUTE == 0
  }

  lemma PutIsWellFormed(st: HistoryState, p: PricePoint)
    requires WellFormed(st) && !p.interval.Unsupported?
    ensures WellFormed(PutPoint(st, p))
    ensures WholeMinuteDaily(st) && WholeMinuteIfDaily(p) ==> WholeMinuteDaily(PutPoint(st, p))
  {
    PutIsLegal(st.one, OneMinute, p, MINUTE);
    PutIsLegal(st.five, FiveMinutes, p, FIVE_MINUTES);
    PutIsLegal(st.daily, OneDay, p, 1);
    if WholeMinuteDaily(st) && WholeMinuteIfDaily(p) {
      PutIsLegal(st.daily, OneDay, p, MINUTE);
    }
  }

  lemma AddIsWellFormed(st: HistoryState, p: PricePoint)
    requires WellFormed(st)
    ensures WellFormed(Add(st, p))
    ensures WholeMinuteDaily(st) && WholeMinuteIfDaily(p) ==> WholeMinuteDaily(Add(st, p))
  {
    hide Reaches, Affected, Expires;
    if !p.interval.Unsupported? {
      PutIsWellFormed(st, p);
      PruneIsWellFormed(PutPoint(st, p), {p.symbol}, p.timestamp);
    }
  }

  lemma {:induction false} IncomingIsLegal(sorted: seq<PricePoint>, s: Symbol, ring: Interval, unit: int)
    requires unit > 0
    requires forall p :: p in sorted && Feeds(p.interval, ring) ==> Bucket(p.timestamp, ring) % unit == 0
    ensures KeyedByTime(Incoming(sorted, s, ring)) && AllWhole(Incoming(sorted, s, ring), unit)
  {
    if sorted != [] {
      IncomingIsLegal(sorted[..|sorted| - 1], s, ring, unit);
    }
  }

  lemma LoadedHistoriesAreLegal(st: HistoryState, points: seq<PricePoint>, symbols: set<Symbol>, histories: Histories,
                                ring: Interval, retention: int, unit: int)
    requires unit > 0 && LegalHistories(histories, unit)
    requires forall p :: p in points && Feeds(p.interval, ring) ==> Bucket(p.timestamp, ring) % unit == 0
    ensures LegalHistories(LoadHistories(st, points, symbols, histories, ring, retention), unit)
  {
    hide NewestAfterLoad;
    var result := LoadHistories(st, points, symbols, histories, ring, retention);
    forall s | s in result && s in symbols ensures KeyedByTime(result[s]) && AllWhole(result[s], unit) {
      forall p | p in SortByTime(points) ensures p in points {
        SortByTimeContents(points);
        assert p in multiset(SortByTime(points));
      }
      IncomingIsLegal(SortByTime(points), s, ring, unit);
      SinceIsLegal(Merged(histories, points, s, ring), NewestAfterLoad(st, points, s) - retention, unit);
    }
  }

  lemma LoadSymbolsIsWellFormed(st: HistoryState, points: seq<PricePoint>, symbols: set<Symbol>)
    requires WellFormed(st)
    ensures WellFormed(LoadSymbols(st, points, symbols))
    ensures WholeMinuteDaily(st) && (forall p :: p in points ==> WholeMinuteIfDaily(p)) ==>
      WholeMinuteDaily(LoadSymbols(st, points, symbols))
  {
    hide Reaches, Affected, LoadHistories;
    LoadedHistoriesAreLegal(st, points, symbols, st.one, OneMinute, ONE_MINUTE_RETENTION, MINUTE);
    LoadedHistoriesAreLegal(st, points, symbols, st.five, FiveMinutes, FIVE_MINUTE_RETENTION, FIVE_MINUTES);
    LoadedHistoriesAreLegal(st, points, symbols, st.daily, OneDay, DAILY_RETENTION, 1);
    if WholeMinuteDaily(st) && forall p :: p in points ==> WholeMinuteIfDaily(p) {
      LoadedHistoriesAreLegal(st, points, symbols, st.daily, OneDay, DAILY_RETENTION, MINUTE);
    }
  }

  lemma LoadIsWellFormed(st: HistoryState, points: seq<PricePoint>)
    requires WellFormed(st)
    ensures WellFormed(Load(st, points))
    ensures WholeMinuteDaily(st) && (forall p :: p in points ==> WholeMinuteIfDaily(p)) ==>
      WholeMinuteDaily(Load(st, points))
  {
    hide WellFormed, WholeMinuteDaily, LoadSymbols;
    LoadSymbolsIsWellFormed(st, points, SymbolsOf(points));
  }

  lemma RetainIsWellFormed(st: HistoryState, requested: set<Symbol>)
    requires WellFormed(st)
    ensures WellFormed(Retain(st, requested))
    ensures WholeMinuteDaily(st) ==> WholeMinuteDaily(Retain(st, requested))
  {
    hide Retained;
    RankedAfterRemoving(InputGraph(st.recipes), InputGraph(Retain(st, requested).recipes));
  }

  lemma RegisterIsWellFormed(st: HistoryState, s: Symbol, recipe: Recipe)
    requires WellFormed(st)
    ensures WellFormed(Register(st, s, recipe))
    ensures WholeMinuteDaily(st) ==> WholeMinuteDaily(Register(st, s, recipe))
  {
    hide Affected, Reaches;
    if LegalRecipe(recipe) && !ClosesCycle(st.recipes, s, recipe) {
      var inputs := set x | x in recipe.inputs;
      RankedAfterSetting(InputGraph(st.recipes), s, inputs);
      assert InputGraph(st.recipes[s := recipe]) == InputGraph(st.recipes)[s := inputs];
    }
  }

  // ----- coherence of every operation

  /** Rings the symbol's entry reads are untouched by an expiry that leaves the entry alone. */
  lemma PruneKeepsUnexpired(st: HistoryState, symbols: set<Symbol>, now: int, x: Symbol)
    requires WellFormed(st) && (x in symbols ==> !Expires(st, x, now))
    ensures var after := PruneSymbols(st, symbols, now);
            && BarsOf(after.one, x) == BarsOf(st.one, x)
            && BarsOf(after.five, x) == BarsOf(st.five, x)
            && BarsOf(after.daily, x) == BarsOf(st.daily, x)
  {
    hide PruneHistories, Forget, AffectedByAny, LegalHistories, Ranked;
    PrunedRing(st.one, symbols, now - ONE_MINUTE_RETENTION, x);
    PrunedRing(st.five, symbols, now - FIVE_MINUTE_RETENTION, x);
    PrunedRing(st.daily, symbols, now - DAILY_RETENTION, x);
  }

  /** A cached symbol that survives an expiry reads no ring that expired. */
  lemma SurvivorReadsUnexpired(st: HistoryState, symbols: set<Symbol>, now: int, k: Symbol, x: Symbol)
    requires k in PruneSymbols(st, symbols, now).references && x in Sources(st.recipes, k) && x in symbols
    ensures !Expires(st, x, now)
  {
    hide Expires;
    SourceAffects(st.recipes, k, x);
  }

  lemma PruneKeepsEntry(compute: Arithmetic, st: HistoryState, symbols: set<Symbol>, now: int, k: Symbol)
    requires WellFormed(st) && WholeMinuteDaily(st) && k in PruneSymbols(st, symbols, now).references
    requires k in st.references && EntryIsFresh(compute, st, k)
    ensures var after := PruneSymbols(st, symbols, now);
            WellFormed(after) && EntryIsFresh(compute, after, k) && after.references[k] == st.references[k]
  {
    hide Expires, EntryIsFresh;
    var after := PruneSymbols(st, symbols, now);
    PruneIsWellFormed(st, symbols, now);
    forall x, c | x in Sources(st.recipes, k) && c <= st.references[k].asOf - HOUR
      ensures SamePrefixes(st, c, after, c, x) {
      if x in symbols {
        SurvivorReadsUnexpired(st, symbols, now, k, x);
      }
      PruneKeepsUnexpired(st, symbols, now, x);
    }
    EntrySurvives(compute, st, after, k);
  }

  lemma PruneIsCoherent(compute: Arithmetic, st: HistoryState, symbols: set<Symbol>, now: int)
    requires WellFormed(st) && WholeMinuteDaily(st) && Coherent(compute, st)
    ensures WellFormed(PruneSymbols(st, symbols, now)) && Coherent(compute, PruneSymbols(st, symbols, now))
  {
    hide Expires, EntryIsFresh;
    PruneIsWellFormed(st, symbols, now);
    forall k | k in PruneSymbols(st, symbols, now).references
      ensures EntryIsFresh(compute, PruneSymbols(st, symbols, now), k) {
      PruneKeepsEntry(compute, st, symbols, now, k);
    }
  }

  lemma PutKeepsPrefix(histories: Histories, ring: Interval, p: PricePoint, x: Symbol, cutoff: int)
    requires x == p.symbol && Feeds(p.interval, ring) ==> Bucket(p.timestamp, ring) > cutoff
    ensures Upto(BarsOf(Put(histories, ring, p), x), cutoff) == Upto(BarsOf(histories, x), cutoff)
  {
  }

  /**
   The point lies either far enough back to drop the entry, or its five-minute bucket opens after
   the entry's latest cutoff. A point that feeds intraday rings and does neither is the one way to
   leave a stale entry behind, see `AddLeavesEntryFreshIff`.
   */
  ghost predicate ClearOfCutoff(p: PricePoint, asOf: int) {
    || p.timestamp <= asOf - HOUR
    || p.interval.OneDay?
    || Bucket(p.timestamp, FiveMinutes) > asOf - HOUR
  }

  ghost predicate SafePoint(st: HistoryState, p: PricePoint) {
    WholeMinuteIfDaily(p) && forall k :: k in st.references ==> SafeFor(st, p, k)
  }

  /** The point leaves the entry of `k` exact, if it leaves it at all. */
  ghost predicate SafeFor(st: HistoryState, p: PricePoint, k: Symbol) {
    k in st.references && k in Affected(st.recipes, p.symbol) ==> ClearOfCutoff(p, st.references[k].asOf)
  }

  /** Every ring bucket of a surviving point opens after the cutoffs of the whole minute. */
  lemma BucketsAfterCutoff(p: PricePoint, asOf: int, ring: Interval)
    requires WholeMinuteIfDaily(p) && !p.interval.Unsupported? && Feeds(p.interval, ring)
    requires ClearOfCutoff(p, asOf) && p.timestamp > asOf - HOUR
    ensures Bucket(p.timestamp, ring) > asOf - HOUR
  {
    hide Bucket;
    if ring.OneMinute? {
      FinerBucketIsLater(p.timestamp);
    } else if ring.OneDay? {
      DailyBucket(p.timestamp);
    }
  }

  lemma FinerBucketIsLater(timestamp: int)
    ensures Bucket(timestamp, OneMinute) >= Bucket(timestamp, FiveMinutes)
  {
    FiveMinutesAreWholeMinutes(Bucket(timestamp, FiveMinutes));
  }

  lemma DailyBucket(timestamp: int)
    ensures Bucket(timestamp, OneDay) == timestamp
  {
  }

  lemma AddKeepsEntry(compute: Arithmetic, st: HistoryState, p: PricePoint, k: Symbol)
    requires WellFormed(st) && WholeMinuteDaily(st) && WholeMinuteIfDaily(p) && SafeFor(st, p, k)
    requires k in Add(st, p).references && k in st.references && EntryIsFresh(compute, st, k)
    ensures WellFormed(Add(st, p)) && EntryIsFresh(compute, Add(st, p), k)
      && Add(st, p).references[k] == st.references[k]
  {
    hide Expires, EntryIsFresh, Bucket;
    if !p.interval.Unsupported? {
      var put, after := PutPoint(st, p), Add(st, p);
      AddIsWellFormed(st, p);
      var asOf := st.references[k].asOf;
      forall x, c | x in Sources(st.recipes, k) && c <= asOf - HOUR ensures SamePrefixes(st, c, after, c, x) {
        AddKeepsPrefix(st, p, k, x, c);
      }
      EntrySurvives(compute, st, after, k);
    }
  }

  lemma AddIsCoherent(compute: Arithmetic, st: HistoryState, p: PricePoint)
    requires WellFormed(st) && WholeMinuteDaily(st) && Coherent(compute, st) && SafePoint(st, p)
    ensures Coherent(compute, Add(st, p))
  {
    hide Expires, EntryIsFresh, Bucket, SafeFor;
    forall k | k in Add(st, p).references ensures EntryIsFresh(compute, Add(st, p), k) {
      AddKeepsEntry(compute, st, p, k);
    }
  }

  /** An entry that outlives `Add` is affected by the point only above its cutoffs. */
  lemma SurvivorIsClear(st: HistoryState, p: PricePoint, k: Symbol, ring: Interval)
    requires WholeMinuteIfDaily(p) && SafeFor(st, p, k) && !p.interval.Unsupported? && Feeds(p.interval, ring)
    requires k in Add(st, p).references && k in Affected(st.recipes, p.symbol)
    ensures Bucket(p.timestamp, ring) > st.references[k].asOf - HOUR
  {
    hide Expires, Bucket, Affected, PruneHistories;
    BucketsAfterCutoff(p, st.references[k].asOf, ring);
  }

  lemma PutKeepsPrefixes(st: HistoryState, p: PricePoint, x: Symbol, c: int)
    requires x == p.symbol ==> forall ring :: Feeds(p.interval, ring) ==> Bucket(p.timestamp, ring) > c
    ensures SamePrefixes(st, c, PutPoint(st, p), c, x)
  {
    hide Bucket;
    PutKeepsPrefix(st.one, OneMinute, p, x, c);
    PutKeepsPrefix(st.five, FiveMinutes, p, x, c);
    PutKeepsPrefix(st.daily, OneDay, p, x, c);
  }

  lemma PutKeepsTheRest(st: HistoryState, p: PricePoint)
    ensures PutPoint(st, p).recipes == st.recipes
    ensures forall k :: k in Add(st, p).references ==>
      p.interval.Unsupported? || k in PruneSymbols(PutPoint(st, p), {p.symbol}, p.timestamp).references
  {
  }

  lemma AddKeepsPrefix(st: HistoryState, p: PricePoint, k: Symbol, x: Symbol, c: int)
    requires WellFormed(st) && WholeMinuteIfDaily(p) && SafeFor(st, p, k) && !p.interval.Unsupported?
    requires k in Add(st, p).references && x in Sources(st.recipes, k)
    requires c <= st.references[k].asOf - HOUR
    ensures SamePrefixes(st, c, Add(st, p), c, x)
  {
    hide Expires, Bucket, Affected, Add, PutPoint, PruneSymbols, WellFormed, SamePrefixes, BarsOf, SafeFor, Sources;
    var put := PutPoint(st, p);
    PutKeepsTheRest(st, p);
    SourceAffects(st.recipes, k, x);
    if x == p.symbol {
      SurvivorReadsUnexpired(put, {p.symbol}, p.timestamp, k, x);
      forall ring | Feeds(p.interval, ring) ensures Bucket(p.timestamp, ring) > c {
        SurvivorIsClear(st, p, k, ring);
      }
    }
    PutIsWellFormed(st, p);
    PutKeepsPrefixes(st, p, x, c);
    PruneKeepsUnexpired(put, {p.symbol}, p.timestamp, x);
    AddedPrefixes(st, p, x, c);
  }

  lemma AddedPrefixes(st: HistoryState, p: PricePoint, x: Symbol, c: int)
    requires !p.interval.Unsupported? && SamePrefixes(st, c, PutPoint(st, p), c, x)
    requires SameRings(PruneSymbols(PutPoint(st, p), {p.symbol}, p.timestamp), PutPoint(st, p), x)
    ensures SamePrefixes(st, c, Add(st, p), c, x)
  {
    hide PutPoint, PruneSymbols, Upto, BarsOf, ForgetReached;
  }

  lemma LoadKeepsOthers(st: HistoryState, points: seq<PricePoint>, symbols: set<Symbol>, x: Symbol)
    requires x !in symbols
    ensures var after := LoadSymbols(st, points, symbols);
            && BarsOf(after.one, x) == BarsOf(st.one, x)
            && BarsOf(after.five, x) == BarsOf(st.five, x)
            && BarsOf(after.daily, x) == BarsOf(st.daily, x)
  {
    hide LoadedBars;
  }

  lemma LoadKeepsEntry(compute: Arithmetic, st: HistoryState, points: seq<PricePoint>, k: Symbol)
    requires WellFormed(st) && WholeMinuteDaily(st) && forall p :: p in points ==> WholeMinuteIfDaily(p)
    requires k in Load(st, points).references && k in st.references && EntryIsFresh(compute, st, k)
    ensures WellFormed(Load(st, points)) && EntryIsFresh(compute, Load(st, points), k)
    ensures Load(st, points).references[k] == st.references[k]
  {
    hide EntryIsFresh, LoadHistories;
    if AllSupported(points) {
      var after := Load(st, points);
      LoadIsWellFormed(st, points);
      forall x, c | x in Sources(st.recipes, k) && c <= st.references[k].asOf - HOUR
        ensures SamePrefixes(st, c, after, c, x) {
        SourceAffects(st.recipes, k, x);
        LoadKeepsOthers(st, points, SymbolsOf(points), x);
      }
      EntrySurvives(compute, st, after, k);
    }
  }

  lemma LoadIsCoherent(compute: Arithmetic, st: HistoryState, points: seq<PricePoint>)
    requires WellFormed(st) && WholeMinuteDaily(st) && Coherent(compute, st)
    requires forall p :: p in points ==> WholeMinuteIfDaily(p)
    ensures Coherent(compute, Load(st, points))
  {
    hide EntryIsFresh, LoadHistories;
    forall k | k in Load(st, points).references ensures EntryIsFresh(compute, Load(st, points), k) {
      LoadKeepsEntry(compute, st, points, k);
    }
  }

  lemma NoSourcesOfUnknown(st: HistoryState, k: Symbol, x: Symbol)
    requires k !in Present(st) && k !in st.recipes && x in Sources(st.recipes, k)
    ensures BarsOf(st.one, x) == BarsOf(st.five, x) == BarsOf(st.daily, x) == map[]
  {
  }

  lemma RetainKeepsSources(st: HistoryState, requested: set<Symbol>, k: Symbol, x: Symbol)
    requires k in Retain(st, requested).references && x in Sources(st.recipes, k)
    ensures var after := Retain(st, requested);
            && BarsOf(after.one, x) == BarsOf(st.one, x)
            && BarsOf(after.five, x) == BarsOf(st.five, x)
            && BarsOf(after.daily, x) == BarsOf(st.daily, x)
  {
    hide Retained, RetainHistories, Sources, Reaches;
    RetainedRing(st, st.one, requested, x);
    RetainedRing(st, st.five, requested, x);
    RetainedRing(st, st.daily, requested, x);
    if Retained(st.recipes, requested, k) {
      RetainedInput(st.recipes, requested, k, x);
    } else {
      NoSourcesOfUnknown(st, k, x);
    }
  }

  lemma RetainKeepsEntry(compute: Arithmetic, st: HistoryState, requested: set<Symbol>, k: Symbol)
    requires WellFormed(st) && WholeMinuteDaily(st)
    requires k in Retain(st, requested).references && k in st.references && EntryIsFresh(compute, st, k)
    ensures WellFormed(Retain(st, requested)) && EntryIsFresh(compute, Retain(st, requested), k)
    ensures Retain(st, requested).references[k] == st.references[k]
  {
    hide EntryIsFresh, Retained, RetainHistories;
    var after := Retain(st, requested);
    RetainIsWellFormed(st, requested);
    forall x, c | x in Sources(st.recipes, k) && c <= st.references[k].asOf - HOUR
      ensures SamePrefixes(st, c, after, c, x) {
      RetainKeepsSources(st, requested, k, x);
    }
    EntrySurvives(compute, st, after, k);
  }

  lemma RetainIsCoherent(compute: Arithmetic, st: HistoryState, requested: set<Symbol>)
    requires WellFormed(st) && WholeMinuteDaily(st) && Coherent(compute, st)
    ensures Coherent(compute, Retain(st, requested))
  {
    hide EntryIsFresh, Retained, RetainHistories;
    RetainIsWellFormed(st, requested);
    forall k | k in Retain(st, requested).references ensures EntryIsFresh(compute, Retain(st, requested), k) {
      RetainKeepsEntry(compute, st, requested, k);
    }
  }

  lemma RetainedInput(recipes: map<Symbol, Recipe>, requested: set<Symbol>, k: Symbol, x: Symbol)
    requires Retained(recipes, requested, k) && x in Sources(recipes, k)
    ensures Retained(recipes, requested, x)
  {
    var r :| r in requested && Reaches(InputGraph(recipes), r, k);
    if k in recipes {
      ReachesThenEdge(InputGraph(recipes), r, k, x);
    }
  }

  lemma RegisterKeepsSources(st: HistoryState, s: Symbol, recipe: Recipe, k: Symbol, x: Symbol)
    requires k in Register(st, s, recipe).references && x in Sources(st.recipes, k)
    ensures var after := Register(st, s, recipe);
            && BarsOf(after.one, x) == BarsOf(st.one, x)
            && BarsOf(after.five, x) == BarsOf(st.five, x)
            && BarsOf(after.daily, x) == BarsOf(st.daily, x)
  {
    hide Installs, Reaches;
    var after := Register(st, s, recipe);
    if Installs(st, s, recipe) {
      assert k != s;
      SourceAffects(after.recipes, k, x);
    }
  }

  lemma RegisterKeepsEntry(compute: Arithmetic, st: HistoryState, s: Symbol, recipe: Recipe, k: Symbol)
    requires WellFormed(st) && WholeMinuteDaily(st)
    requires k in Register(st, s, recipe).references && k in st.references && EntryIsFresh(compute, st, k)
    ensures WellFormed(Register(st, s, recipe)) && EntryIsFresh(compute, Register(st, s, recipe), k)
    ensures Register(st, s, recipe).references[k] == st.references[k]
  {
    hide EntryIsFresh, Affected, Installs, BarsOf, SameRecipe, Sources;
    var after := Register(st, s, recipe);
    RegisterIsWellFormed(st, s, recipe);
    forall x, c | x in Sources(st.recipes, k) && c <= st.references[k].asOf - HOUR
      ensures SamePrefixes(st, c, after, c, x) {
      RegisterKeepsSources(st, s, recipe, k, x);
    }
    RegisterKeepsRecipe(st, s, recipe, k);
    EntrySurvives(compute, st, after, k);
  }

  lemma RegisterIsCoherent(compute: Arithmetic, st: HistoryState, s: Symbol, recipe: Recipe)
    requires WellFormed(st) && WholeMinuteDaily(st) && Coherent(compute, st)
    ensures Coherent(compute, Register(st, s, recipe))
  {
    hide EntryIsFresh, Affected, Installs;
    RegisterIsWellFormed(st, s, recipe);
    forall k | k in Register(st, s, recipe).references ensures EntryIsFresh(compute, Register(st, s, recipe), k) {
      RegisterKeepsEntry(compute, st, s, recipe, k);
    }
  }

  lemma RegisterKeepsRecipe(st: HistoryState, s: Symbol, recipe: Recipe, k: Symbol)
    requires k in Register(st, s, recipe).references
    ensures SameRecipe(st, Register(st, s, recipe), k)
  {
    hide Installs, Reaches;
  }

  lemma ReferencesCallKeepsEntry(compute: Arithmetic, st: HistoryState, s: Symbol, asOf: int, k: Symbol)
    requires WellFormed(st) && WholeMinuteDaily(st) && k in ChangeReferences(compute, st, s, asOf).references
    requires (k == s && !CacheHit(st, s, asOf)) || (k in st.references && EntryIsFresh(compute, st, k))
    ensures var after := ChangeReferences(compute, st, s, asOf);
            && WellFormed(after) && EntryIsFresh(compute, after, k)
            && after.references[k].asOf == if k == s && !CacheHit(st, s, asOf) then asOf else st.references[k].asOf
  {
    hide FreshReferences;
    var after := ChangeReferences(compute, st, s, asOf);
    forall at | MinuteOf(at) == MinuteOf(after.references[k].asOf)
      ensures after.references[k].references == FreshReferences(compute, after, k, at)
    {
      FreshReferencesKept(compute, st, after, k, at);
      if k == s && !CacheHit(st, s, asOf) {
        ReferencesStableWithinMinute(compute, st, k, asOf, at);
      }
    }
  }

  lemma ReferencesCallIsCoherent(compute: Arithmetic, st: HistoryState, s: Symbol, asOf: int)
    requires WellFormed(st) && WholeMinuteDaily(st) && Coherent(compute, st)
    ensures Coherent(compute, ChangeReferences(compute, st, s, asOf))
  {
    hide FreshReferences, EntryIsFresh;
    forall k | k in ChangeReferences(compute, st, s, asOf).references
      ensures EntryIsFresh(compute, ChangeReferences(compute, st, s, asOf), k)
    {
      ReferencesCallKeepsEntry(compute, st, s, asOf, k);
    }
  }

  // ----- whole runs

  datatype Call =
    | AddCall(point: PricePoint)
    | LoadCall(points: seq<PricePoint>)
    | PruneCall(now: int)
    | RetainCall(symbols: set<Symbol>)
    | RegisterCall(symbol: Symbol, recipe: Recipe)
    | ReferencesCall(symbol: Symbol, asOf: int)

  ghost function Step(compute: Arithmetic, st: HistoryState, call: Call): HistoryState
    requires LegalRecipes(st.recipes)
  {
    match call
    case AddCall(p) => Add(st, p)
    case LoadCall(points) => Load(st, points)
    case PruneCall(now) => Prune(st, now)
    case RetainCall(symbols) => Retain(st, symbols)
    case RegisterCall(s, recipe) => Register(st, s, recipe)
    case ReferencesCall(s, asOf) => ChangeReferences(compute, st, s, asOf)
  }

  lemma StepIsWellFormed(compute: Arithmetic, st: HistoryState, call: Call)
    requires WellFormed(st)
    ensures WellFormed(Step(compute, st, call))
  {
    hide Add, Load, PruneSymbols, Retain, Register;
    match call
    case AddCall(p) => AddIsWellFormed(st, p);
    case LoadCall(points) => LoadIsWellFormed(st, points);
    case PruneCall(now) => PruneIsWellFormed(st, Present(st), now);
    case RetainCall(symbols) => RetainIsWellFormed(st, symbols);
    case RegisterCall(s, recipe) => RegisterIsWellFormed(st, s, recipe);
    case ReferencesCall(s, asOf) =>
  }

  ghost function Run(compute: Arithmetic, st: HistoryState, calls: seq<Call>): (final: HistoryState)
    requires WellFormed(st)
    ensures WellFormed(final)
    decreases |calls|
  {
    if calls == [] then st
    else
      StepIsWellFormed(compute, st, calls[0]);
      Run(compute, Step(compute, st, calls[0]), calls[1..])
  }

  /** What a caller must observe for cached references to stay exact. */
  ghost predicate SafeCall(st: HistoryState, call: Call) {
    match call
    case AddCall(p) => SafePoint(st, p)
    case LoadCall(points) => forall p :: p in points ==> WholeMinuteIfDaily(p)
    case _ => true
  }

  ghost predicate SafeRun(compute: Arithmetic, st: HistoryState, calls: seq<Call>)
    requires WellFormed(st)
    decreases |calls|
  {
    calls == [] ||
    (SafeCall(st, calls[0]) &&
     (StepIsWellFormed(compute, st, calls[0]); SafeRun(compute, Step(compute, st, calls[0]), calls[1..])))
  }

  lemma SafeStepIsCoherent(compute: Arithmetic, st: HistoryState, call: Call)
    requires WellFormed(st) && WholeMinuteDaily(st) && Coherent(compute, st) && SafeCall(st, call)
    ensures var after := Step(compute, st, call);
            WellFormed(after) && WholeMinuteDaily(after) && Coherent(compute, after)
  {
    hide Add, Load, PruneSymbols, Retain, Register, Coherent;
    StepIsWellFormed(compute, st, call);
    match call
    case AddCall(p) => AddIsCoherent(compute, st, p); AddIsWellFormed(st, p);
    case LoadCall(points) => LoadIsCoherent(compute, st, points); LoadIsWellFormed(st, points);
    case PruneCall(now) => PruneIsCoherent(compute, st, Present(st), now); PruneIsWellFormed(st, Present(st), now);
    case RetainCall(symbols) => RetainIsCoherent(compute, st, symbols); RetainIsWellFormed(st, symbols);
    case RegisterCall(s, recipe) => RegisterIsCoherent(compute, st, s, recipe); RegisterIsWellFormed(st, s, recipe);
    case ReferencesCall(s, asOf) => ReferencesCallIsCoherent(compute, st, s, asOf);
  }

  /** Over every safe run each surviving entry answers its whole minute like a fresh lookup. */
  lemma {:induction false} SafeRunIsCoherent(compute: Arithmetic, st: HistoryState, calls: seq<Call>)
    requires WellFormed(st) && WholeMinuteDaily(st) && Coherent(compute, st)
    requires SafeRun(compute, st, calls)
    ensures WholeMinuteDaily(Run(compute, st, calls)) && Coherent(compute, Run(compute, st, calls))
    decreases |calls|
  {
    hide Step, Coherent;
    if calls != [] {
      SafeStepIsCoherent(compute, st, calls[0]);
      SafeRunIsCoherent(compute, Step(compute, st, calls[0]), calls[1..]);
    }
  }

  lemma EmptyIsCoherent(compute: Arithmetic)
    ensures WellFormed(EMPTY) && WholeMinuteDaily(EMPTY) && Coherent(compute, EMPTY)
  {
    assert IsRank(InputGraph(EMPTY.recipes), _ => 0);
  }

  /**
   The references handed out after any safe run, cached or not, are those a full lookup at the
   caller's own instant selects.
   */
  lemma CachedReferencesAreExact(compute: Arithmetic, start: HistoryState, calls: seq<Call>, s: Symbol, asOf: int)
    requires WellFormed(start) && WholeMinuteDaily(start) && Coherent(compute, start)
    requires SafeRun(compute, start, calls)
    ensures var st := Run(compute, start, calls);
            var after := ChangeReferences(compute, st, s, asOf);
            s in after.references && after.references[s].references == FreshReferences(compute, st, s, asOf)
  {
    hide FreshReferences, Step;
    SafeRunIsCoherent(compute, start, calls);
    var st := Run(compute, start, calls);
    if CacheHit(st, s, asOf) {
      assert EntryIsFresh(compute, st, s);
    }
  }

  /** No run of registrations and retentions ever closes a dependency cycle. */
  lemma RecipesStayAcyclic(compute: Arithmetic, start: HistoryState, calls: seq<Call>)
    requires WellFormed(start)
    ensures Acyclic(InputGraph(Run(compute, start, calls).recipes))
  {
    RankedIsAcyclic(InputGraph(Run(compute, start, calls).recipes));
  }

  // ----- exactly when one intraday point leaves a stale entry

  /**
   The point opens a bucket at or before the cutoff minute of the hour window although it is itself
   later, that bucket is where the lookup would now stop, and it holds something new.
   */
  ghost predicate ShadowsReference(st: HistoryState, p: PricePoint, asOf: int) {
    var cutoff := MinuteOf(asOf) - HOUR;
    if p.interval.OneMinute? && Bucket(p.timestamp, OneMinute) <= cutoff
    then PlainReference(st, p.symbol, cutoff) != Some(Bucketed(p, OneMinute))
    else
      && Bucket(p.timestamp, FiveMinutes) <= cutoff
      && Latest(BarsOf(st.one, p.symbol), cutoff).None?
      && PlainReference(st, p.symbol, cutoff) != Some(Bucketed(p, FiveMinutes))
  }

  lemma MinuteFacts(asOf: int)
    ensures MinuteOf(asOf - HOUR) == MinuteOf(asOf) - HOUR && MinuteOf(MinuteOf(asOf) - HOUR) == MinuteOf(asOf) - HOUR
    ensures MinuteOf(asOf) - HOUR <= asOf - HOUR < MinuteOf(asOf) - HOUR + MINUTE
    ensures (MinuteOf(asOf) - HOUR) % MINUTE == 0
  {
    ShiftByWholeMinutes(asOf, 60);
    ShiftByWholeMinutes(MinuteOf(asOf), 60);
  }

  lemma WholeMinuteAtMost(a: int, b: int)
    requires a % MINUTE == 0 && b % MINUTE == 0 && a < b + MINUTE
    ensures a <= b
  {
  }

  lemma WholeFiveMinutesAtMost(a: int, b: int)
    requires a % FIVE_MINUTES == 0 && b % FIVE_MINUTES == 0 && a < b + FIVE_MINUTES
    ensures a <= b
  {
  }

  /** A bucket at or before the cutoff that holds a later point is the last one before the cutoff. */
  lemma LastMinuteBeforeCutoff(bars: Bars, p: PricePoint, cutoff: int)
    requires AllWhole(bars, MINUTE) && p.timestamp > cutoff && Bucket(p.timestamp, OneMinute) <= cutoff
    ensures Latest(bars[Bucket(p.timestamp, OneMinute) := Bucketed(p, OneMinute)], cutoff)
      == Some(Bucketed(p, OneMinute))
  {
    var bucket := Bucket(p.timestamp, OneMinute);
    forall u | u in bars && u <= cutoff ensures u <= bucket {
      WholeMinuteAtMost(u, bucket);
    }
    LatestIs(bars[bucket := Bucketed(p, OneMinute)], cutoff, bucket);
  }

  lemma LastFiveMinutesBeforeCutoff(bars: Bars, p: PricePoint, cutoff: int)
    requires AllWhole(bars, FIVE_MINUTES) && p.timestamp > cutoff && Bucket(p.timestamp, FiveMinutes) <= cutoff
    ensures Latest(bars[Bucket(p.timestamp, FiveMinutes) := Bucketed(p, FiveMinutes)], cutoff)
      == Some(Bucketed(p, FiveMinutes))
  {
    var bucket := Bucket(p.timestamp, FiveMinutes);
    forall u | u in bars && u <= cutoff ensures u <= bucket {
      WholeFiveMinutesAtMost(u, bucket);
    }
    LatestIs(bars[bucket := Bucketed(p, FiveMinutes)], cutoff, bucket);
  }

  /** What the hour lookup of a plain symbol finds after an intraday point that expired nothing. */
  lemma ReferenceAfterPut(st: HistoryState, p: PricePoint, cutoff: int)
    requires WellFormed(st) && (p.interval.OneMinute? || p.interval.FiveMinutes?)
    requires cutoff % MINUTE == 0 && p.timestamp > cutoff
    ensures PlainReference(PutPoint(st, p), p.symbol, cutoff) ==
      if p.interval.OneMinute? && Bucket(p.timestamp, OneMinute) <= cutoff then Some(Bucketed(p, OneMinute))
      else if Bucket(p.timestamp, FiveMinutes) <= cutoff && Latest(BarsOf(st.one, p.symbol), cutoff).None?
      then Some(Bucketed(p, FiveMinutes))
      else PlainReference(st, p.symbol, cutoff)
  {
    hide Bucket;
    if p.interval.OneMinute? && Bucket(p.timestamp, OneMinute) <= cutoff {
      LastMinuteBeforeCutoff(BarsOf(st.one, p.symbol), p, cutoff);
    } else {
      PutKeepsPrefix(st.one, OneMinute, p, p.symbol, cutoff);
    }
    if Bucket(p.timestamp, FiveMinutes) <= cutoff {
      LastFiveMinutesBeforeCutoff(BarsOf(st.five, p.symbol), p, cutoff);
    } else {
      PutKeepsPrefix(st.five, FiveMinutes, p, p.symbol, cutoff);
    }
    PutKeepsPrefix(st.daily, OneDay, p, p.symbol, cutoff);
  }

  /** A surviving entry reads no ring that the point has expired something from. */
  lemma SurvivorRings(st: HistoryState, p: PricePoint, k: Symbol, x: Symbol)
    requires WellFormed(st) && !p.interval.Unsupported? && k in Add(st, p).references && x in Sources(st.recipes, k)
    ensures SameRings(Add(st, p), PutPoint(st, p), x)
  {
    hide Expires, Affected, PutPoint, PruneSymbols, WellFormed, BarsOf, Sources, ForgetReached;
    var put := PutPoint(st, p);
    PutKeepsTheRest(st, p);
    PutIsWellFormed(st, p);
    if x == p.symbol {
      SurvivorReadsUnexpired(put, {p.symbol}, p.timestamp, k, x);
    }
    PruneKeepsUnexpired(put, {p.symbol}, p.timestamp, x);
  }

  lemma SameRingsSamePrefixes(a: HistoryState, b: HistoryState, x: Symbol, cutoff: int)
    requires SameRings(a, b, x)
    ensures SamePrefixes(a, cutoff, b, cutoff, x)
  {
  }

  lemma ReferenceAfterAdd(compute: Arithmetic, st: HistoryState, p: PricePoint, k: Symbol, cutoff: int)
    requires WellFormed(st) && !p.interval.Unsupported? && k in Add(st, p).references
    requires WellFormed(PutPoint(st, p)) && WellFormed(Add(st, p)) && Add(st, p).recipes == st.recipes
    ensures Reference(compute, Add(st, p), k, cutoff) == Reference(compute, PutPoint(st, p), k, cutoff)
  {
    hide Add, PutPoint, SameRings, SamePrefixes, Sources, LegalHistories, Ranked, LegalRecipe, Reference;
    PutKeepsTheRest(st, p);
    forall x | x in Sources(Add(st, p).recipes, k)
      ensures SamePrefixes(Add(st, p), cutoff, PutPoint(st, p), cutoff, x) {
      SurvivorRings(st, p, k, x);
      SameRingsSamePrefixes(Add(st, p), PutPoint(st, p), x, cutoff);
    }
    ReferenceFromPrefixes(compute, Add(st, p), cutoff, PutPoint(st, p), cutoff, k);
  }

  lemma LaterThanLongerWindows(p: PricePoint, ring: Interval, asOf: int, w: Window)
    requires p.interval.OneMinute? || p.interval.FiveMinutes?
    requires w != Window.Hour && p.timestamp > asOf - HOUR && Feeds(p.interval, ring)
    ensures Bucket(p.timestamp, ring) > asOf - Duration(w)
  {
  }

  /** The longer windows never see an intraday point that leaves the entry in place. */
  lemma LongerWindowsUntouched(compute: Arithmetic, st: HistoryState, p: PricePoint, k: Symbol, asOf: int, w: Window)
    requires WellFormed(st) && WellFormed(PutPoint(st, p)) && (p.interval.OneMinute? || p.interval.FiveMinutes?)
    requires w != Window.Hour && (p.symbol in Sources(st.recipes, k) ==> p.timestamp > asOf - HOUR)
    ensures Reference(compute, PutPoint(st, p), k, asOf - Duration(w)) == Reference(compute, st, k, asOf - Duration(w))
  {
    hide PutPoint, SamePrefixes, Sources, LegalHistories, Ranked, LegalRecipe, Reference, Bucket, Duration;
    PutKeepsTheRest(st, p);
    var cutoff := asOf - Duration(w);
    forall x | x in Sources(st.recipes, k) ensures SamePrefixes(st, cutoff, PutPoint(st, p), cutoff, x) {
      if x == p.symbol {
        forall ring | Feeds(p.interval, ring) ensures Bucket(p.timestamp, ring) > cutoff {
          LaterThanLongerWindows(p, ring, asOf, w);
        }
      }
      PutKeepsPrefixes(st, p, x, cutoff);
    }
    ReferenceFromPrefixes(compute, st, cutoff, PutPoint(st, p), cutoff, k);
  }

  lemma SurvivorIsLater(st: HistoryState, p: PricePoint, k: Symbol)
    requires !p.interval.Unsupported? && k in Add(st, p).references
    ensures k in st.references && Add(st, p).references[k] == st.references[k] && Add(st, p).recipes == st.recipes
    ensures p.symbol in Sources(st.recipes, k) ==> p.timestamp > st.references[k].asOf - HOUR
  {
    hide Expires, Affected, PruneHistories, Put, Sources;
    if p.symbol in Sources(st.recipes, k) {
      SourceAffects(st.recipes, k, p.symbol);
    }
  }

  /**
   For plain and synthetic symbols alike: the entry that outlives an intraday point is still exact if and only if the
   hour lookup at the start of its minute finds the same on the rings as they were and with the point put in.
   */
  lemma EntryStaysFreshIff(compute: Arithmetic, st: HistoryState, p: PricePoint, k: Symbol)
    requires WellFormed(st) && WholeMinuteDaily(st) && Coherent(compute, st)
    requires k in Add(st, p).references && (p.interval.OneMinute? || p.interval.FiveMinutes?)
    ensures WellFormed(Add(st, p)) && WellFormed(PutPoint(st, p)) && k in st.references
    ensures var cutoff := MinuteOf(st.references[k].asOf) - HOUR;
      EntryIsFresh(compute, Add(st, p), k) <==>
        Reference(compute, PutPoint(st, p), k, cutoff) == Reference(compute, st, k, cutoff)
  {
    hide Add, PutPoint, Sources, LegalHistories, Ranked, LegalRecipe, Reference, Bucket, Duration, EntryIsFresh;
    var after := Add(st, p);
    AddIsWellFormed(st, p);
    PutIsWellFormed(st, p);
    SurvivorIsLater(st, p, k);
    var asOf := st.references[k].asOf;
    forall w: Window | w != Window.Hour
      ensures Reference(compute, after, k, asOf - Duration(w)) == Reference(compute, st, k, asOf - Duration(w))
    {
      ReferenceAfterAdd(compute, st, p, k, asOf - Duration(w));
      LongerWindowsUntouched(compute, st, p, k, asOf, w);
    }
    ReferenceAfterAdd(compute, st, p, k, MinuteOf(asOf) - HOUR);
    HourDecides(compute, st, after, k);
  }

  /** With the longer windows unchanged, a surviving entry is fresh exactly when its hour reference is. */
  lemma HourDecides(compute: Arithmetic, before: HistoryState, after: HistoryState, s: Symbol)
    requires WellFormed(before) && WellFormed(after) && WholeMinuteDaily(before) && WholeMinuteDaily(after)
    requires s in before.references && s in after.references && before.references[s] == after.references[s]
    requires EntryIsFresh(compute, before, s)
    requires forall w: Window :: w != Window.Hour ==>
      var cutoff := before.references[s].asOf - Duration(w);
      Reference(compute, after, s, cutoff) == Reference(compute, before, s, cutoff)
    ensures var cutoff := MinuteOf(before.references[s].asOf) - HOUR;
      EntryIsFresh(compute, after, s) <==> Reference(compute, after, s, cutoff) == Reference(compute, before, s, cutoff)
  {
    hide Reference, Bucket;
    var asOf := before.references[s].asOf;
    MinuteFacts(asOf);
    ReferenceStableWithinMinute(compute, before, s, asOf - HOUR, MinuteOf(asOf) - HOUR);
    ReferenceStableWithinMinute(compute, after, s, asOf - HOUR, MinuteOf(asOf) - HOUR);
    forall other | MinuteOf(other) == MinuteOf(asOf)
      ensures FreshReferences(compute, after, s, other) == FreshReferences(compute, after, s, asOf)
    {
      ReferencesStableWithinMinute(compute, after, s, asOf, other);
    }
    assert FreshReferences(compute, before, s, asOf)[Window.Hour] == Reference(compute, before, s, asOf - HOUR);
    assert FreshReferences(compute, after, s, asOf)[Window.Hour] == Reference(compute, after, s, asOf - HOUR);
    if Reference(compute, after, s, asOf - HOUR) == Reference(compute, before, s, asOf - HOUR) {
      forall w: Window
        ensures FreshReferences(compute, after, s, asOf)[w] == FreshReferences(compute, before, s, asOf)[w] {
      }
      assert FreshReferences(compute, after, s, asOf) == FreshReferences(compute, before, s, asOf);
    }
  }

  /**
   For a symbol with its own rings: the entry that outlives an intraday point is still exact if and
   only if the point does not shadow the hour reference.
   */
  lemma AddLeavesEntryFreshIff(compute: Arithmetic, st: HistoryState, p: PricePoint)
    requires WellFormed(st) && WholeMinuteDaily(st) && Coherent(compute, st)
    requires p.symbol !in st.recipes && p.symbol in Add(st, p).references
    requires p.interval.OneMinute? || p.interval.FiveMinutes?
    ensures WellFormed(Add(st, p))
    ensures EntryIsFresh(compute, Add(st, p), p.symbol) <==> !ShadowsReference(st, p, st.references[p.symbol].asOf)
  {
    hide Add, PutPoint, Bucket, FreshReferences, PlainReference, EntryIsFresh, Reaches, Sources;
    EntryStaysFreshIff(compute, st, p, p.symbol);
    SurvivorIsLater(st, p, p.symbol);
    PutKeepsTheRest(st, p);
    OwnSource(st.recipes, p.symbol);
    MinuteFacts(st.references[p.symbol].asOf);
    ReferenceAfterPut(st, p, MinuteOf(st.references[p.symbol].asOf) - HOUR);
  }

  lemma OwnSource(recipes: map<Symbol, Recipe>, s: Symbol)
    requires s !in recipes
    ensures s in Sources(recipes, s)
  {
  }

  ghost function OneBarCache(s: Symbol): HistoryState {
    EMPTY.(five := map[s := map[0 := PricePoint(s, 0, 1.0, "a", false, FiveMinutes)]])
  }

  lemma OneBarCacheIsCoherent(compute: Arithmetic, s: Symbol)
    ensures WellFormed(OneBarCache(s)) && WholeMinuteDaily(OneBarCache(s)) && Coherent(compute, OneBarCache(s))
  {
    EmptyIsCoherent(compute);
    assert 0 in OneBarCache(s).five[s];
  }

  /**
   A concrete stale entry. References are selected at 01:02 from a single five-minute bar at 00:00; a one-minute point
   at 00:03 then replaces that bar without dropping the entry. Such a point comes with the warm prices of an
   activation, which are added without comparing them with the last quote.
   */
  lemma StaleEntryExample(compute: Arithmetic, s: Symbol)
    ensures var late := PricePoint(s, 3 * MINUTE, 2.0, "a", false, OneMinute);
            WellFormed(OneBarCache(s)) && (
            var st := ChangeReferences(compute, OneBarCache(s), s, HOUR + 2 * MINUTE);
            && WellFormed(st) && WholeMinuteDaily(st) && Coherent(compute, st)
            && WellFormed(Add(st, late)) && s in Add(st, late).references
            && !EntryIsFresh(compute, Add(st, late), s))
  {
    hide Coherent, EntryIsFresh, WellFormed, FreshReferences, Add;
    var late := PricePoint(s, 3 * MINUTE, 2.0, "a", false, OneMinute);
    OneBarCacheIsCoherent(compute, s);
    assert WellFormed(OneBarCache(s)) ==> LegalRecipes(OneBarCache(s).recipes);
    var asOf := HOUR + 2 * MINUTE;
    var st := ChangeReferences(compute, OneBarCache(s), s, asOf);
    ReferencesCallIsWellFormed(compute, OneBarCache(s), s, asOf);
    ReferencesCallIsCoherent(compute, OneBarCache(s), s, asOf);
    LateTradeKeepsEntry(compute, st, s, late, asOf);
    LatestIs(BarsOf(st.five, s), 2 * MINUTE, 0);
    AddLeavesEntryFreshIff(compute, st, late);
  }

  lemma ReferencesCallIsWellFormed(compute: Arithmetic, st: HistoryState, s: Symbol, asOf: int)
    requires WellFormed(st)
    ensures WellFormed(ChangeReferences(compute, st, s, asOf))
    ensures WholeMinuteDaily(st) ==> WholeMinuteDaily(ChangeReferences(compute, st, s, asOf))
  {
    hide FreshReferences, LegalHistories;
  }

  lemma LateTradeKeepsEntry(compute: Arithmetic, st: HistoryState, s: Symbol, late: PricePoint, asOf: int)
    requires st.five.Keys == {s} && st.one == map[] && st.daily == map[] && st.recipes == map[]
    requires st.five[s].Keys == {0} && st.references.Keys == {s} && st.references[s].asOf == asOf
    requires late.symbol == s && late.interval.OneMinute? && asOf - HOUR < late.timestamp < HOUR && asOf > 0
    ensures s in Add(st, late).references
  {
    var put := PutPoint(st, late);
    assert !Expires(put, s, late.timestamp) by {
      assert forall t :: t in BarsOf(put.one, s) ==> t >= late.timestamp - ONE_MINUTE_RETENTION;
      assert BarsOf(put.daily, s) == map[];
      assert Since(BarsOf(put.one, s), late.timestamp - ONE_MINUTE_RETENTION) == BarsOf(put.one, s);
      assert Since(BarsOf(put.five, s), late.timestamp - FIVE_MINUTE_RETENTION) == BarsOf(put.five, s);
    }
  }

  ghost predicate SameRings(a: HistoryState, b: HistoryState, s: Symbol) {
    BarsOf(a.one, s) == BarsOf(b.one, s) && BarsOf(a.five, s) == BarsOf(b.five, s)
      && BarsOf(a.daily, s) == BarsOf(b.daily, s)
  }

  // ----- an activation that fails

  /** Two histories with the same recipes that differ at most in the rings of some symbols. */
  ghost predicate AgreeOutside(a: HistoryState, b: HistoryState, others: set<Symbol>) {
    a.recipes == b.recipes && forall s :: s !in others ==> SameRings(a, b, s)
  }

  lemma LoadedRing(st: HistoryState, points: seq<PricePoint>, symbols: set<Symbol>, histories: Histories,
                   ring: Interval,
                   retention: int, s: Symbol)
    ensures BarsOf(LoadHistories(st, points, symbols, histories, ring, retention), s)
         == if s in symbols then LoadedBars(st, points, s, histories, ring, retention) else BarsOf(histories, s)
  {
    hide LoadedBars;
  }

  lemma LoadedBarsAgree(a: HistoryState, b: HistoryState, points: seq<PricePoint>, s: Symbol)
    requires SameRings(a, b, s)
    ensures NewestAfterLoad(a, points, s) == NewestAfterLoad(b, points, s)
    ensures Merged(a.one, points, s, OneMinute) == Merged(b.one, points, s, OneMinute)
    ensures Merged(a.five, points, s, FiveMinutes) == Merged(b.five, points, s, FiveMinutes)
    ensures Merged(a.daily, points, s, OneDay) == Merged(b.daily, points, s, OneDay)
  {
    hide Incoming, SortByTime, Greatest, Bucket;
  }

  lemma LoadAgrees(a: HistoryState, b: HistoryState, points: seq<PricePoint>, s: Symbol)
    requires SameRings(a, b, s)
    ensures SameRings(Load(a, points), Load(b, points), s)
  {
    hide LoadHistories, Merged, NewestAfterLoad, SymbolsOf, Forget, AffectedByAny;
    LoadedBarsAgree(a, b, points, s);
    var symbols := SymbolsOf(points);
    LoadedRing(a, points, symbols, a.one, OneMinute, ONE_MINUTE_RETENTION, s);
    LoadedRing(b, points, symbols, b.one, OneMinute, ONE_MINUTE_RETENTION, s);
    LoadedRing(a, points, symbols, a.five, FiveMinutes, FIVE_MINUTE_RETENTION, s);
    LoadedRing(b, points, symbols, b.five, FiveMinutes, FIVE_MINUTE_RETENTION, s);
    LoadedRing(a, points, symbols, a.daily, OneDay, DAILY_RETENTION, s);
    LoadedRing(b, points, symbols, b.daily, OneDay, DAILY_RETENTION, s);
  }

  lemma PrunedRing(histories: Histories, symbols: set<Symbol>, cutoff: int, s: Symbol)
    ensures BarsOf(PruneHistories(histories, symbols, cutoff), s)
         == if s in symbols then Since(BarsOf(histories, s), cutoff) else BarsOf(histories, s)
  {
  }

  lemma PruneSymbolsAgrees(a: HistoryState, b: HistoryState, symbols: set<Symbol>, now: int, s: Symbol)
    requires SameRings(a, b, s)
    ensures SameRings(PruneSymbols(a, symbols, now), PruneSymbols(b, symbols, now), s)
  {
    hide PruneHistories, Forget, AffectedByAny;
    PrunedRing(a.one, symbols, now - ONE_MINUTE_RETENTION, s);
    PrunedRing(b.one, symbols, now - ONE_MINUTE_RETENTION, s);
    PrunedRing(a.five, symbols, now - FIVE_MINUTE_RETENTION, s);
    PrunedRing(b.five, symbols, now - FIVE_MINUTE_RETENTION, s);
    PrunedRing(a.daily, symbols, now - DAILY_RETENTION, s);
    PrunedRing(b.daily, symbols, now - DAILY_RETENTION, s);
  }

  lemma PrunedRings(st: HistoryState, now: int, s: Symbol)
    ensures var after := Prune(st, now);
            && BarsOf(after.one, s) == Since(BarsOf(st.one, s), now - ONE_MINUTE_RETENTION)
            && BarsOf(after.five, s) == Since(BarsOf(st.five, s), now - FIVE_MINUTE_RETENTION)
            && BarsOf(after.daily, s) == Since(BarsOf(st.daily, s), now - DAILY_RETENTION)
  {
    hide PruneHistories, Forget, AffectedByAny;
    PrunedRing(st.one, Present(st), now - ONE_MINUTE_RETENTION, s);
    PrunedRing(st.five, Present(st), now - FIVE_MINUTE_RETENTION, s);
    PrunedRing(st.daily, Present(st), now - DAILY_RETENTION, s);
    if s !in Present(st) {
      NothingSince(now - ONE_MINUTE_RETENTION);
      NothingSince(now - FIVE_MINUTE_RETENTION);
      NothingSince(now - DAILY_RETENTION);
    }
  }

  lemma NothingSince(cutoff: int)
    ensures Since(map[], cutoff) == map[]
  {
  }

  lemma PutAgrees(a: HistoryState, b: HistoryState, p: PricePoint, s: Symbol)
    requires SameRings(a, b, s)
    ensures SameRings(PutPoint(a, p), PutPoint(b, p), s)
  {
    hide Bucket, Bucketed;
  }

  lemma AddAgrees(a: HistoryState, b: HistoryState, p: PricePoint, s: Symbol)
    requires SameRings(a, b, s)
    ensures SameRings(Add(a, p), Add(b, p), s)
  {
    hide PruneSymbols, PutPoint, ForgetReached, Affected;
    PutAgrees(a, b, p, s);
    PruneSymbolsAgrees(PutPoint(a, p), PutPoint(b, p), {p.symbol}, p.timestamp, s);
  }

  lemma RetainedRing(st: HistoryState, histories: Histories, requested: set<Symbol>, s: Symbol)
    ensures BarsOf(RetainHistories(st, histories, requested), s)
         == if Retained(st.recipes, requested, s) then BarsOf(histories, s) else map[]
  {
    hide Retained;
  }

  lemma RetainAgrees(a: HistoryState, b: HistoryState, requested: set<Symbol>, s: Symbol)
    requires SameRings(a, b, s) && a.recipes == b.recipes
    ensures SameRings(Retain(a, requested), Retain(b, requested), s)
  {
    hide RetainHistories, Retained;
    RetainedRing(a, a.one, requested, s);
    RetainedRing(b, b.one, requested, s);
    RetainedRing(a, a.five, requested, s);
    RetainedRing(b, b.five, requested, s);
    RetainedRing(a, a.daily, requested, s);
    RetainedRing(b, b.daily, requested, s);
  }

  lemma RecipesAgree(compute: Arithmetic, a: HistoryState, b: HistoryState, call: Call)
    requires WellFormed(a) && WellFormed(b) && a.recipes == b.recipes
    ensures Step(compute, a, call).recipes == Step(compute, b, call).recipes
  {
    hide LoadHistories, PruneHistories, RetainHistories, Affected, Retained, ClosesCycle, LegalRecipe, LegalHistories,
         Ranked;
    match call
    case RegisterCall(x, recipe) =>
      assert Installs(a, x, recipe) <==> Installs(b, x, recipe);
    case RetainCall(symbols) =>
      assert Retain(a, symbols).recipes == Retain(b, symbols).recipes;
    case _ =>
  }

  /** What a call does to a ring depends on that ring and the recipes alone. */
  lemma StepAgrees(compute: Arithmetic, a: HistoryState, b: HistoryState, call: Call, s: Symbol)
    requires WellFormed(a) && WellFormed(b) && a.recipes == b.recipes && SameRings(a, b, s)
    ensures SameRings(Step(compute, a, call), Step(compute, b, call), s)
  {
    hide Add, Load, PruneSymbols, Retain, ChangeReferences, Affected, ClosesCycle, LegalRecipe, LegalHistories, Ranked;
    match call
    case AddCall(p) => AddAgrees(a, b, p, s);
    case LoadCall(points) => LoadAgrees(a, b, points, s);
    case PruneCall(now) =>
      PrunedRings(a, now, s);
      PrunedRings(b, now, s);
    case RetainCall(symbols) => RetainAgrees(a, b, symbols, s);
    case RegisterCall(x, recipe) =>
      assert Installs(a, x, recipe) <==> Installs(b, x, recipe);
    case ReferencesCall(x, asOf) =>
      ReferencesKeepRings(compute, a, x, asOf);
      ReferencesKeepRings(compute, b, x, asOf);
  }

  lemma ReferencesKeepRings(compute: Arithmetic, st: HistoryState, x: Symbol, asOf: int)
    requires LegalRecipes(st.recipes)
    ensures var after := ChangeReferences(compute, st, x, asOf);
            after.one == st.one && after.five == st.five && after.daily == st.daily
  {
  }

  lemma {:induction false} RunsAgree(compute: Arithmetic, a: HistoryState, b: HistoryState, calls: seq<Call>,
                                     others: set<Symbol>)
    requires WellFormed(a) && WellFormed(b) && AgreeOutside(a, b, others)
    ensures AgreeOutside(Run(compute, a, calls), Run(compute, b, calls), others)
    decreases |calls|
  {
    hide Step, LegalRecipe, LegalHistories, Ranked, SameRings;
    if calls != [] {
      var call := calls[0];
      StepIsWellFormed(compute, a, call);
      StepIsWellFormed(compute, b, call);
      RecipesAgree(compute, a, b, call);
      forall s | s !in others ensures SameRings(Step(compute, a, call), Step(compute, b, call), s) {
        StepAgrees(compute, a, b, call, s);
      }
      RunsAgree(compute, Step(compute, a, call), Step(compute, b, call), calls[1..], others);
    }
  }

  lemma RestoringAgrees(st: HistoryState, restored: seq<PricePoint>)
    ensures AgreeOutside(Load(st, restored), st, SymbolsOf(restored))
  {
    hide LoadHistories;
    forall s | s !in SymbolsOf(restored) ensures SameRings(Load(st, restored), st, s) {
      LoadKeepsOthers(st, restored, SymbolsOf(restored), s);
    }
  }

  /**
   The history of a failed activation: restored archives, the calls of everybody else meanwhile, the handler's cut.
   */
  ghost function AfterFailure(compute: Arithmetic, st: HistoryState, restored: seq<PricePoint>, meanwhile: seq<Call>,
                              previous: set<Symbol>): HistoryState
    requires WellFormed(st)
  {
    LoadIsWellFormed(st, restored);
    Retain(Run(compute, Load(st, restored), meanwhile), previous)
  }

  /**
   A failed activation leaves the shared history to the previous generation as if it had not been tried: whatever
   others did meanwhile, each symbol of the previous closure has the rings it would have without the attempt,
   unless the archive restored points for that very symbol; and nothing outside the closure is left.
   */
  lemma FailedActivationKeepsHistory(compute: Arithmetic, st: HistoryState, restored: seq<PricePoint>,
                                     meanwhile: seq<Call>, previous: set<Symbol>, s: Symbol)
    requires WellFormed(st)
    ensures var after, alone := AfterFailure(compute, st, restored, meanwhile, previous), Run(compute, st, meanwhile);
            if Retained(alone.recipes, previous, s)
            then s !in SymbolsOf(restored) ==> SameRings(after, alone, s)
            else s !in after.one && s !in after.five && s !in after.daily && s !in after.recipes
  {
    hide Load, Run, Retained, WellFormed, SymbolsOf, SameRings;
    LoadIsWellFormed(st, restored);
    RestoringAgrees(st, restored);
    RunsAgree(compute, Load(st, restored), st, meanwhile, SymbolsOf(restored));
    CutRings(Run(compute, Load(st, restored), meanwhile), Run(compute, st, meanwhile), previous, s);
  }

  lemma CutRings(a: HistoryState, b: HistoryState, previous: set<Symbol>, s: Symbol)
    requires a.recipes == b.recipes
    ensures var after := Retain(a, previous);
            if Retained(b.recipes, previous, s) then SameRings(a, b, s) ==> SameRings(after, b, s)
            else s !in after.one && s !in after.five && s !in after.daily && s !in after.recipes
  {
    hide Retained;
  }

  /**
   What reaches the shared price history meanwhile: calls of others before and after the archive of the new symbols
   is restored, that archive, and the warm prices of the new generation.
   */
  datatype Traffic = Traffic(earlier: seq<Call>, archive: seq<PricePoint>, later: seq<Call>, warm: seq<PricePoint>)

  /** The history after the calls of an attempt; the archive is restored once the lease is held. */
  ghost function Attempted(compute: Arithmetic, st: HistoryState, traffic: Traffic,
                           restores: bool): (after: HistoryState)
    requires WellFormed(st)
    ensures WellFormed(after)
  {
    var before := Run(compute, st, traffic.earlier);
    LoadIsWellFormed(before, traffic.archive);
    Run(compute, if restores then Load(before, traffic.archive) else before, traffic.later)
  }

  /** The history without the attempt: the calls of others alone. */
  ghost function Unattempted(compute: Arithmetic, st: HistoryState, traffic: Traffic): HistoryState
    requires WellFormed(st)
  {
    Run(compute, Run(compute, st, traffic.earlier), traffic.later)
  }

  /**
   After a failure the previous generation's closure has the rings it would have without the attempt, unless the
   archive held points of that very symbol, and nothing else is left.
   */
  ghost predicate HistoryKept(after: HistoryState, alone: HistoryState, traffic: Traffic, previous: set<Symbol>) {
    forall s ::
      if Retained(alone.recipes, previous, s)
      then s !in SymbolsOf(traffic.archive) ==> SameRings(after, alone, s)
      else s !in after.one && s !in after.five && s !in after.daily && s !in after.recipes
  }

  lemma CutHistoryIsKept(compute: Arithmetic, st: HistoryState, traffic: Traffic, restores: bool, previous: set<Symbol>)
    requires WellFormed(st)
    ensures HistoryKept(Retain(Attempted(compute, st, traffic, restores), previous), Unattempted(compute, st, traffic),
                        traffic, previous)
  {
    hide Run, Load, Retained, Retain, WellFormed, SymbolsOf, SameRings;
    var before := Run(compute, st, traffic.earlier);
    forall s
      ensures var after, alone := Retain(Attempted(compute, st, traffic, restores), previous),
        Unattempted(compute, st, traffic);
              if Retained(alone.recipes, previous, s)
              then s !in SymbolsOf(traffic.archive) ==> SameRings(after, alone, s)
              else s !in after.one && s !in after.five && s !in after.daily && s !in after.recipes
    {
      if restores {
        FailedActivationKeepsHistory(compute, before, traffic.archive, traffic.later, previous, s);
      } else {
        CutRings(Run(compute, before, traffic.later), Run(compute, before, traffic.later), previous, s);
        SameAsItself(Run(compute, before, traffic.later), s);
      }
    }
  }

  lemma SameAsItself(st: HistoryState, s: Symbol)
    ensures SameRings(st, st, s)
  {
  }

  /** Warm prices enter the ring of their symbol one by one. */
  function WarmCalls(warm: seq<PricePoint>): seq<Call> {
    seq(|warm|, i requires 0 <= i < |warm| => AddCall(warm[i]))
  }

  /** The end of a successful activation: the warm prices go in and only the new closure is kept. */
  ghost function Warmed(compute: Arithmetic, st: HistoryState, warm: seq<PricePoint>,
                        symbols: set<Symbol>): (after: HistoryState)
    requires WellFormed(st)
    ensures WellFormed(after)
  {
    RetainIsWellFormed(Run(compute, st, WarmCalls(warm)), symbols);
    Retain(Run(compute, st, WarmCalls(warm)), symbols)
  }

  ghost function AfterSuccess(compute: Arithmetic, st: HistoryState, traffic: Traffic,
                              symbols: set<Symbol>): HistoryState
    requires WellFormed(st)
  {
    Warmed(compute, Attempted(compute, st, traffic, true), traffic.warm, symbols)
  }
}
