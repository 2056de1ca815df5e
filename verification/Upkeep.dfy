/**
 What the upkeep of the history leaves, told bar by bar and entry by entry: expiry, the registration of a virtual
 symbol and the restriction to a closure of symbols, and which cached references each operation gives up.
 */
module Upkeep {
  import opened Basics
  import opened SymbolGraph
  import opened PriceBars
  import opened HistoryModel
  import opened HistoryRuns
  import opened StoredBars

  /** `k` is `s`, or its price is derived from that of `s`, directly or through other symbols. */
  ghost predicate DependsOn(recipes: map<Symbol, Recipe>, k: Symbol, s: Symbol) {
    k == s || (k in recipes && Reaches(InputGraph(recipes), k, s))
  }

  /** Some ring of the symbol has a bar beyond its retention. */
  ghost predicate HasExpired(st: HistoryState, s: Symbol, now: int) {
    exists ring: Interval, t :: !ring.Unsupported? && t in RingOf(st, ring, s) && t < now - Retention(ring)
  }

  /** The bars within the retention stay; a reference goes exactly when it may rest on a ring that lost a bar. */
  ghost predicate IsPruned(before: HistoryState, after: HistoryState, now: int) {
    && after.recipes == before.recipes
    && (forall ring: Interval, s, t :: !ring.Unsupported? ==>
          && (t in RingOf(after, ring, s) <==> t in RingOf(before, ring, s) && t >= now - Retention(ring))
          && (t in RingOf(after, ring, s) ==> RingOf(after, ring, s)[t] == RingOf(before, ring, s)[t]))
    && (forall k :: k in after.references <==>
          k in before.references && !exists s :: HasExpired(before, s, now) && DependsOn(before.recipes, k, s))
    && (forall k :: k in after.references ==> after.references[k] == before.references[k])
  }

  /** The symbol has its recipe, no ring of its own and no reference resting on it; nothing else changes. */
  ghost predicate IsRegistered(before: HistoryState, after: HistoryState, s: Symbol, recipe: Recipe) {
    && after.recipes == before.recipes[s := recipe]
    && (forall ring: Interval, x :: RingOf(after, ring, x) == if x == s then map[] else RingOf(before, ring, x))
    && (forall k :: k in after.references <==> k in before.references && !DependsOn(after.recipes, k, s))
    && (forall k :: k in after.references ==> after.references[k] == before.references[k])
  }

  ghost predicate IsNeeded(recipes: map<Symbol, Recipe>, requested: set<Symbol>, k: Symbol) {
    exists r :: r in requested && DependsOn(recipes, r, k)
  }

  /** What a requested symbol depends on keeps all it has, every other symbol loses its rings and its recipe. */
  ghost predicate IsRetained(before: HistoryState, after: HistoryState, requested: set<Symbol>) {
    && (forall ring: Interval, s :: RingOf(after, ring, s) ==
          if IsNeeded(before.recipes, requested, s) then RingOf(before, ring, s) else map[])
    && (forall s :: s in after.recipes <==> s in before.recipes && IsNeeded(before.recipes, requested, s))
    && (forall s :: s in after.recipes ==> after.recipes[s] == before.recipes[s])
    && (forall k :: k in after.references ==> k in before.references && after.references[k] == before.references[k])
    && (forall k :: k in before.references && IsNeeded(before.recipes, requested, k) ==> k in after.references)
  }

  /** A point drops the references its bar may move and, if it makes a bar expire, all that rest on its symbol. */
  ghost predicate EntriesAfterAdd(before: HistoryState, after: HistoryState, p: PricePoint) {
    && (forall k :: k in after.references <==>
          k in before.references
          && (DependsOn(before.recipes, k, p.symbol) ==>
                p.timestamp > before.references[k].asOf - HOUR && !HasExpired(before, p.symbol, p.timestamp)))
    && (forall k :: k in after.references ==> after.references[k] == before.references[k])
  }

  lemma AffectedMeans(recipes: map<Symbol, Recipe>, k: Symbol, s: Symbol)
    ensures k in Affected(recipes, s) <==> DependsOn(recipes, k, s)
  {
    hide Reaches;
  }

  lemma AffectedByAnyMeans(recipes: map<Symbol, Recipe>, symbols: set<Symbol>, k: Symbol)
    ensures k in AffectedByAny(recipes, symbols) <==> exists s :: s in symbols && DependsOn(recipes, k, s)
  {
    hide DependsOn, Affected;
    if s :| s in symbols && DependsOn(recipes, k, s) {
      AffectedMeans(recipes, k, s);
    }
    if k in AffectedByAny(recipes, symbols) {
      var s :| s in symbols && k in Affected(recipes, s);
      AffectedMeans(recipes, k, s);
    }
  }

  lemma LosesBars(bars: Bars, cutoff: int)
    ensures Since(bars, cutoff) != bars <==> exists t :: t in bars && t < cutoff
  {
    if t :| t in bars && t < cutoff {
      assert t !in Since(bars, cutoff);
    } else {
      assert Since(bars, cutoff) == bars;
    }
  }

  lemma ExpiresMeans(st: HistoryState, s: Symbol, now: int)
    ensures Expires(st, s, now) <==> HasExpired(st, s, now)
  {
    hide Since, BarsOf;
    LosesBars(BarsOf(st.one, s), now - ONE_MINUTE_RETENTION);
    LosesBars(BarsOf(st.five, s), now - FIVE_MINUTE_RETENTION);
    LosesBars(BarsOf(st.daily, s), now - DAILY_RETENTION);
    assert RingOf(st, OneMinute, s) == BarsOf(st.one, s) && RingOf(st, FiveMinutes, s) == BarsOf(st.five, s)
           && RingOf(st, OneDay, s) == BarsOf(st.daily, s);
    assert Retention(OneMinute) == ONE_MINUTE_RETENTION && Retention(FiveMinutes) == FIVE_MINUTE_RETENTION
           && Retention(OneDay) == DAILY_RETENTION;
  }

  lemma ExpiredIsPresent(st: HistoryState, s: Symbol, now: int)
    requires HasExpired(st, s, now)
    ensures s in Present(st)
  {
  }

  lemma AbsentHasNoRing(st: HistoryState, s: Symbol, ring: Interval)
    requires s !in Present(st)
    ensures RingOf(st, ring, s) == map[]
  {
  }

  /** Expiry drops the references that may rest on a ring that lost a bar. */
  lemma PrunedEntries(st: HistoryState, symbols: set<Symbol>, now: int)
    ensures var after := PruneSymbols(st, symbols, now).references;
            && (forall k :: k in after <==>
                  k in st.references && !exists s ::
                    s in symbols && HasExpired(st, s, now) && DependsOn(st.recipes, k, s))
            && (forall k :: k in after ==> after[k] == st.references[k])
  {
    hide Expires, HasExpired, DependsOn, PruneHistories, AffectedByAny;
    var expired := set s | s in symbols && Expires(st, s, now);
    forall k
      ensures k in AffectedByAny(st.recipes, expired) <==>
        exists s :: s in symbols && HasExpired(st, s, now) && DependsOn(st.recipes, k, s)
    {
      AffectedByAnyMeans(st.recipes, expired, k);
      forall s ensures Expires(st, s, now) <==> HasExpired(st, s, now) {
        ExpiresMeans(st, s, now);
      }
    }
  }

  lemma PruneKeepsBars(st: HistoryState, now: int, ring: Interval, s: Symbol)
    requires !ring.Unsupported?
    ensures RingOf(Prune(st, now), ring, s) == Since(RingOf(st, ring, s), now - Retention(ring))
  {
    hide PruneSymbols, RingOf, Retention, Present;
    PrunedRingOf(st, Present(st), now, ring, s);
    if s !in Present(st) {
      AbsentHasNoRing(st, s, ring);
    }
  }

  /** Expiry over all symbols. */
  lemma PruneIs(st: HistoryState, now: int)
    ensures IsPruned(st, Prune(st, now), now)
  {
    hide RingOf, Retention, HasExpired, DependsOn, Present, PruneSymbols;
    forall ring: Interval, s | !ring.Unsupported?
      ensures RingOf(Prune(st, now), ring, s) == Since(RingOf(st, ring, s), now - Retention(ring))
    {
      PruneKeepsBars(st, now, ring, s);
    }
    forall s ensures HasExpired(st, s, now) ==> s in Present(st) {
      if HasExpired(st, s, now) {
        ExpiredIsPresent(st, s, now);
      }
    }
    PrunedEntries(st, Present(st), now);
    PruneKeepsRecipes(st, now);
  }

  lemma PruneKeepsRecipes(st: HistoryState, now: int)
    ensures Prune(st, now).recipes == st.recipes
  {
    hide PruneHistories, Forget, Expires, Present;
  }

  lemma RegisterIs(st: HistoryState, s: Symbol, recipe: Recipe)
    requires Installs(st, s, recipe)
    ensures IsRegistered(st, Register(st, s, recipe), s, recipe)
  {
    hide DependsOn, Affected, Installs;
    var recipes := st.recipes[s := recipe];
    forall k ensures k in Affected(recipes, s) <==> DependsOn(recipes, k, s) {
      AffectedMeans(recipes, k, s);
    }
  }

  lemma RetainedMeans(recipes: map<Symbol, Recipe>, requested: set<Symbol>, k: Symbol)
    ensures Retained(recipes, requested, k) <==> IsNeeded(recipes, requested, k)
  {
    forall r ensures Reaches(InputGraph(recipes), r, k) <==> DependsOn(recipes, r, k) {
      hide Reaches, InputGraph;
      ReachesSelf(InputGraph(recipes), k);
      if Reaches(InputGraph(recipes), r, k) && r != k {
        var next := ReachesFirstEdge(InputGraph(recipes), r, k);
        OnlyRecipesLead(recipes, r, next);
      }
    }
    hide Reaches, InputGraph, DependsOn;
  }

  lemma OnlyRecipesLead(recipes: map<Symbol, Recipe>, r: Symbol, next: Symbol)
    requires next in Successors(InputGraph(recipes), r)
    ensures r in recipes
  {
  }

  lemma RetainIs(st: HistoryState, requested: set<Symbol>)
    ensures IsRetained(st, Retain(st, requested), requested)
  {
    hide IsNeeded, Retained;
    forall k ensures Retained(st.recipes, requested, k) <==> IsNeeded(st.recipes, requested, k) {
      RetainedMeans(st.recipes, requested, k);
    }
  }

  lemma PutExpiresAlike(st: HistoryState, p: PricePoint)
    requires !p.interval.Unsupported?
    ensures HasExpired(PutPoint(st, p), p.symbol, p.timestamp) <==> HasExpired(st, p.symbol, p.timestamp)
  {
    hide RingOf, Bucketed, Enters, PutPoint;
    forall ring: Interval, t | !ring.Unsupported? && t < p.timestamp - Retention(ring)
      ensures t in RingOf(PutPoint(st, p), ring, p.symbol) <==> t in RingOf(st, ring, p.symbol)
    {
      PutRingOf(st, p, ring, p.symbol);
      BucketWithin(p.timestamp, ring);
    }
  }

  lemma BucketWithin(timestamp: int, ring: Interval)
    requires !ring.Unsupported?
    ensures Bucket(timestamp, ring) >= timestamp - Retention(ring)
  {
    hide Bucket;
  }

  /** Which references survive a point. */
  lemma AddKeepsEntries(st: HistoryState, p: PricePoint)
    requires !p.interval.Unsupported?
    ensures EntriesAfterAdd(st, Add(st, p), p)
  {
    hide Put, PruneSymbols, HasExpired, DependsOn, Affected;
    PutExpiresAlike(st, p);
    PrunedEntries(PutPoint(st, p), {p.symbol}, p.timestamp);
    forall k ensures k in Affected(st.recipes, p.symbol) <==> DependsOn(st.recipes, k, p.symbol) {
      AffectedMeans(st.recipes, k, p.symbol);
    }
  }

  /** A bulk load drops every reference that rests on a symbol it brings points of, and no other. */
  ghost predicate EntriesAfterLoad(before: HistoryState, after: HistoryState, points: seq<PricePoint>) {
    && (forall k :: k in after.references <==>
          k in before.references && !exists i :: 0 <= i < |points| && DependsOn(before.recipes, k, points[i].symbol))
    && (forall k :: k in after.references ==> after.references[k] == before.references[k])
  }

  lemma LoadKeepsEntries(st: HistoryState, points: seq<PricePoint>)
    requires AllSupported(points)
    ensures EntriesAfterLoad(st, Load(st, points), points)
  {
    hide LoadHistories, DependsOn, AffectedByAny;
    forall k
      ensures k in AffectedByAny(st.recipes, SymbolsOf(points)) <==>
        exists i :: 0 <= i < |points| && DependsOn(st.recipes, k, points[i].symbol)
    {
      AffectedByAnyMeans(st.recipes, SymbolsOf(points), k);
      forall i | 0 <= i < |points| ensures points[i].symbol in SymbolsOf(points) {
        assert points[i] in points;
      }
    }
  }
}
