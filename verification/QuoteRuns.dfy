/**
 Runs of the service over the history cache: quotes that arrive out of order, backfills, rebuilds and expiry. A quote
 older than the last one of its symbol is dropped, and that keeps every cached reference of a symbol with its own
 rings exact, whatever else happens.
 */
module QuoteRuns {
  import opened Basics
  import opened SymbolGraph
  import opened PriceBars
  import opened HistoryModel
  import opened HistoryRuns
  import opened StoredBars

  datatype Quote = Quote(symbol: Symbol, asOf: int, price: Price, provider: string, derived: bool)

  /** The history and the last quote of each symbol. */
  datatype Data = Data(history: HistoryState, last: map<Symbol, Quote>)

  datatype Event =
    | Arrives(quote: Quote)
    | Rebuilds(symbol: Symbol)
    | Backfills(points: seq<PricePoint>)
    | Expire(now: int)
    | Keeps(symbols: set<Symbol>)
    | Registers(symbol: Symbol, recipe: Recipe)

  /** A quote contributes one point, at the start of its minute. */
  function PointOf(q: Quote): PricePoint {
    PricePoint(q.symbol, MinuteOf(q.asOf), q.price, q.provider, q.derived, OneMinute)
  }

  predicate IsLate(data: Data, q: Quote) {
    q.symbol in data.last && q.asOf < data.last[q.symbol].asOf
  }

  /** The history and the last quote once `q` is accepted, before its snapshot is built. */
  ghost function Accepted(data: Data, q: Quote): Data {
    Data(Add(data.history, PointOf(q)), data.last[q.symbol := q])
  }

  /** A rebuild looks up the references for the instant of the last quote. */
  ghost function Rebuilt(compute: Arithmetic, data: Data, s: Symbol): Data
    requires LegalRecipes(data.history.recipes)
  {
    if s in data.last then data.(history := ChangeReferences(compute, data.history, s, data.last[s].asOf)) else data
  }

  ghost function Step(compute: Arithmetic, data: Data, event: Event): (after: Data)
    requires WellFormed(data.history)
    ensures WellFormed(after.history)
  {
    match event
    case Arrives(q) =>
      AddIsWellFormed(data.history, PointOf(q));
      if IsLate(data, q) then data
      else
        ReferencesCallIsWellFormed(compute, Accepted(data, q).history, q.symbol, q.asOf);
        Rebuilt(compute, Accepted(data, q), q.symbol)
    case Rebuilds(s) =>
      if s in data.last then
        ReferencesCallIsWellFormed(compute, data.history, s, data.last[s].asOf);
        Rebuilt(compute, data, s)
      else data
    case Backfills(points) => LoadIsWellFormed(data.history, points); data.(history := Load(data.history, points))
    case Expire(now) =>
      PruneIsWellFormed(data.history, Present(data.history), now);
      data.(history := Prune(data.history, now))
    case Keeps(symbols) => RetainIsWellFormed(data.history, symbols); data.(history := Retain(data.history, symbols))
    case Registers(s, recipe) =>
      RegisterIsWellFormed(data.history, s, recipe);
      data.(history := Register(data.history, s, recipe))
  }

  ghost function After(compute: Arithmetic, data: Data, events: seq<Event>): (after: Data)
    requires WellFormed(data.history)
    ensures WellFormed(after.history)
    decreases |events|
  {
    if events == [] then data else After(compute, Step(compute, data, events[0]), events[1..])
  }

  /** Backfilled daily points lie on whole minutes; nothing is asked of quotes, of their order or of anything else. */
  ghost predicate Regular(events: seq<Event>) {
    forall event :: event in events && event.Backfills? ==> forall p :: p in event.points ==> WholeMinuteIfDaily(p)
  }

  /** A cached entry is exact and was selected no later than the last quote. */
  ghost predicate EntryIsCurrent(compute: Arithmetic, data: Data, k: Symbol)
    requires LegalRecipes(data.history.recipes) && k in data.history.references
  {
    && k in data.last && data.history.references[k].asOf <= data.last[k].asOf
    && EntryIsFresh(compute, data.history, k)
  }

  /** The entries of all symbols with rings of their own are exact. */
  ghost predicate IsCurrent(compute: Arithmetic, data: Data) {
    && WellFormed(data.history) && WholeMinuteDaily(data.history)
    && forall k :: k in data.history.references && k !in data.history.recipes ==> EntryIsCurrent(compute, data, k)
  }

  /** The minute of a later quote lies clear of the cutoffs of an earlier one. */
  lemma LaterMinuteIsClear(earlier: int, later: int)
    requires earlier <= later
    ensures Bucket(MinuteOf(later), FiveMinutes) > earlier - HOUR
  {
  }

  lemma AcceptedIsCurrent(compute: Arithmetic, data: Data, q: Quote)
    requires IsCurrent(compute, data) && !IsLate(data, q)
    ensures IsCurrent(compute, Accepted(data, q))
  {
    hide EntryIsFresh, Add, LegalHistories, Ranked, Bucket;
    var p, after := PointOf(q), Accepted(data, q);
    AddIsWellFormed(data.history, p);
    forall k | k in after.history.references && k !in after.history.recipes ensures EntryIsCurrent(compute, after, k) {
      AddForgets(data.history, p, k);
      if k == q.symbol {
        LaterMinuteIsClear(data.history.references[k].asOf, q.asOf);
      }
      PlainIsAffectedAlone(data.history.recipes, p.symbol, k);
      AddKeepsEntry(compute, data.history, p, k);
    }
  }

  lemma AddForgets(st: HistoryState, p: PricePoint, k: Symbol)
    ensures Add(st, p).recipes == st.recipes
    ensures k in Add(st, p).references ==> k in st.references
  {
    hide Expires, Affected, PruneHistories, Put;
  }

  lemma PlainIsAffectedAlone(recipes: map<Symbol, Recipe>, s: Symbol, k: Symbol)
    requires k !in recipes
    ensures k in Affected(recipes, s) ==> k == s
  {
  }

  lemma RebuiltIsCurrent(compute: Arithmetic, data: Data, s: Symbol)
    requires IsCurrent(compute, data) && s in data.last
    ensures IsCurrent(compute, Rebuilt(compute, data, s))
  {
    hide EntryIsFresh, FreshReferences, LegalHistories, Ranked;
    var asOf, after := data.last[s].asOf, Rebuilt(compute, data, s);
    ReferencesCallIsWellFormed(compute, data.history, s, asOf);
    forall k | k in after.history.references && k !in after.history.recipes ensures EntryIsCurrent(compute, after, k) {
      ReferencesCallKeepsEntry(compute, data.history, s, asOf, k);
    }
  }

  /** One event leaves every entry of a symbol with its own rings exact. */
  lemma StepIsCurrent(compute: Arithmetic, data: Data, event: Event)
    requires IsCurrent(compute, data) && Regular([event])
    ensures IsCurrent(compute, Step(compute, data, event))
  {
    hide EntryIsCurrent, LegalHistories, Ranked, FreshReferences, Add, Load, Prune, Retain, Register;
    match event
    case Arrives(q) =>
      if !IsLate(data, q) {
        AcceptedIsCurrent(compute, data, q);
        RebuiltIsCurrent(compute, Accepted(data, q), q.symbol);
      }
    case Rebuilds(s) =>
      if s in data.last {
        RebuiltIsCurrent(compute, data, s);
      }
    case Backfills(points) => BackfilledIsCurrent(compute, data, points);
    case Expire(now) => ExpiredIsCurrent(compute, data, now);
    case Keeps(symbols) => KeptIsCurrent(compute, data, symbols);
    case Registers(s, recipe) => RegisteredIsCurrent(compute, data, s, recipe);
  }

  lemma BackfilledIsCurrent(compute: Arithmetic, data: Data, points: seq<PricePoint>)
    requires IsCurrent(compute, data) && forall p :: p in points ==> WholeMinuteIfDaily(p)
    ensures IsCurrent(compute, data.(history := Load(data.history, points)))
  {
    hide EntryIsFresh, LoadHistories, LegalHistories, Ranked;
    var after := Load(data.history, points);
    LoadIsWellFormed(data.history, points);
    forall k | k in after.references && k !in after.recipes
      ensures EntryIsCurrent(compute, data.(history := after), k)
    {
      assert k in data.history.references && k !in data.history.recipes;
      LoadKeepsEntry(compute, data.history, points, k);
    }
  }

  lemma ExpiredIsCurrent(compute: Arithmetic, data: Data, now: int)
    requires IsCurrent(compute, data)
    ensures IsCurrent(compute, data.(history := Prune(data.history, now)))
  {
    hide EntryIsFresh, PruneHistories, Expires, Affected, LegalHistories, Ranked;
    var after := Prune(data.history, now);
    PruneIsWellFormed(data.history, Present(data.history), now);
    forall k | k in after.references && k !in after.recipes
      ensures EntryIsCurrent(compute, data.(history := after), k)
    {
      PruneKeepsEntry(compute, data.history, Present(data.history), now, k);
    }
  }

  lemma KeptIsCurrent(compute: Arithmetic, data: Data, symbols: set<Symbol>)
    requires IsCurrent(compute, data)
    ensures IsCurrent(compute, data.(history := Retain(data.history, symbols)))
  {
    hide EntryIsFresh, RetainHistories, Retained, LegalHistories, Ranked;
    var after := Retain(data.history, symbols);
    RetainIsWellFormed(data.history, symbols);
    forall k | k in after.references && k !in after.recipes
      ensures EntryIsCurrent(compute, data.(history := after), k)
    {
      assert k in data.history.references && k !in data.history.recipes;
      RetainKeepsEntry(compute, data.history, symbols, k);
    }
  }

  lemma RegisteredIsCurrent(compute: Arithmetic, data: Data, s: Symbol, recipe: Recipe)
    requires IsCurrent(compute, data)
    ensures IsCurrent(compute, data.(history := Register(data.history, s, recipe)))
  {
    hide EntryIsFresh, Installs, Affected, LegalHistories, Ranked;
    var after := Register(data.history, s, recipe);
    RegisterIsWellFormed(data.history, s, recipe);
    forall k | k in after.references && k !in after.recipes
      ensures EntryIsCurrent(compute, data.(history := after), k)
    {
      assert k in data.history.references && k !in data.history.recipes;
      RegisterKeepsEntry(compute, data.history, s, recipe, k);
    }
  }

  /** Over every run, whatever the order of the quotes, the entries of symbols with their own rings stay exact. */
  lemma {:induction false} RunIsCurrent(compute: Arithmetic, data: Data, events: seq<Event>)
    requires IsCurrent(compute, data) && Regular(events)
    ensures IsCurrent(compute, After(compute, data, events))
    decreases |events|
  {
    hide EntryIsCurrent, Step, LegalHistories, Ranked;
    if events != [] {
      StepIsCurrent(compute, data, events[0]);
      RunIsCurrent(compute, Step(compute, data, events[0]), events[1..]);
    }
  }

  /** What a rebuild is handed on current data: for a symbol with its own rings, what a full lookup selects. */
  lemma LookupIsExact(compute: Arithmetic, data: Data, s: Symbol, asOf: int)
    requires IsCurrent(compute, data) && s !in data.history.recipes
    ensures var after := ChangeReferences(compute, data.history, s, asOf);
            s in after.references && after.references[s].references == FreshReferences(compute, data.history, s, asOf)
  {
    hide FreshReferences, LegalHistories, Ranked;
  }

  /**
   The references behind every published change of a symbol with its own rings are those a full lookup selects at the
   instant of the quote: for the last quote after any run, and for a quote that is accepted then.
   */
  lemma PublishedChangesAreExact(compute: Arithmetic, start: Data, events: seq<Event>, s: Symbol, q: Quote)
    requires IsCurrent(compute, start) && Regular(events)
    ensures var data := After(compute, start, events);
            s !in data.history.recipes && s in data.last ==>
              var asOf := data.last[s].asOf;
              var after := Rebuilt(compute, data, s).history;
              s in after.references && after.references[s].references == FreshReferences(compute, data.history, s, asOf)
    ensures var data := After(compute, start, events);
            q.symbol == s && s !in data.history.recipes && !IsLate(data, q) ==>
              && WellFormed(Accepted(data, q).history)
              && var after := Rebuilt(compute, Accepted(data, q), s).history;
                 s in after.references
                 && after.references[s].references == FreshReferences(compute, Accepted(data, q).history, s, q.asOf)
  {
    hide FreshReferences, EntryIsCurrent, Add, After, WholeMinuteDaily, LegalHistories, Ranked;
    RunIsCurrent(compute, start, events);
    var data := After(compute, start, events);
    if s !in data.history.recipes && s in data.last {
      LookupIsExact(compute, data, s, data.last[s].asOf);
    }
    if q.symbol == s && s !in data.history.recipes && !IsLate(data, q) {
      AcceptedIsCurrent(compute, data, q);
      AddForgets(data.history, PointOf(q), s);
      LookupIsExact(compute, Accepted(data, q), s, q.asOf);
    }
  }

  /** A service starts with nothing, which is current. */
  lemma NothingIsCurrent(compute: Arithmetic)
    ensures IsCurrent(compute, Data(EMPTY, map[]))
  {
    EmptyIsCoherent(compute);
  }

  /**
   What an arriving quote does: an older one than the last changes nothing; any other becomes the last quote and, as far
   as its minute is not expired at once, the bar of its minute, and no ring of another symbol changes.
   */
  lemma ArrivalIs(compute: Arithmetic, data: Data, q: Quote)
    requires WellFormed(data.history)
    ensures var after := Step(compute, data, Arrives(q));
            if q.symbol in data.last && q.asOf < data.last[q.symbol].asOf then after == data
            else
              && after.last == data.last[q.symbol := q]
              && (forall s :: s != q.symbol ==> SameRings(after.history, data.history, s))
              && var ring, minute := RingOf(after.history, OneMinute, q.symbol), q.asOf - q.asOf % MINUTE;
                 && minute in ring && ring[minute].symbol == q.symbol && ring[minute].price == q.price
                 && ring[minute].provider == q.provider && ring[minute].isDerived == q.derived
  {
    hide Add, Bucket, FreshReferences, LegalHistories, Ranked, RingOf, SameRings;
    if !IsLate(data, q) {
      AddIsWellFormed(data.history, PointOf(q));
      RebuildKeepsRings(compute, Accepted(data, q), q.symbol);
      AcceptedRings(data, q);
      var after, added := Rebuilt(compute, Accepted(data, q), q.symbol).history, Accepted(data, q).history;
      SameHistoriesSameRings(after, added);
    }
  }

  lemma SameHistoriesSameRings(a: HistoryState, b: HistoryState)
    requires a.one == b.one && a.five == b.five && a.daily == b.daily
    ensures forall ring, s :: RingOf(a, ring, s) == RingOf(b, ring, s)
    ensures forall s, st :: SameRings(b, st, s) ==> SameRings(a, st, s)
  {
  }

  lemma AcceptedRings(data: Data, q: Quote)
    ensures forall s :: s != q.symbol ==> SameRings(Accepted(data, q).history, data.history, s)
    ensures var ring, minute := RingOf(Accepted(data, q).history, OneMinute, q.symbol), q.asOf - q.asOf % MINUTE;
            && minute in ring && ring[minute].symbol == q.symbol && ring[minute].price == q.price
            && ring[minute].provider == q.provider && ring[minute].isDerived == q.derived
  {
    var added, p := Accepted(data, q).history, PointOf(q);
    AddIs(data.history, p);
    MinuteIsItsBucket(q.asOf);
    hide Add, Bucket, RingOf, SameRings;
    forall s | s != q.symbol ensures SameRings(added, data.history, s) {
      SameRingsOf(added, data.history, s);
    }
    assert RingIsAdded(RingOf(data.history, OneMinute, q.symbol), RingOf(added, OneMinute, q.symbol), p, OneMinute);
  }

  lemma MinuteIsItsBucket(asOf: int)
    ensures MinuteOf(asOf) == asOf - asOf % MINUTE == Bucket(MinuteOf(asOf), OneMinute)
  {
  }

  lemma RebuildKeepsRings(compute: Arithmetic, data: Data, s: Symbol)
    requires LegalRecipes(data.history.recipes)
    ensures var after := Rebuilt(compute, data, s);
            && after.last == data.last && after.history.one == data.history.one
            && after.history.five == data.history.five && after.history.daily == data.history.daily
  {
    hide FreshReferences;
  }
}
