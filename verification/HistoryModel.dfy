/**
 What the history cache means, free of rings, reverse indexes and recursion: every ring is a
 finite map from timestamp to point, and every operation is one expression over such maps.
 `HistoryCache` refines these operations; the properties of whole runs are proved here.
 */
module HistoryModel {
  import opened Basics
  import opened SymbolGraph
  import opened PriceBars

  const ONE_MINUTE_RETENTION := 48 * HOUR
  const FIVE_MINUTE_RETENTION := 45 * DAY
  const DAILY_RETENTION := 400 * DAY

  datatype Window = Hour | FourHours | Day | Week | Month | Year

  const WINDOWS: seq<Window> := [Hour, FourHours, Day, Week, Month, Year]

  function Duration(w: Window): int {
    match w
    case Hour => HOUR
    case FourHours => 4 * HOUR
    case Day => DAY
    case Week => 7 * DAY
    case Month => 30 * DAY
    case Year => 365 * DAY
  }

  lemma DurationsAreWholeMinutes(w: Window)
    ensures w in WINDOWS && Duration(w) >= HOUR && Duration(w) % MINUTE == 0
    ensures Duration(w) == 60 * MINUTE * match w
      case Hour => 1
      case FourHours => 4
      case Day => 24
      case Week => 24 * 7
      case Month => 24 * 30
      case Year => 24 * 365
  {
    match w
    case Hour => assert w == WINDOWS[0];
    case FourHours => assert w == WINDOWS[1];
    case Day => assert w == WINDOWS[2];
    case Week => assert w == WINDOWS[3];
    case Month => assert w == WINDOWS[4];
    case Year => assert w == WINDOWS[5];
  }

  // ----- synthetic histories

  datatype Operation = Inverse | Multiply | Divide | Unknown(name: string)

  /** Decimal arithmetic on two prices; `None` stands for an arithmetic exception. */
  type Arithmetic = (Operation, Price, Price) -> Option<real>

  datatype Recipe = Recipe(inputs: seq<Symbol>, operation: Operation, maxSkew: int, provider: string)

  predicate LegalShape(recipe: Recipe) {
    && !recipe.operation.Unknown?
    && |recipe.inputs| == if recipe.operation.Inverse? then 1 else 2
  }

  predicate LegalRecipe(recipe: Recipe) {
    LegalShape(recipe) && recipe.maxSkew >= 0
  }

  function InputGraph(recipes: map<Symbol, Recipe>): Graph {
    map d | d in recipes :: set x | x in recipes[d].inputs
  }

  /** The derived point that `left` yields, if the inputs are close enough and the price is positive. */
  function DerivedPoint(compute: Arithmetic, symbol: Symbol, recipe: Recipe, interval: Interval,
                        left: PricePoint, right: Bars): Option<PricePoint>
  {
    var price :=
      if recipe.operation.Inverse? then compute(Divide, 1.0, left.price)
      else match Latest(right, left.timestamp)
        case None => None
        case Some(partner) =>
          if left.timestamp - partner.timestamp > recipe.maxSkew then None
          else compute(recipe.operation, left.price, partner.price);
    if price.Some? && price.value > 0.0
    then Some(PricePoint(symbol, left.timestamp, price.value, recipe.provider, true, interval))
    else None
  }

  /** The materialised history: every left bar aligned to the last right bar at or before it. */
  function DerivedBars(compute: Arithmetic, symbol: Symbol, recipe: Recipe, interval: Interval,
                       left: Bars, right: Bars): Bars
  {
    map t | t in left && DerivedPoint(compute, symbol, recipe, interval, left[t], right).Some? ::
      DerivedPoint(compute, symbol, recipe, interval, left[t], right).value
  }

  lemma DerivedPointPrefix(compute: Arithmetic, symbol: Symbol, recipe: Recipe, interval: Interval,
                           left: PricePoint, right: Bars, cutoff: int)
    requires left.timestamp <= cutoff
    ensures DerivedPoint(compute, symbol, recipe, interval, left, right)
         == DerivedPoint(compute, symbol, recipe, interval, left, Upto(right, cutoff))
  {
    assert Upto(Upto(right, cutoff), left.timestamp) == Upto(right, left.timestamp);
  }

  lemma DerivedPrefix(compute: Arithmetic, symbol: Symbol, recipe: Recipe, interval: Interval,
                      left: Bars, right: Bars, cutoff: int)
    requires KeyedByTime(left)
    ensures Upto(DerivedBars(compute, symbol, recipe, interval, left, right), cutoff)
         == DerivedBars(compute, symbol, recipe, interval, Upto(left, cutoff), Upto(right, cutoff))
  {
    var a := Upto(DerivedBars(compute, symbol, recipe, interval, left, right), cutoff);
    var b := DerivedBars(compute, symbol, recipe, interval, Upto(left, cutoff), Upto(right, cutoff));
    forall t | t in left && t <= cutoff
      ensures t in a <==> t in b
      ensures t in a ==> a[t] == b[t]
    {
      DerivedPointPrefix(compute, symbol, recipe, interval, left[t], right, cutoff);
      assert Upto(left, cutoff)[t] == left[t];
    }
  }

  // ----- the state

  /** The six references of one symbol, selected for the instant `asOf`. */
  datatype ReferenceEntry = ReferenceEntry(asOf: int, references: map<Window, Option<PricePoint>>)

  type Histories = map<Symbol, Bars>

  datatype HistoryState = HistoryState(
    one: Histories, five: Histories, daily: Histories,
    references: map<Symbol, ReferenceEntry>, recipes: map<Symbol, Recipe>)

  const EMPTY := HistoryState(map[], map[], map[], map[], map[])

  function BarsOf(histories: Histories, s: Symbol): Bars {
    if s in histories then histories[s] else map[]
  }

  function FirstKnown(a: Option<PricePoint>, b: Option<PricePoint>, c: Option<PricePoint>): Option<PricePoint> {
    if a.Some? then a else if b.Some? then b else c
  }

  function PlainReference(st: HistoryState, s: Symbol, cutoff: int): Option<PricePoint> {
    FirstKnown(Latest(BarsOf(st.one, s), cutoff), Latest(BarsOf(st.five, s), cutoff),
               Latest(BarsOf(st.daily, s), cutoff))
  }

  function DerivedHistory(compute: Arithmetic, histories: Histories, s: Symbol, recipe: Recipe,
                          interval: Interval): Bars
    requires LegalRecipe(recipe)
  {
    DerivedBars(compute, s, recipe, interval, BarsOf(histories, recipe.inputs[0]),
                BarsOf(histories, recipe.inputs[|recipe.inputs| - 1]))
  }

  function SyntheticReference(compute: Arithmetic, st: HistoryState, s: Symbol, recipe: Recipe,
                              cutoff: int): Option<PricePoint>
    requires LegalRecipe(recipe)
  {
    FirstKnown(Latest(DerivedHistory(compute, st.one, s, recipe, OneMinute), cutoff),
               Latest(DerivedHistory(compute, st.five, s, recipe, FiveMinutes), cutoff),
               Latest(DerivedHistory(compute, st.daily, s, recipe, OneDay), cutoff))
  }

  ghost predicate LegalRecipes(recipes: map<Symbol, Recipe>) {
    forall d :: d in recipes ==> LegalRecipe(recipes[d])
  }

  /** The reference for `s` at `cutoff`, looked up afresh. */
  function Reference(compute: Arithmetic, st: HistoryState, s: Symbol, cutoff: int): Option<PricePoint>
    requires LegalRecipes(st.recipes)
  {
    if s in st.recipes then SyntheticReference(compute, st, s, st.recipes[s], cutoff)
    else PlainReference(st, s, cutoff)
  }

  function FreshReferences(compute: Arithmetic, st: HistoryState, s: Symbol, asOf: int): map<Window, Option<PricePoint>>
    requires LegalRecipes(st.recipes)
  {
    map w: Window :: Reference(compute, st, s, asOf - Duration(w))
  }

  // ----- invariants

  ghost predicate LegalHistories(histories: Histories, unit: int)
    requires unit > 0
  {
    forall s :: s in histories ==>
      histories[s] != map[] && KeyedByTime(histories[s]) && AllWhole(histories[s], unit)
  }

  ghost predicate WellFormed(st: HistoryState) {
    && LegalHistories(st.one, MINUTE)
    && LegalHistories(st.five, FIVE_MINUTES)
    && LegalHistories(st.daily, 1)
    && LegalRecipes(st.recipes)
    && Ranked(InputGraph(st.recipes))
  }

  ghost predicate WholeMinuteDaily(st: HistoryState) {
    LegalHistories(st.daily, MINUTE)
  }

  /** The cached entry of `s` answers every instant of its minute exactly as a fresh lookup would. */
  ghost predicate EntryIsFresh(compute: Arithmetic, st: HistoryState, s: Symbol)
    requires LegalRecipes(st.recipes) && s in st.references
  {
    forall asOf :: MinuteOf(asOf) == MinuteOf(st.references[s].asOf) ==>
      st.references[s].references == FreshReferences(compute, st, s, asOf)
  }

  ghost predicate Coherent(compute: Arithmetic, st: HistoryState)
    requires LegalRecipes(st.recipes)
  {
    forall s :: s in st.references ==> EntryIsFresh(compute, st, s)
  }

  // ----- operations

  /** Every symbol whose reference may depend on the rings of `s`. */
  ghost function Affected(recipes: map<Symbol, Recipe>, s: Symbol): set<Symbol> {
    {s} + set d | d in recipes && Reaches(InputGraph(recipes), d, s)
  }

  function Bucketed(p: PricePoint, interval: Interval): PricePoint {
    p.(timestamp := Bucket(p.timestamp, interval), interval := interval)
  }

  /** A one-minute point feeds the five-minute ring too. */
  predicate Feeds(source: Interval, ring: Interval) {
    source == ring || (source.OneMinute? && ring.FiveMinutes?)
  }

  function Put(histories: Histories, ring: Interval, p: PricePoint): Histories {
    if Feeds(p.interval, ring)
    then histories[p.symbol := BarsOf(histories, p.symbol)[Bucket(p.timestamp, ring) := Bucketed(p, ring)]]
    else histories
  }

  ghost function Forget(references: map<Symbol, ReferenceEntry>, symbols: set<Symbol>): map<Symbol, ReferenceEntry> {
    map k | k in references && k !in symbols :: references[k]
  }

  /** Drops the entries whose shortest window already covers an observation at `timestamp`. */
  ghost function ForgetReached(references: map<Symbol, ReferenceEntry>, symbols: set<Symbol>, timestamp: int)
    : map<Symbol, ReferenceEntry>
  {
    map k | k in references && !(k in symbols && timestamp <= references[k].asOf - HOUR) :: references[k]
  }

  ghost function PruneHistories(histories: Histories, symbols: set<Symbol>, cutoff: int): Histories {
    map s | s in histories && (s in symbols ==> Since(histories[s], cutoff) != map[]) ::
      if s in symbols then Since(histories[s], cutoff) else histories[s]
  }

  ghost predicate Expires(st: HistoryState, s: Symbol, now: int) {
    || Since(BarsOf(st.one, s), now - ONE_MINUTE_RETENTION) != BarsOf(st.one, s)
    || Since(BarsOf(st.five, s), now - FIVE_MINUTE_RETENTION) != BarsOf(st.five, s)
    || Since(BarsOf(st.daily, s), now - DAILY_RETENTION) != BarsOf(st.daily, s)
  }

  ghost function AffectedByAny(recipes: map<Symbol, Recipe>, symbols: set<Symbol>): set<Symbol> {
    set s, k | s in symbols && k in Affected(recipes, s) :: k
  }

  ghost function PruneSymbols(st: HistoryState, symbols: set<Symbol>, now: int): HistoryState {
    HistoryState(
      PruneHistories(st.one, symbols, now - ONE_MINUTE_RETENTION),
      PruneHistories(st.five, symbols, now - FIVE_MINUTE_RETENTION),
      PruneHistories(st.daily, symbols, now - DAILY_RETENTION),
      Forget(st.references, AffectedByAny(st.recipes, set s | s in symbols && Expires(st, s, now))),
      st.recipes)
  }

  ghost function Present(st: HistoryState): set<Symbol> {
    st.one.Keys + st.five.Keys + st.daily.Keys
  }

  ghost function Prune(st: HistoryState, now: int): HistoryState {
    PruneSymbols(st, Present(st), now)
  }

  ghost function PutPoint(st: HistoryState, p: PricePoint): HistoryState {
    st.(one := Put(st.one, OneMinute, p), five := Put(st.five, FiveMinutes, p), daily := Put(st.daily, OneDay, p))
  }

  ghost function Add(st: HistoryState, p: PricePoint): HistoryState {
    if p.interval.Unsupported? then st
    else
      var pruned := PruneSymbols(PutPoint(st, p), {p.symbol}, p.timestamp);
      pruned.(references := ForgetReached(pruned.references, Affected(st.recipes, p.symbol), p.timestamp))
  }

  /** The bars a batch sorted by time contributes to one ring: the last point of each bucket. */
  function Incoming(sorted: seq<PricePoint>, s: Symbol, ring: Interval): Bars {
    if sorted == [] then map[]
    else
      var earlier, p := Incoming(sorted[..|sorted| - 1], s, ring), sorted[|sorted| - 1];
      if p.symbol == s && Feeds(p.interval, ring)
      then earlier[Bucket(p.timestamp, ring) := Bucketed(p, ring)]
      else earlier
  }

  /** Existing points win an exact collision over a backfill. */
  function Merged(histories: Histories, points: seq<PricePoint>, s: Symbol, ring: Interval): Bars {
    Incoming(SortByTime(points), s, ring) + BarsOf(histories, s)
  }

  ghost function NewestAfterLoad(st: HistoryState, points: seq<PricePoint>, s: Symbol): int {
    var keys := Merged(st.one, points, s, OneMinute).Keys + Merged(st.five, points, s, FiveMinutes).Keys
              + Merged(st.daily, points, s, OneDay).Keys;
    if keys == {} then 0 else Greatest(keys)
  }

  ghost function LoadedBars(st: HistoryState, points: seq<PricePoint>, s: Symbol, histories: Histories,
                            ring: Interval, retention: int): Bars
  {
    Since(Merged(histories, points, s, ring), NewestAfterLoad(st, points, s) - retention)
  }

  ghost function LoadHistories(st: HistoryState, points: seq<PricePoint>, symbols: set<Symbol>, histories: Histories,
                               ring: Interval, retention: int): Histories
  {
    map s | s in histories.Keys + symbols
            && (s in symbols ==> LoadedBars(st, points, s, histories, ring, retention) != map[]) ::
      if s in symbols then LoadedBars(st, points, s, histories, ring, retention) else histories[s]
  }

  ghost function LoadSymbols(st: HistoryState, points: seq<PricePoint>, symbols: set<Symbol>): HistoryState {
    HistoryState(
      LoadHistories(st, points, symbols, st.one, OneMinute, ONE_MINUTE_RETENTION),
      LoadHistories(st, points, symbols, st.five, FiveMinutes, FIVE_MINUTE_RETENTION),
      LoadHistories(st, points, symbols, st.daily, OneDay, DAILY_RETENTION),
      Forget(st.references, AffectedByAny(st.recipes, symbols)),
      st.recipes)
  }

  function SymbolsOf(points: seq<PricePoint>): set<Symbol> {
    set p | p in points :: p.symbol
  }

  predicate AllSupported(points: seq<PricePoint>) {
    forall p :: p in points ==> !p.interval.Unsupported?
  }

  ghost function Load(st: HistoryState, points: seq<PricePoint>): HistoryState {
    if AllSupported(points) then LoadSymbols(st, points, SymbolsOf(points)) else st
  }

  /** A requested symbol or a transitive input of one. */
  ghost predicate Retained(recipes: map<Symbol, Recipe>, requested: set<Symbol>, s: Symbol) {
    exists r :: r in requested && Reaches(InputGraph(recipes), r, s)
  }

  ghost function RetainHistories(st: HistoryState, histories: Histories, requested: set<Symbol>): Histories {
    map s | s in histories && Retained(st.recipes, requested, s) :: histories[s]
  }

  ghost function Retain(st: HistoryState, requested: set<Symbol>): HistoryState {
    HistoryState(
      RetainHistories(st, st.one, requested),
      RetainHistories(st, st.five, requested),
      RetainHistories(st, st.daily, requested),
      map k | k in st.references && (Retained(st.recipes, requested, k) || (k !in Present(st) && k !in st.recipes)) ::
        st.references[k],
      map s | s in st.recipes && Retained(st.recipes, requested, s) :: st.recipes[s])
  }

  ghost predicate ClosesCycle(recipes: map<Symbol, Recipe>, s: Symbol, recipe: Recipe) {
    exists x :: x in recipe.inputs && Reaches(InputGraph(recipes), x, s)
  }

  /** The recipe is legal, closes no cycle and differs from the one in place. */
  ghost predicate Installs(st: HistoryState, s: Symbol, recipe: Recipe) {
    && LegalRecipe(recipe)
    && !ClosesCycle(st.recipes, s, recipe)
    && !(s in st.recipes && st.recipes[s] == recipe)
  }

  ghost function Register(st: HistoryState, s: Symbol, recipe: Recipe): HistoryState {
    if Installs(st, s, recipe) then
      var recipes := st.recipes[s := recipe];
      HistoryState(st.one - {s}, st.five - {s}, st.daily - {s}, Forget(st.references, Affected(recipes, s)), recipes)
    else st
  }

  predicate CacheHit(st: HistoryState, s: Symbol, asOf: int) {
    s in st.references && MinuteOf(st.references[s].asOf) == MinuteOf(asOf)
  }

  ghost function ChangeReferences(compute: Arithmetic, st: HistoryState, s: Symbol, asOf: int): HistoryState
    requires LegalRecipes(st.recipes)
  {
    if CacheHit(st, s, asOf) then st
    else st.(references := st.references[s := ReferenceEntry(asOf, FreshReferences(compute, st, s, asOf))])
  }
}
