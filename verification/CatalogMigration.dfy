/**
 Reconciling a persisted catalog with the built-in instruments a release ships: operator settings
 survive, everything else of a built-in comes from the release, and doing it again changes nothing.
 */
module CatalogMigration {
  import opened Basics
  import opened SymbolGraph
  import opened Catalog

  datatype Document = Document(active: CatalogGeneration, staged: Option<CatalogGeneration>,
                               lastKnownGood: Option<CatalogGeneration>)

  // ----- definitions by identifier

  function ById(instruments: seq<Definition>, id: Ident): (found: Option<Definition>)
    ensures found.Some? ==> found.value in instruments && found.value.id == id
    ensures found == None <==> forall d :: d in instruments ==> d.id != id
    decreases |instruments|
  {
    if instruments == [] then None
    else if instruments[0].id == id then Some(instruments[0])
    else ById(instruments[1..], id)
  }

  lemma {:induction false} TheOneById(instruments: seq<Definition>, d: Definition)
    requires DistinctIds(instruments) && d in instruments
    ensures ById(instruments, d.id) == Some(d)
  {
    var found := ById(instruments, d.id).value;
    var i :| 0 <= i < |instruments| && instruments[i] == d;
    var j :| 0 <= j < |instruments| && instruments[j] == found;
  }

  /** `d` with the settings an operator may change on a built-in. */
  function WithSettings(d: Definition, settings: Definition): Definition {
    d.(enabled := settings.enabled, quotePollSeconds := settings.quotePollSeconds,
       staleAfterSeconds := settings.staleAfterSeconds,
       history := settings.history, routes := settings.routes)
  }

  /** Two definitions differ at most in the settings an operator may change. */
  predicate SameCore(a: Definition, b: Definition) {
    WithSettings(a, b) == b
  }

  // ----- routes

  /** Earlier shipped quote and yield chains that a release replaces by its own. */
  predicate IsPriorDefault(symbol: Symbol, capability: Capability, providers: seq<Name>) {
    || (symbol == Symbol("BETH:USDC") && capability == Quote
        && providers == [Name("synthetic_beth_primary"), Name("synthetic_beth_alternate"), Name("coingecko")])
    || (symbol == Symbol("STETH:USDC") && capability == Quote && providers == [Name("coingecko")])
    || (symbol == Symbol("WSTETH:USDC") && capability == Quote && providers == [Name("coingecko")])
    || (symbol == Symbol("WBETH:USDC") && capability == Yield
        && providers == [Name("binance_wbeth_rate"), Name("ethereum_exchange_rate"),
                         Name("staking_market_ratio_proxy")])
  }

  const RETIRED_NAME := Name("binance_wbeth_rate")
  const CURRENT_NAME := Name("binance_staking_rate")

  function Renamed(provider: Name): Name {
    if provider == RETIRED_NAME then CURRENT_NAME else provider
  }

  function RenamedChain(providers: seq<Name>): (renamed: seq<Name>)
    ensures |renamed| == |providers|
    ensures forall i :: 0 <= i < |providers| ==> renamed[i] == Renamed(providers[i])
  {
    seq(|providers|, i requires 0 <= i < |providers| => Renamed(providers[i]))
  }

  function RouteFor(routes: seq<Route>, capability: Capability): (route: Option<Route>)
    ensures route.Some? ==> route.value in routes && route.value.capability == capability
    ensures route == None <==> forall r :: r in routes ==> r.capability != capability
    decreases |routes|
  {
    if routes == [] then None
    else if routes[0].capability == capability then Some(routes[0])
    else RouteFor(routes[1..], capability)
  }

  function ReconciledRoute(symbol: Symbol, route: Route, baseline: seq<Route>): Route {
    var shipped := RouteFor(baseline, route.capability);
    if IsPriorDefault(symbol, route.capability, route.providers) && shipped.Some? then shipped.value
    else if RenamedChain(route.providers) != route.providers then route.(providers := RenamedChain(route.providers))
    else route
  }

  function ReconciledRoutes(symbol: Symbol, persisted: seq<Route>, baseline: seq<Route>): (routes: seq<Route>)
    ensures |routes| == |persisted|
    ensures forall i :: 0 <= i < |persisted| ==> routes[i] == ReconciledRoute(symbol, persisted[i], baseline)
  {
    seq(|persisted|, i requires 0 <= i < |persisted| => ReconciledRoute(symbol, persisted[i], baseline))
  }

  /** No shipped route uses a name the release itself renames. */
  predicate NoRetiredNames(routes: seq<Route>) {
    forall route :: route in routes ==> RETIRED_NAME !in route.providers
  }

  lemma NamesDiffer()
    ensures CURRENT_NAME != RETIRED_NAME && CURRENT_NAME != Name("synthetic_beth_primary")
      && CURRENT_NAME != Name("synthetic_beth_alternate")
    ensures CURRENT_NAME != Name("coingecko") && CURRENT_NAME != Name("ethereum_exchange_rate")
      && CURRENT_NAME != Name("staking_market_ratio_proxy")
  {
    var a, b, c := CURRENT_NAME.text, RETIRED_NAME.text, "ethereum_exchange_rate";
    assert a[8] == 's' && b[8] == 'w' && a[0] == 'b' && c[0] == 'e';
    assert |a| == 20 && |"synthetic_beth_primary"| == 22 && |"synthetic_beth_alternate"| == 24 && |"coingecko"| == 9
      && |"staking_market_ratio_proxy"| == 26;
  }

  /** Renaming never produces a chain that a release would replace. */
  lemma RenamedIsNoPriorDefault(symbol: Symbol, capability: Capability, providers: seq<Name>)
    requires RenamedChain(providers) != providers
    ensures !IsPriorDefault(symbol, capability, RenamedChain(providers))
  {
    NamesDiffer();
    var i :| 0 <= i < |providers| && RenamedChain(providers)[i] != providers[i];
    assert RenamedChain(providers)[i] == CURRENT_NAME;
  }

  /** Reconciling a route again changes nothing. */
  lemma RouteSettles(symbol: Symbol, route: Route, baseline: seq<Route>)
    requires NoRetiredNames(baseline)
    ensures var once := ReconciledRoute(symbol, route, baseline);
            ReconciledRoute(symbol, once, baseline) == once
  {
    NamesDiffer();
    var once := ReconciledRoute(symbol, route, baseline);
    var shipped := RouteFor(baseline, route.capability);
    assert forall i :: 0 <= i < |RenamedChain(once.providers)| ==>
      RenamedChain(once.providers)[i] == Renamed(once.providers[i]);
    if IsPriorDefault(symbol, route.capability, route.providers) && shipped.Some? {
      assert RenamedChain(once.providers) == once.providers;
    } else if RenamedChain(route.providers) != route.providers {
      RenamedIsNoPriorDefault(symbol, route.capability, route.providers);
      assert RenamedChain(once.providers) == once.providers;
    }
  }

  // ----- one definition

  function MergedHistory(shipped: HistoryCollection, persisted: HistoryCollection): HistoryCollection {
    HistoryCollection(
      persisted.enabled,
      if persisted.pollSeconds != None || shipped.pollSeconds == None then persisted.pollSeconds
        else shipped.pollSeconds,
      persisted.backfillDays)
  }

  function Merged(shipped: Definition, persisted: Definition): Definition {
    shipped.(
      enabled := persisted.enabled, quotePollSeconds := persisted.quotePollSeconds, staleAfterSeconds :=
        persisted.staleAfterSeconds,
      history := MergedHistory(shipped.history, persisted.history),
      routes := if persisted.routes != [] then ReconciledRoutes(persisted.symbol, persisted.routes, shipped.routes)
        else shipped.routes,
      archived := false)
  }

  lemma MergedSettles(shipped: Definition, persisted: Definition)
    requires NoRetiredNames(shipped.routes) && ValidRoutes(shipped.routes) && shipped.symbol == persisted.symbol
      && !shipped.archived
    ensures Merged(shipped, Merged(shipped, persisted)) == Merged(shipped, persisted)
    ensures Merged(shipped, shipped) == shipped
    ensures SameCore(shipped, Merged(shipped, persisted))
  {
    var once := Merged(shipped, persisted);
    var again := ReconciledRoutes(shipped.symbol, once.routes, shipped.routes);
    if persisted.routes != [] {
      forall i | 0 <= i < |once.routes| ensures again[i] == once.routes[i] {
        RouteSettles(persisted.symbol, persisted.routes[i], shipped.routes);
      }
      assert again == once.routes;
    }
    OwnRoutesSettle(shipped.symbol, shipped.routes);
  }

  lemma OwnRoutesSettle(symbol: Symbol, routes: seq<Route>)
    requires NoRetiredNames(routes) && ValidRoutes(routes)
    ensures ReconciledRoutes(symbol, routes, routes) == routes
  {
    forall i | 0 <= i < |routes| ensures ReconciledRoute(symbol, routes[i], routes) == routes[i] {
      assert RETIRED_NAME !in routes[i].providers;
      assert RenamedChain(routes[i].providers) == routes[i].providers;
    }
  }

  // ----- one generation

  /** The built-in instruments of the running release. */
  predicate GoodBaseline(baseline: seq<Definition>) {
    && Admissible(baseline)
    && forall d ::
         d in baseline ==> ValidDefinition(d) && d.ownership == Builtin && !d.archived && NoRetiredNames(d.routes)
  }

  /** A release of one plain instrument is a good baseline. */
  lemma OneInstrumentIsGood(d: Definition)
    requires ValidDefinition(d) && d.ownership == Builtin && !d.archived && NoRetiredNames(d.routes)
      && d.synthetic == None
    ensures GoodBaseline([d])
  {
    var items := [d];
    assert items[..0] == [];
    assert Names([]) == [] && Names(items) == [] + [d.symbol] + d.aliases;
    assert Recipes([]) == map[] && Recipes(items) == map[];
    assert CustomCount([]) == 0 && CustomCount(items) == 0;
  }

  predicate GoodGeneration(g: CatalogGeneration) {
    Admissible(g.instruments) && forall d :: d in g.instruments ==> ValidDefinition(d)
  }

  predicate IsOwn(d: Definition, baseline: seq<Definition>) {
    var shipped := ById(baseline, d.id);
    shipped.Some? && shipped.value.symbol == d.symbol
  }

  /** One item of the persisted list; none when it is an unknown built-in or its merge is not valid. */
  function ReconcileItem(item: Definition, baseline: seq<Definition>): Option<Definition> {
    if item.ownership == Custom then Some(item)
    else if !IsOwn(item, baseline) then None
    else
      var merged := Merged(ById(baseline, item.id).value, item);
      if ValidDefinition(merged) then Some(merged) else None
  }

  function ReconcileItems(items: seq<Definition>, baseline: seq<Definition>): (r: Option<seq<Definition>>)
    ensures r.Some? ==> |r.value| == |items|
    ensures r.Some? ==> forall i :: 0 <= i < |items| ==> ReconcileItem(items[i], baseline) == Some(r.value[i])
    ensures r == None ==> exists i :: 0 <= i < |items| && ReconcileItem(items[i], baseline) == None
    decreases |items|
  {
    if items == [] then Some([])
    else
      var head, rest := ReconcileItem(items[0], baseline), ReconcileItems(items[1..], baseline);
      if head == None then None
      else if rest == None then
        assert forall i :: 0 <= i < |items| - 1 ==> items[i + 1] == items[1..][i];
        None
      else Some([head.value] + rest.value)
  }

  function BuiltinIds(items: seq<Definition>): set<Ident> {
    set d | d in items && d.ownership == Builtin :: d.id
  }

  /** The shipped instruments a list does not mention yet, in shipping order. */
  function Missing(baseline: seq<Definition>, seen: set<Ident>): (missing: seq<Definition>)
    ensures forall d :: d in missing <==> d in baseline && d.id !in seen
    decreases |baseline|
  {
    if baseline == [] then []
    else (if baseline[0].id !in seen then [baseline[0]] else []) + Missing(baseline[1..], seen)
  }

  function ReconcileGeneration(g: CatalogGeneration, baseline: seq<Definition>): Option<CatalogGeneration> {
    var items := ReconcileItems(g.instruments, baseline);
    if items == None then None
    else
      var all := items.value + Missing(baseline, BuiltinIds(g.instruments));
      if Admissible(all) then Some(CatalogGeneration(all)) else None
  }

  /** Exactly the shipped built-ins, each with its shipped core. */
  predicate Preserves(items: seq<Definition>, baseline: seq<Definition>) {
    && (forall d :: d in items && d.ownership == Builtin ==>
        ById(baseline, d.id).Some? && SameCore(ById(baseline, d.id).value, d))
    && (forall b :: b in baseline ==> b.id in BuiltinIds(items))
  }

  /** Reconciling leaves this built-in alone: no setting of it is one that a release overrides. */
  predicate Settled(d: Definition, shipped: Definition) {
    && (d.history.pollSeconds == None ==> shipped.history.pollSeconds == None)
    && (d.routes == [] ==> shipped.routes == [])
    && forall route :: route in d.routes ==>
         if IsPriorDefault(d.symbol, route.capability, route.providers)
              && RouteFor(shipped.routes, route.capability).Some?
         then RouteFor(shipped.routes, route.capability) == Some(route)
         else RETIRED_NAME !in route.providers
  }

  lemma RenamedChainIff(providers: seq<Name>)
    ensures RenamedChain(providers) == providers <==> RETIRED_NAME !in providers
  {
    NamesDiffer();
    if RETIRED_NAME in providers {
      var i :| 0 <= i < |providers| && providers[i] == RETIRED_NAME;
      assert RenamedChain(providers)[i] != providers[i];
    }
  }

  /** A merge keeps a built-in as it is exactly when none of its settings is one a release overrides. */
  lemma MergedIsSameIff(shipped: Definition, d: Definition)
    requires SameCore(shipped, d) && !shipped.archived
    ensures Merged(shipped, d) == d <==> Settled(d, shipped)
  {
    var routes := ReconciledRoutes(d.symbol, d.routes, shipped.routes);
    forall i | 0 <= i < |d.routes|
      ensures routes[i] == d.routes[i] <==>
        if IsPriorDefault(d.symbol, d.routes[i].capability, d.routes[i].providers)
             && RouteFor(shipped.routes, d.routes[i].capability).Some?
        then RouteFor(shipped.routes, d.routes[i].capability) == Some(d.routes[i])
        else RETIRED_NAME !in d.routes[i].providers
    {
      RenamedChainIff(d.routes[i].providers);
    }
    hide IsPriorDefault, RouteFor, ReconciledRoute, RenamedChain;
    assert forall i :: 0 <= i < |d.routes| ==> d.routes[i] in d.routes;
    assert Settled(d, shipped) ==> routes == d.routes;
    assert d.routes != [] && Merged(shipped, d) == d ==> routes == d.routes;
  }

  lemma {:induction false} NothingMissing(items: seq<Definition>, baseline: seq<Definition>)
    requires forall b :: b in baseline ==> b.id in BuiltinIds(items)
    ensures Missing(baseline, BuiltinIds(items)) == []
    decreases |baseline|
  {
    if baseline != [] {
      NothingMissing(items, baseline[1..]);
    }
  }

  /** With no shipped instrument missing, a list is kept exactly when each item is. */
  lemma KeptIff(g: CatalogGeneration, baseline: seq<Definition>)
    requires Admissible(g.instruments) && forall b :: b in baseline ==> b.id in BuiltinIds(g.instruments)
    ensures ReconcileGeneration(g, baseline) == Some(g) <==>
      forall d :: d in g.instruments ==> ReconcileItem(d, baseline) == Some(d)
  {
    hide ReconcileItem, Admissible, BuiltinIds, Missing;
    NothingMissing(g.instruments, baseline);
    var items := ReconcileItems(g.instruments, baseline);
    if items.Some? {
      assert items.value + [] == items.value;
      if items.value == g.instruments {
        forall d | d in g.instruments ensures ReconcileItem(d, baseline) == Some(d) {
          var i :| 0 <= i < |g.instruments| && g.instruments[i] == d;
        }
      }
    }
    if forall d :: d in g.instruments ==> ReconcileItem(d, baseline) == Some(d) {
      ItemsSettle(g.instruments, baseline);
    }
  }

  /** A generation that holds the shipped built-ins is reconciled to itself exactly when each of them is settled. */
  lemma ReconciledToItselfIff(g: CatalogGeneration, baseline: seq<Definition>)
    requires GoodBaseline(baseline) && GoodGeneration(g) && Preserves(g.instruments, baseline)
    ensures ReconcileGeneration(g, baseline) == Some(g)
      <==> forall d :: d in g.instruments && d.ownership == Builtin ==> Settled(d, ById(baseline, d.id).value)
  {
    forall d | d in g.instruments
      ensures ReconcileItem(d, baseline) == Some(d) <==> d.ownership == Custom || Settled(d, ById(baseline, d.id).value)
    {
      KeptItemIff(d, baseline);
    }
    hide GoodBaseline, Settled, ById, ReconcileItem, ReconcileGeneration, Admissible, ValidDefinition, SameCore;
    KeptIff(g, baseline);
  }

  lemma KeptItemIff(d: Definition, baseline: seq<Definition>)
    requires GoodBaseline(baseline) && ValidDefinition(d)
    requires d.ownership == Builtin ==> ById(baseline, d.id).Some? && SameCore(ById(baseline, d.id).value, d)
    ensures ReconcileItem(d, baseline) == Some(d) <==> d.ownership == Custom || Settled(d, ById(baseline, d.id).value)
  {
    hide Admissible, IsPriorDefault, RouteFor, Settled, Merged, ReconciledRoutes, ValidDefinition, NoRetiredNames;
    if d.ownership == Builtin {
      assert ById(baseline, d.id).value in baseline;
      MergedIsSameIff(ById(baseline, d.id).value, d);
    }
  }

  /** Every reconciled item is settled and keeps the shipped core. */
  lemma ReconciledItemSettles(item: Definition, baseline: seq<Definition>)
    requires GoodBaseline(baseline) && ReconcileItem(item, baseline).Some? && ValidDefinition(item)
    ensures var r := ReconcileItem(item, baseline).value;
            && ReconcileItem(r, baseline) == Some(r) && ValidDefinition(r) && r.id == item.id
            && r.ownership == item.ownership
            && (r.ownership == Builtin ==> ById(baseline, r.id).Some? && SameCore(ById(baseline, r.id).value, r))
  {
    hide Admissible, RouteFor, IsPriorDefault;
    if item.ownership == Builtin {
      var shipped := ById(baseline, item.id).value;
      MergedSettles(shipped, item);
    }
  }

  lemma ShippedItemSettles(item: Definition, baseline: seq<Definition>)
    requires GoodBaseline(baseline) && item in baseline
    ensures ReconcileItem(item, baseline) == Some(item) && ById(baseline, item.id) == Some(item) && SameCore(item, item)
  {
    assert DistinctIds(baseline);
    hide Admissible, RouteFor, IsPriorDefault;
    TheOneById(baseline, item);
    MergedSettles(item, item);
  }

  lemma {:induction false} ItemsSettle(items: seq<Definition>, baseline: seq<Definition>)
    requires forall d :: d in items ==> ReconcileItem(d, baseline) == Some(d)
    ensures ReconcileItems(items, baseline) == Some(items)
  {
    hide ReconcileItem;
    var r := ReconcileItems(items, baseline);
    assert r.value == items;
  }

  lemma ReconciledElement(g: CatalogGeneration, baseline: seq<Definition>, d: Definition)
    requires GoodBaseline(baseline) && GoodGeneration(g) && ReconcileGeneration(g, baseline).Some?
    requires d in ReconcileGeneration(g, baseline).value.instruments
    ensures ReconcileItem(d, baseline) == Some(d) && ValidDefinition(d)
    ensures d.ownership == Builtin ==> ById(baseline, d.id).Some? && SameCore(ById(baseline, d.id).value, d)
  {
    hide ReconcileItem, SameCore, Admissible, ValidDefinition, BuiltinIds;
    var items := ReconcileItems(g.instruments, baseline).value;
    if d in Missing(baseline, BuiltinIds(g.instruments)) {
      ShippedItemSettles(d, baseline);
    } else {
      var i :| 0 <= i < |items| && items[i] == d;
      ReconciledItemSettles(g.instruments[i], baseline);
    }
  }

  lemma BuiltinIsMentioned(g: CatalogGeneration, baseline: seq<Definition>, b: Definition)
    requires GoodBaseline(baseline) && GoodGeneration(g) && ReconcileGeneration(g, baseline).Some? && b in baseline
    ensures b.id in BuiltinIds(ReconcileGeneration(g, baseline).value.instruments)
  {
    var r := ReconcileGeneration(g, baseline).value;
    var items := ReconcileItems(g.instruments, baseline).value;
    if b.id in BuiltinIds(g.instruments) {
      var d :| d in g.instruments && d.ownership == Builtin && d.id == b.id;
      var i :| 0 <= i < |g.instruments| && g.instruments[i] == d;
      ReconciledItemSettles(d, baseline);
      assert items[i] in r.instruments;
    } else {
      assert b in Missing(baseline, BuiltinIds(g.instruments));
      assert b in r.instruments;
    }
  }

  lemma ReconciledPreserves(g: CatalogGeneration, baseline: seq<Definition>)
    requires GoodBaseline(baseline) && GoodGeneration(g) && ReconcileGeneration(g, baseline).Some?
    ensures var r := ReconcileGeneration(g, baseline).value;
            && Preserves(r.instruments, baseline)
            && forall d :: d in r.instruments ==> ReconcileItem(d, baseline) == Some(d) && ValidDefinition(d)
  {
    hide ReconcileItem, ValidDefinition, SameCore, ById, Admissible, ReconcileItems, Missing, BuiltinIds, GoodBaseline,
         GoodGeneration, ReconcileGeneration;
    var r := ReconcileGeneration(g, baseline).value;
    forall d | d in r.instruments
      ensures ReconcileItem(d, baseline) == Some(d) && ValidDefinition(d)
      ensures d.ownership == Builtin ==> ById(baseline, d.id).Some? && SameCore(ById(baseline, d.id).value, d)
    {
      ReconciledElement(g, baseline, d);
    }
    forall b | b in baseline ensures b.id in BuiltinIds(r.instruments) {
      BuiltinIsMentioned(g, baseline, b);
    }
  }

  lemma ReconciledIsAdmissible(g: CatalogGeneration, baseline: seq<Definition>)
    requires ReconcileGeneration(g, baseline).Some?
    ensures Admissible(ReconcileGeneration(g, baseline).value.instruments)
  {
    hide Admissible, ReconcileItems, Missing, BuiltinIds;
  }

  lemma ShippedAreMentioned(items: seq<Definition>, baseline: seq<Definition>)
    requires Preserves(items, baseline)
    ensures forall b :: b in baseline ==> b.id in BuiltinIds(items)
  {
    hide BuiltinIds, SameCore, ById;
  }

  /**
   The migration is idempotent: what it yields is a valid generation of exactly the shipped built-ins,
   and migrating that again gives it back, order included.
   */
  lemma ReconcileSettles(g: CatalogGeneration, baseline: seq<Definition>)
    requires GoodBaseline(baseline) && GoodGeneration(g) && ReconcileGeneration(g, baseline).Some?
    ensures var r := ReconcileGeneration(g, baseline).value;
            ReconcileGeneration(r, baseline) == Some(r) && GoodGeneration(r) && Preserves(r.instruments, baseline)
  {
    hide GoodBaseline, BuiltinIds, ReconcileItem, Admissible, ValidDefinition, Preserves, ReconcileGeneration;
    var r := ReconcileGeneration(g, baseline).value;
    ReconciledPreserves(g, baseline);
    ReconciledIsAdmissible(g, baseline);
    ShippedAreMentioned(r.instruments, baseline);
    KeptIff(r, baseline);
  }

  /** A persisted chain: replaced if it is an earlier default the release extends, otherwise renamed place by place. */
  ghost predicate IsMigratedRoute(symbol: Symbol, before: Route, after: Route, shipped: seq<Route>) {
    && after.capability == before.capability
    && if IsPriorDefault(symbol, before.capability, before.providers)
            && exists r :: r in shipped && r.capability == before.capability
       then after in shipped
       else |after.providers| == |before.providers| && forall k :: 0 <= k < |before.providers| ==>
              after.providers[k] == if before.providers[k] == Name("binance_wbeth_rate")
                                    then Name("binance_staking_rate") else before.providers[k]
  }

  /** A persisted built-in: the shipped one under the operator's switch, intervals, history settings and chains. */
  ghost predicate IsMigrated(shipped: Definition, before: Definition, after: Definition) {
    && shipped.id == before.id == after.id && shipped.symbol == before.symbol == after.symbol
    && after.ownership == shipped.ownership && after.aliases == shipped.aliases
    && after.synthetic == shipped.synthetic && after.description == shipped.description && !after.archived
    && after.enabled == before.enabled && after.quotePollSeconds == before.quotePollSeconds
    && after.staleAfterSeconds == before.staleAfterSeconds
    && after.history.enabled == before.history.enabled && after.history.backfillDays == before.history.backfillDays
    && after.history.pollSeconds
       == (if before.history.pollSeconds.Some? then before.history.pollSeconds else shipped.history.pollSeconds)
    && (before.routes == [] ==> after.routes == shipped.routes)
    && (before.routes != [] ==> |after.routes| == |before.routes| && forall k :: 0 <= k < |before.routes| ==>
          IsMigratedRoute(before.symbol, before.routes[k], after.routes[k], shipped.routes))
  }

  lemma RouteIsMigrated(symbol: Symbol, route: Route, baseline: seq<Route>)
    ensures IsMigratedRoute(symbol, route, ReconciledRoute(symbol, route, baseline), baseline)
  {
    hide IsPriorDefault;
    NamesDiffer();
    var after := ReconciledRoute(symbol, route, baseline);
    assert forall k :: 0 <= k < |route.providers| ==>
      RenamedChain(route.providers)[k] == Renamed(route.providers[k]);
  }

  lemma MergedIsMigrated(shipped: Definition, before: Definition)
    requires shipped.id == before.id && shipped.symbol == before.symbol
    ensures IsMigrated(shipped, before, Merged(shipped, before))
  {
    hide IsMigratedRoute, ReconciledRoute;
    forall k | 0 <= k < |before.routes| && before.routes != []
      ensures IsMigratedRoute(before.symbol, before.routes[k], Merged(shipped, before).routes[k], shipped.routes)
    {
      RouteIsMigrated(before.symbol, before.routes[k], shipped.routes);
    }
  }

  /**
   The whole migration, item by item: customs are kept as they are, every built-in is the shipped one under the
   operator's settings, and behind them come exactly the shipped instruments the list does not have.
   */
  lemma MigrationIs(g: CatalogGeneration, baseline: seq<Definition>)
    requires ReconcileGeneration(g, baseline).Some?
    ensures var n, items := |g.instruments|, ReconcileGeneration(g, baseline).value.instruments;
            && n <= |items|
            && (forall i :: 0 <= i < n && g.instruments[i].ownership == Custom ==> items[i] == g.instruments[i])
            && (forall i :: 0 <= i < n && g.instruments[i].ownership == Builtin ==>
                  exists shipped :: shipped in baseline && IsMigrated(shipped, g.instruments[i], items[i]))
            && forall b :: b in items[n..] <==>
                 b in baseline && forall d :: d in g.instruments && d.ownership == Builtin ==> d.id != b.id
  {
    hide Admissible, ValidDefinition, IsMigrated, Merged;
    var items, n := ReconcileItems(g.instruments, baseline).value, |g.instruments|;
    var all := ReconcileGeneration(g, baseline).value.instruments;
    assert all[n..] == Missing(baseline, BuiltinIds(g.instruments));
    forall i | 0 <= i < n && g.instruments[i].ownership == Builtin
      ensures exists shipped :: shipped in baseline && IsMigrated(shipped, g.instruments[i], all[i])
    {
      assert ReconcileItem(g.instruments[i], baseline) == Some(items[i]);
      var shipped := ById(baseline, g.instruments[i].id).value;
      MergedIsMigrated(shipped, g.instruments[i]);
    }
    forall i | 0 <= i < n && g.instruments[i].ownership == Custom ensures all[i] == g.instruments[i] {
      assert ReconcileItem(g.instruments[i], baseline) == Some(items[i]);
    }
  }

  /** What an operator set survives: customs as they are and in place, built-ins with their switches and intervals. */
  lemma OperatorSettingsSurvive(g: CatalogGeneration, baseline: seq<Definition>, i: nat)
    requires ReconcileGeneration(g, baseline).Some? && i < |g.instruments|
    ensures var r := ReconcileGeneration(g, baseline).value; var before, after := g.instruments[i], r.instruments[i];
            && |r.instruments| >= |g.instruments|
            && (before.ownership == Custom ==> after == before)
            && (before.ownership == Builtin && GoodBaseline(baseline) ==>
                  && after.id == before.id && after.symbol == before.symbol && after.enabled == before.enabled
                  && after.quotePollSeconds == before.quotePollSeconds
                  && after.staleAfterSeconds == before.staleAfterSeconds
                  && after.history.enabled == before.history.enabled
                  && after.history.backfillDays == before.history.backfillDays
                  && (before.history.pollSeconds.Some? ==> after.history.pollSeconds == before.history.pollSeconds)
                  && (before.routes != [] ==> |after.routes| == |before.routes|))
  {
    hide Admissible, IsPriorDefault, RouteFor, ValidDefinition;
    var items := ReconcileItems(g.instruments, baseline).value;
    assert ReconcileItem(g.instruments[i], baseline) == Some(items[i]);
  }
}
