/**
 The managed catalog file: administrator operations on the staged generation, activation and rollback,
 and the lease an activation holds on the file while it is in progress.
 */
module ManagedCatalog {
  import opened Basics
  import opened SymbolGraph
  import opened Catalog
  import opened CatalogMigration

  /**
   What the file can hold. A revision is a digest of the bytes and stands for the content itself;
   `form` tells apart different encodings of one document, form 0 being the one the store writes.
   */
  datatype Content =
    | NoContent
    | PolicyOnly(disabled: set<Symbol>, intervals: map<Symbol, (real, real)>)
    | Encoded(document: Document, form: nat)
    | Unreadable(form: nat)

  datatype Loaded = Loaded(document: Document, needsWrite: bool)

  predicate GoodOptional(g: Option<CatalogGeneration>) {
    g.Some? ==> GoodGeneration(g.value)
  }

  predicate GoodDocument(d: Document) {
    GoodGeneration(d.active) && GoodOptional(d.staged) && GoodOptional(d.lastKnownGood)
  }

  function ReconcileOptional(g: Option<CatalogGeneration>,
                             baseline: seq<Definition>): Option<Option<CatalogGeneration>> {
    if g == None then Some(None)
    else
      var r := ReconcileGeneration(g.value, baseline);
      if r == None then None else Some(r)
  }

  function ReconcileDocument(d: Document, baseline: seq<Definition>): Option<Document> {
    var active := ReconcileGeneration(d.active, baseline);
    var staged := ReconcileOptional(d.staged, baseline);
    var lastKnownGood := ReconcileOptional(d.lastKnownGood, baseline);
    if active == None || staged == None || lastKnownGood == None then None
    else Some(Document(active.value, staged.value, lastKnownGood.value))
  }

  /** The installed instruments under the switches and intervals of a version 1 policy. */
  function FromPolicy(baseline: seq<Definition>, disabled: set<Symbol>,
                      intervals: map<Symbol, (real, real)>): (items: seq<Definition>)
    ensures |items| == |baseline|
    decreases |baseline|
  {
    if baseline == [] then []
    else
      var d := baseline[0];
      var set_ := d.(enabled := d.symbol !in disabled);
      [if d.symbol in intervals
       then set_.(quotePollSeconds := intervals[d.symbol].0, staleAfterSeconds := intervals[d.symbol].1) else set_]
      + FromPolicy(baseline[1..], disabled, intervals)
  }

  function Load(content: Content, baseline: seq<Definition>): Option<Loaded> {
    match content
    case NoContent => Some(Loaded(Document(CatalogGeneration(baseline), None, None), true))
    case PolicyOnly(disabled, intervals) =>
      var active := CatalogGeneration(FromPolicy(baseline, disabled, intervals));
      if GoodGeneration(active) then Some(Loaded(Document(active, None, None), true)) else None
    case Encoded(document, _) =>
      if !GoodDocument(document) then None
      else
        var reconciled := ReconcileDocument(document, baseline);
        if reconciled == None then None else Some(Loaded(reconciled.value, reconciled.value != document))
    case Unreadable(_) => None
  }

  /** What is made of a version 1 policy: the installed instruments in order, switched and timed as it says. */
  lemma {:induction false} PolicyIsRead(baseline: seq<Definition>, disabled: set<Symbol>,
                                        intervals: map<Symbol, (real, real)>)
    ensures forall i :: 0 <= i < |baseline| ==>
      var before, item := baseline[i], FromPolicy(baseline, disabled, intervals)[i];
      && (item.enabled <==> before.symbol !in disabled)
      && (if before.symbol in intervals
          then (item.quotePollSeconds, item.staleAfterSeconds) == intervals[before.symbol]
          else item.quotePollSeconds == before.quotePollSeconds && item.staleAfterSeconds == before.staleAfterSeconds)
      && item == before.(enabled := item.enabled, quotePollSeconds := item.quotePollSeconds,
                         staleAfterSeconds := item.staleAfterSeconds)
    decreases |baseline|
  {
    if baseline != [] {
      PolicyIsRead(baseline[1..], disabled, intervals);
    }
  }

  // ----- what every document keeps

  predicate KeptGeneration(g: CatalogGeneration, baseline: seq<Definition>) {
    GoodGeneration(g) && Preserves(g.instruments, baseline)
  }

  /** Active, staged and last-known-good are valid and hold exactly the shipped built-ins with their shipped core. */
  predicate Kept(d: Document, baseline: seq<Definition>) {
    && KeptGeneration(d.active, baseline)
    && (d.staged.Some? ==> KeptGeneration(d.staged.value, baseline))
    && (d.lastKnownGood.Some? ==> KeptGeneration(d.lastKnownGood.value, baseline))
  }

  // ----- administrator operations

  datatype ImportMode = Merge | ReplaceCustom
  datatype PolicyUpdate = PolicyUpdate(symbol: Symbol, enabled: bool, quotePollSeconds: Option<real>,
                                       staleAfterSeconds: Option<real>)

  /** The fields an update names; the identifier and the ownership cannot be among them. */
  datatype Change = Change(
    symbol: Option<Symbol>, enabled: Option<bool>, archived: Option<bool>, aliases: Option<seq<Symbol>>,
    quotePollSeconds: Option<real>, staleAfterSeconds: Option<real>, history: Option<HistoryCollection>,
    routes: Option<seq<Route>>, synthetic: Option<Option<seq<Symbol>>>, description: Option<nat>)

  const NO_CHANGE := Change(None, None, None, None, None, None, None, None, None, None)

  datatype Edit =
    | Create(item: Definition, uuid: string)
    | Update(id: Ident, change: Change)
    | Archive(id: Ident)
    | ReplaceStaged(candidate: CatalogGeneration)
    | Import(items: seq<Definition>, mode: ImportMode)
    | StagePatch(updates: seq<PolicyUpdate>)
    | Patch(updates: seq<PolicyUpdate>)
    | ActivateStaged(expected: Option<CatalogGeneration>)
    | Rollback

  function StagedBase(d: Document): CatalogGeneration {
    if d.staged == None then d.active else d.staged.value
  }

  function StageDefinitions(d: Document, definitions: seq<Definition>): Option<Document> {
    if Admissible(definitions) then Some(d.(staged := Some(CatalogGeneration(definitions)))) else None
  }

  function IndexOf(items: seq<Definition>, id: Ident): (index: Option<nat>)
    ensures index.Some? ==> index.value < |items| && items[index.value].id == id
    ensures index == None ==> forall d :: d in items ==> d.id != id
    decreases |items|
  {
    if items == [] then None
    else if items[0].id == id then Some(0)
    else
      var rest := IndexOf(items[1..], id);
      if rest == None then None else Some(rest.value + 1)
  }

  function IndexOfSymbol(items: seq<Definition>, symbol: Symbol): (index: Option<nat>)
    ensures index.Some? ==> index.value < |items| && items[index.value].symbol == symbol
    decreases |items|
  {
    if items == [] then None
    else if items[0].symbol == symbol then Some(0)
    else
      var rest := IndexOfSymbol(items[1..], symbol);
      if rest == None then None else Some(rest.value + 1)
  }

  /** A built-in may only change its settings. */
  predicate UpdateAllowed(current: Definition, candidate: Definition) {
    current.ownership == Builtin ==> SameCore(current, candidate)
  }

  function Or<T>(change: Option<T>, current: T): T {
    if change.Some? then change.value else current
  }

  function Changed(d: Definition, change: Change): Definition {
    Definition(d.id, Or(change.symbol, d.symbol), d.ownership, Or(change.enabled, d.enabled),
               Or(change.archived, d.archived),
               Or(change.aliases, d.aliases), Or(change.quotePollSeconds, d.quotePollSeconds),
               Or(change.staleAfterSeconds, d.staleAfterSeconds), Or(change.history, d.history),
               Or(change.routes, d.routes),
               Or(change.synthetic, d.synthetic), Or(change.description, d.description))
  }

  function Updated(d: Document, id: Ident, change: Change): Option<Document> {
    var items := StagedBase(d).instruments;
    var index := IndexOf(items, id);
    if index == None then None
    else
      var candidate := Changed(items[index.value], change);
      if ValidDefinition(candidate) && UpdateAllowed(items[index.value], candidate)
      then StageDefinitions(d, items[index.value := candidate]) else None
  }

  function Archived(d: Document, id: Ident): Option<Document> {
    var items := StagedBase(d).instruments;
    var index := IndexOf(items, id);
    if index == None || items[index.value].ownership == Builtin then None
    else StageDefinitions(d, items[index.value := items[index.value].(enabled := false, archived := true)])
  }

  function ReplacedStaged(d: Document, candidate: CatalogGeneration, baseline: seq<Definition>): Option<Document> {
    var current := StagedBase(d).instruments;
    if GoodGeneration(candidate) && BuiltinIds(candidate.instruments) == BuiltinIds(baseline)
       && forall item :: item in candidate.instruments && ById(current, item.id).Some? ==>
            UpdateAllowed(ById(current, item.id).value, item)
    then Some(d.(staged := Some(candidate))) else None
  }

  /** An imported built-in must be one the base has, with the same core. */
  predicate ImportAllowed(base: seq<Definition>, item: Definition) {
    item.ownership == Builtin ==>
      var current := ById(base, item.id);
      current.Some? && current.value.ownership == Builtin && SameCore(current.value, item)
  }

  function PutItem(items: seq<Definition>, item: Definition): seq<Definition> {
    var index := IndexOf(items, item.id);
    if index == None then items + [item] else items[index.value := item]
  }

  function PutItems(items: seq<Definition>, incoming: seq<Definition>): seq<Definition>
    decreases |incoming|
  {
    if incoming == [] then items
    else PutItem(PutItems(items, incoming[..|incoming| - 1]), incoming[|incoming| - 1])
  }

  function Builtins(items: seq<Definition>): (builtins: seq<Definition>)
    ensures forall d :: d in builtins <==> d in items && d.ownership == Builtin
    decreases |items|
  {
    if items == [] then []
    else (if items[0].ownership == Builtin then [items[0]] else []) + Builtins(items[1..])
  }

  /** The list an import starts from. */
  function ImportBase(d: Document, mode: ImportMode): seq<Definition> {
    if mode == Merge then StagedBase(d).instruments else Builtins(StagedBase(d).instruments)
  }

  function Imported(d: Document, items: seq<Definition>, mode: ImportMode): Option<Document> {
    if (forall item :: item in items ==> ValidDefinition(item))
         && (forall item :: item in items ==> ImportAllowed(StagedBase(d).instruments, item))
    then StageDefinitions(d, PutItems(ImportBase(d, mode), items)) else None
  }

  function PolicyApplied(d: Definition, update: PolicyUpdate): Definition {
    d.(enabled := update.enabled,
       quotePollSeconds := if update.quotePollSeconds.Some? then update.quotePollSeconds.value else d.quotePollSeconds,
       staleAfterSeconds := if update.staleAfterSeconds.Some? then update.staleAfterSeconds.value
         else d.staleAfterSeconds)
  }

  /** The installed-instrument policy applied to a list; each installed symbol at most once. */
  function PolicyOn(items: seq<Definition>, updates: seq<PolicyUpdate>,
                    installed: set<Symbol>): (patched: Option<seq<Definition>>)
    decreases |updates|
  {
    if updates == [] then Some(items)
    else
      var update := updates[0];
      var index := IndexOfSymbol(items, update.symbol);
      if update.symbol !in installed || index == None then None
      else
        var patched := PolicyApplied(items[index.value], update);
        if !ValidDefinition(patched) then None
        else PolicyOn(items[index.value := patched], updates[1..], installed - {update.symbol})
  }

  function Patched(g: CatalogGeneration, updates: seq<PolicyUpdate>,
                   baseline: seq<Definition>): Option<CatalogGeneration> {
    var patched := PolicyOn(g.instruments, updates, set d | d in baseline :: d.symbol);
    if patched.Some? && Admissible(patched.value) then Some(CatalogGeneration(patched.value)) else None
  }

  /** The document an operation writes; none when the operation is refused. */
  function Apply(d: Document, edit: Edit, baseline: seq<Definition>): Option<Document> {
    match edit
    case Create(item, uuid) =>
      var candidate := item.(id := CustomId(uuid), ownership := Custom);
      if ValidDefinition(candidate) then StageDefinitions(d, StagedBase(d).instruments + [candidate]) else None
    case Update(id, change) => Updated(d, id, change)
    case Archive(id) => Archived(d, id)
    case ReplaceStaged(candidate) => ReplacedStaged(d, candidate, baseline)
    case Import(items, mode) => Imported(d, items, mode)
    case StagePatch(updates) =>
      var staged := Patched(StagedBase(d), updates, baseline);
      if staged == None then None else Some(d.(staged := staged))
    case Patch(updates) =>
      var active := Patched(d.active, updates, baseline);
      if active == None then None else Some(Document(active.value, d.staged, Some(d.active)))
    case ActivateStaged(expected) =>
      if d.staged == None || (expected.Some? && expected != d.staged) then None
      else Some(Document(d.staged.value, None, Some(d.active)))
    case Rollback =>
      if d.lastKnownGood == None then None
      else Some(Document(d.lastKnownGood.value, None, Some(d.active)))
  }

  // ----- operations keep the shipped built-ins

  lemma SameCoreChain(a: Definition, b: Definition, c: Definition)
    requires SameCore(a, b) && SameCore(b, c)
    ensures SameCore(a, c)
  {
  }

  /** Valid items that include exactly the shipped built-ins. */
  predicate Sound(items: seq<Definition>, baseline: seq<Definition>) {
    (forall d :: d in items ==> ValidDefinition(d)) && Preserves(items, baseline)
  }

  /** An item that may stand in a sound list. */
  predicate Fits(d: Definition, baseline: seq<Definition>) {
    ValidDefinition(d)
      && (d.ownership == Builtin ==> ById(baseline, d.id).Some? && SameCore(ById(baseline, d.id).value, d))
  }

  lemma SoundFits(items: seq<Definition>, d: Definition, baseline: seq<Definition>)
    requires Sound(items, baseline) && d in items
    ensures Fits(d, baseline)
  {
  }

  /** Replacing an item by another one of the same identifier keeps a list sound. */
  lemma ReplacingKeeps(items: seq<Definition>, index: nat, candidate: Definition, baseline: seq<Definition>)
    requires index < |items| && Sound(items, baseline) && candidate.id == items[index].id && Fits(candidate, baseline)
    ensures Sound(items[index := candidate], baseline)
  {
    var after := items[index := candidate];
    forall d | d in after ensures Fits(d, baseline) {
      if d != candidate {
        SoundFits(items, d, baseline);
      }
    }
    assert ValidDefinition(items[index]);
    assert candidate.ownership == items[index].ownership;
    hide SameCore, ById, ValidDefinition;
    forall b | b in baseline ensures b.id in BuiltinIds(after) {
      var d :| d in items && d.ownership == Builtin && d.id == b.id;
      var i :| 0 <= i < |items| && items[i] == d;
      assert after[i] in after;
    }
  }

  lemma AppendingCustomKeeps(items: seq<Definition>, item: Definition, baseline: seq<Definition>)
    requires Sound(items, baseline) && item.ownership == Custom && ValidDefinition(item)
    ensures Sound(items + [item], baseline)
  {
    hide SameCore, ById, ValidDefinition;
    forall b | b in baseline ensures b.id in BuiltinIds(items + [item]) {
      var d :| d in items && d.ownership == Builtin && d.id == b.id;
      assert d in items + [item];
    }
  }

  /** An allowed change of a sound item fits again. */
  lemma AllowedFits(current: Definition, candidate: Definition, baseline: seq<Definition>)
    requires Fits(current, baseline) && ValidDefinition(candidate) && UpdateAllowed(current, candidate)
      && candidate.id == current.id
    ensures Fits(candidate, baseline)
  {
    if candidate.ownership == Builtin {
      assert current.ownership == Builtin;
      hide ValidDefinition;
      SameCoreChain(ById(baseline, current.id).value, current, candidate);
    }
  }

  lemma UpdatedKeeps(d: Document, id: Ident, change: Change, baseline: seq<Definition>)
    requires Kept(d, baseline) && Updated(d, id, change).Some?
    ensures Kept(Updated(d, id, change).value, baseline)
  {
    hide Admissible, ValidDefinition, UpdateAllowed, Preserves, Fits;
    var items := StagedBase(d).instruments;
    var index := IndexOf(items, id).value;
    var candidate := Changed(items[index], change);
    assert items[index] in items && Sound(items, baseline);
    SoundFits(items, items[index], baseline);
    AllowedFits(items[index], candidate, baseline);
    ReplacingKeeps(items, index, candidate, baseline);
  }

  lemma ArchivedKeeps(d: Document, id: Ident, baseline: seq<Definition>)
    requires Kept(d, baseline) && Archived(d, id).Some?
    ensures Kept(Archived(d, id).value, baseline)
  {
    hide Admissible, Preserves;
    var items := StagedBase(d).instruments;
    var index := IndexOf(items, id).value;
    assert items[index] in items && Sound(items, baseline);
    ReplacingKeeps(items, index, items[index].(enabled := false, archived := true), baseline);
  }

  lemma ReplacedStagedKeeps(d: Document, candidate: CatalogGeneration, baseline: seq<Definition>)
    requires Kept(d, baseline) && ReplacedStaged(d, candidate, baseline).Some? && forall b ::
      b in baseline ==> b.ownership == Builtin
    ensures Kept(ReplacedStaged(d, candidate, baseline).value, baseline)
  {
    hide Admissible, ValidDefinition, UpdateAllowed, SameCore;
    var current := StagedBase(d).instruments;
    forall b | b in baseline ensures b.id in BuiltinIds(candidate.instruments) {
      assert b.id in BuiltinIds(baseline);
    }
    forall item | item in candidate.instruments && item.ownership == Builtin
      ensures ById(baseline, item.id).Some? && SameCore(ById(baseline, item.id).value, item)
    {
      assert item.id in BuiltinIds(candidate.instruments) && item.id in BuiltinIds(current);
      var mine := ById(current, item.id).value;
      SoundFits(current, mine, baseline);
      AllowedFits(mine, item, baseline);
    }
  }

  lemma PutItemKeeps(items: seq<Definition>, item: Definition, base: seq<Definition>, baseline: seq<Definition>)
    requires Sound(items, baseline) && Sound(base, baseline) && ValidDefinition(item) && ImportAllowed(base, item)
    ensures Sound(PutItem(items, item), baseline)
  {
    var index := IndexOf(items, item.id);
    if item.ownership == Builtin {
      var current := ById(base, item.id).value;
      SoundFits(base, current, baseline);
      AllowedFits(current, item, baseline);
      assert ById(baseline, item.id).value in baseline;
      assert item.id in BuiltinIds(items);
    }
    hide ValidDefinition, Preserves, SameCore, ById, ImportAllowed, Sound;
    if index == None {
      AppendingCustomKeeps(items, item, baseline);
    } else {
      ReplacingKeeps(items, index.value, item, baseline);
    }
  }

  lemma {:induction false} PutItemsKeeps(items: seq<Definition>, incoming: seq<Definition>, base: seq<Definition>,
                                         baseline: seq<Definition>)
    requires Sound(items, baseline) && Sound(base, baseline)
    requires forall item :: item in incoming ==> ValidDefinition(item) && ImportAllowed(base, item)
    ensures Sound(PutItems(items, incoming), baseline)
    decreases |incoming|
  {
    hide ValidDefinition, ImportAllowed, Sound, PutItem;
    if incoming != [] {
      var last := incoming[|incoming| - 1];
      PutItemsKeeps(items, incoming[..|incoming| - 1], base, baseline);
      PutItemKeeps(PutItems(items, incoming[..|incoming| - 1]), last, base, baseline);
    }
  }

  lemma BuiltinsAreSound(items: seq<Definition>, baseline: seq<Definition>)
    requires Sound(items, baseline)
    ensures Sound(Builtins(items), baseline)
  {
    hide ValidDefinition, SameCore, ById;
    forall b | b in baseline ensures b.id in BuiltinIds(Builtins(items)) {
      var d :| d in items && d.ownership == Builtin && d.id == b.id;
      assert d in Builtins(items);
    }
  }

  lemma ImportedKeeps(d: Document, items: seq<Definition>, mode: ImportMode, baseline: seq<Definition>)
    requires Kept(d, baseline) && Imported(d, items, mode).Some?
    ensures Kept(Imported(d, items, mode).value, baseline)
  {
    hide Admissible, ValidDefinition, ImportAllowed, Preserves, PutItems, Builtins;
    var base := StagedBase(d).instruments;
    assert Sound(base, baseline);
    BuiltinsAreSound(base, baseline);
    PutItemsKeeps(ImportBase(d, mode), items, base, baseline);
  }

  lemma {:induction false} PolicyKeeps(items: seq<Definition>, updates: seq<PolicyUpdate>, installed: set<Symbol>,
                                       baseline: seq<Definition>)
    requires Sound(items, baseline) && PolicyOn(items, updates, installed).Some?
    ensures Sound(PolicyOn(items, updates, installed).value, baseline)
    decreases |updates|
  {
    if updates != [] {
      var index := IndexOfSymbol(items, updates[0].symbol).value;
      var patched := PolicyApplied(items[index], updates[0]);
      assert items[index] in items;
      SoundFits(items, items[index], baseline);
      assert SameCore(items[index], patched);
      hide Sound, SameCore, ValidDefinition, Fits;
      AllowedFits(items[index], patched, baseline);
      ReplacingKeeps(items, index, patched, baseline);
      PolicyKeeps(items[index := patched], updates[1..], installed - {updates[0].symbol}, baseline);
    }
  }

  lemma PatchedKeeps(g: CatalogGeneration, updates: seq<PolicyUpdate>, baseline: seq<Definition>)
    requires KeptGeneration(g, baseline) && Patched(g, updates, baseline).Some?
    ensures KeptGeneration(Patched(g, updates, baseline).value, baseline)
  {
    hide Admissible, ValidDefinition, Preserves, PolicyOn;
    assert Sound(g.instruments, baseline);
    PolicyKeeps(g.instruments, updates, set d | d in baseline :: d.symbol, baseline);
  }

  lemma CreatedKeeps(d: Document, item: Definition, uuid: string, baseline: seq<Definition>)
    requires Kept(d, baseline) && Apply(d, Create(item, uuid), baseline).Some?
    ensures Kept(Apply(d, Create(item, uuid), baseline).value, baseline)
  {
    hide Admissible, ValidDefinition, Preserves;
    var candidate := item.(id := CustomId(uuid), ownership := Custom);
    assert Sound(StagedBase(d).instruments, baseline);
    AppendingCustomKeeps(StagedBase(d).instruments, candidate, baseline);
  }

  lemma BaselineIsBuiltin(baseline: seq<Definition>)
    requires GoodBaseline(baseline)
    ensures forall b :: b in baseline ==> b.ownership == Builtin
  {
    hide Admissible, ValidDefinition, NoRetiredNames;
  }

  /**
   Whatever an administrator does, all three generations keep exactly the shipped built-ins with their shipped core.
   */
  lemma ApplyKeeps(d: Document, edit: Edit, baseline: seq<Definition>)
    requires GoodBaseline(baseline) && Kept(d, baseline) && Apply(d, edit, baseline).Some?
    ensures Kept(Apply(d, edit, baseline).value, baseline)
  {
    hide GoodBaseline, Updated, Archived, ReplacedStaged, Imported, Patched, ValidDefinition, StageDefinitions,
         KeptGeneration;
    match edit
    case Create(item, uuid) => CreatedKeeps(d, item, uuid, baseline);
    case Update(id, change) => UpdatedKeeps(d, id, change, baseline);
    case Archive(id) => ArchivedKeeps(d, id, baseline);
    case ReplaceStaged(candidate) =>
      BaselineIsBuiltin(baseline);
      ReplacedStagedKeeps(d, candidate, baseline);
    case Import(items, mode) => ImportedKeeps(d, items, mode, baseline);
    case StagePatch(updates) => PatchedKeeps(StagedBase(d), updates, baseline);
    case Patch(updates) => PatchedKeeps(d.active, updates, baseline);
    case ActivateStaged(_) =>
    case Rollback =>
  }

  // ----- reading back what was written

  /** A built-in chain that names both the retired and the current provider. */
  predicate Clashes(d: Definition) {
    exists route :: route in d.routes && RETIRED_NAME in route.providers && CURRENT_NAME in route.providers
  }

  lemma RenamedOnceIff(providers: seq<Name>)
    requires Once(providers)
    ensures Once(RenamedChain(providers)) <==> !(RETIRED_NAME in providers && CURRENT_NAME in providers)
  {
    NamesDiffer();
    var renamed := RenamedChain(providers);
    if RETIRED_NAME in providers && CURRENT_NAME in providers {
      var i :| 0 <= i < |providers| && providers[i] == RETIRED_NAME;
      var j :| 0 <= j < |providers| && providers[j] == CURRENT_NAME;
      assert renamed[i] == renamed[j];
    } else {
      forall i, j | 0 <= i < j < |renamed| ensures renamed[i] != renamed[j] {
        assert providers[i] in providers && providers[j] in providers;
      }
    }
  }

  lemma RouteValidIff(symbol: Symbol, route: Route, shipped: seq<Route>)
    requires 1 <= |route.providers| <= 4 && Once(route.providers) && ValidRoutes(shipped)
    ensures var r := ReconciledRoute(symbol, route, shipped);
            && r.capability == route.capability
            && (1 <= |r.providers| <= 4 && Once(r.providers) <==>
                !(RETIRED_NAME in route.providers && CURRENT_NAME in route.providers))
  {
    RenamedOnceIff(route.providers);
    RenamedChainIff(route.providers);
    if IsPriorDefault(symbol, route.capability, route.providers) {
      PriorDefaultsDoNotClash(symbol, route.capability, route.providers);
    }
    hide IsPriorDefault, RenamedChain;
  }

  lemma PriorDefaultsDoNotClash(symbol: Symbol, capability: Capability, providers: seq<Name>)
    requires IsPriorDefault(symbol, capability, providers)
    ensures CURRENT_NAME !in providers
  {
    NamesDiffer();
  }

  /** A built-in with its shipped core merges into a valid definition exactly when no chain of it clashes. */
  lemma MergedValidIff(shipped: Definition, d: Definition)
    requires ValidDefinition(shipped) && ValidDefinition(d) && SameCore(shipped, d) && !shipped.archived
    ensures ValidDefinition(Merged(shipped, d)) <==> !Clashes(d)
  {
    var routes := ReconciledRoutes(d.symbol, d.routes, shipped.routes);
    forall i | 0 <= i < |d.routes|
      ensures routes[i].capability == d.routes[i].capability
      ensures 1 <= |routes[i].providers| <= 4 && Once(routes[i].providers)
        <==> !(RETIRED_NAME in d.routes[i].providers && CURRENT_NAME in d.routes[i].providers)
    {
      RouteValidIff(d.symbol, d.routes[i], shipped.routes);
    }
    hide ReconciledRoutes, Once;
    ValidRoutesIff(d.routes, routes);
    assert d.routes == [] ==> !Clashes(d);
  }

  lemma ValidRoutesIff(routes: seq<Route>, reconciled: seq<Route>)
    requires ValidRoutes(routes) && |reconciled| == |routes|
    requires forall i :: 0 <= i < |routes| ==> reconciled[i].capability == routes[i].capability
    requires forall i :: 0 <= i < |routes| ==>
      (1 <= |reconciled[i].providers| <= 4 && Once(reconciled[i].providers)
       <==> !(RETIRED_NAME in routes[i].providers && CURRENT_NAME in routes[i].providers))
    ensures ValidRoutes(reconciled) <==>
      !exists route :: route in routes && RETIRED_NAME in route.providers && CURRENT_NAME in route.providers
  {
    hide Once;
    if route :| route in routes && RETIRED_NAME in route.providers && CURRENT_NAME in route.providers {
      var i :| 0 <= i < |routes| && routes[i] == route;
      assert reconciled[i] in reconciled;
    } else {
      forall r | r in reconciled ensures 1 <= |r.providers| <= 4 && Once(r.providers) {
        var i :| 0 <= i < |reconciled| && reconciled[i] == r;
        assert routes[i] in routes;
      }
    }
  }

  /** Two lists that agree on everything admission looks at. */
  ghost predicate Alike(a: seq<Definition>, b: seq<Definition>) {
    |a| == |b| && forall i :: 0 <= i < |a| ==>
      && a[i].id == b[i].id && a[i].symbol == b[i].symbol && a[i].aliases == b[i].aliases
      && a[i].ownership == b[i].ownership
      && a[i].enabled == b[i].enabled && a[i].archived == b[i].archived && a[i].synthetic == b[i].synthetic
  }

  lemma {:induction false} AlikeParts(a: seq<Definition>, b: seq<Definition>)
    requires Alike(a, b)
    ensures Names(a) == Names(b) && CustomCount(a) == CustomCount(b) && Recipes(a) == Recipes(b)
    decreases |a|
  {
    if a != [] {
      AlikeParts(a[..|a| - 1], b[..|b| - 1]);
    }
  }

  lemma AlikeActive(a: seq<Definition>, b: seq<Definition>)
    requires Alike(a, b)
    ensures ActiveSymbols(a) <= ActiveSymbols(b)
  {
    forall s | s in ActiveSymbols(a) ensures s in ActiveSymbols(b) {
      var d :| d in a && d.Active() && d.symbol == s;
      var i :| 0 <= i < |a| && a[i] == d;
      assert b[i] in b && b[i].Active() && b[i].symbol == s;
    }
  }

  lemma AlikeAdmissible(a: seq<Definition>, b: seq<Definition>)
    requires Alike(a, b) && Admissible(a)
    ensures Admissible(b)
  {
    AlikeParts(a, b);
    AlikeActive(a, b);
    AlikeActive(b, a);
    assert DistinctIds(b);
    hide HasChain, Once, Recipes, ActiveSymbols, Names, CustomCount, GraphOf;
  }

  /** A generation with the shipped built-ins can be read back exactly when none of their chains clashes. */
  lemma ReconcilableIff(g: CatalogGeneration, baseline: seq<Definition>)
    requires GoodBaseline(baseline) && KeptGeneration(g, baseline)
    ensures ReconcileGeneration(g, baseline).Some? <==>
      forall d :: d in g.instruments && d.ownership == Builtin ==> !Clashes(d)
  {
    forall d | d in g.instruments
      ensures ReconcileItem(d, baseline).Some? <==> d.ownership == Custom || !Clashes(d)
      ensures ReconcileItem(d, baseline).Some? ==> Alike([d], [ReconcileItem(d, baseline).value])
    {
      ReconcilableItemIff(d, baseline);
    }
    hide ReconcileItem, Clashes, GoodBaseline, ValidDefinition, Alike, Admissible, Once, BuiltinIds;
    ReadableIffItemsAre(g, baseline);
  }

  /** With no shipped instrument missing, a list is readable exactly when each item is. */
  lemma ReadableIffItemsAre(g: CatalogGeneration, baseline: seq<Definition>)
    requires Admissible(g.instruments) && forall b :: b in baseline ==> b.id in BuiltinIds(g.instruments)
    requires forall d :: d in g.instruments && ReconcileItem(d, baseline).Some? ==>
      Alike([d], [ReconcileItem(d, baseline).value])
    ensures ReconcileGeneration(g, baseline).Some? <==>
      forall d :: d in g.instruments ==> ReconcileItem(d, baseline).Some?
  {
    NothingMissing(g.instruments, baseline);
    hide ReconcileItem, Admissible, BuiltinIds, Missing, Alike;
    var items := ReconcileItems(g.instruments, baseline);
    if items.Some? {
      assert items.value + [] == items.value;
      forall i | 0 <= i < |items.value| ensures Alike([g.instruments[i]], [items.value[i]]) {
        assert g.instruments[i] in g.instruments;
      }
      AlikePointwise(g.instruments, items.value);
      AlikeAdmissible(g.instruments, items.value);
      forall d | d in g.instruments ensures ReconcileItem(d, baseline).Some? {
        var i :| 0 <= i < |g.instruments| && g.instruments[i] == d;
      }
    } else {
      var i :| 0 <= i < |g.instruments| && ReconcileItem(g.instruments[i], baseline) == None;
      assert g.instruments[i] in g.instruments;
    }
  }

  lemma AlikePointwise(a: seq<Definition>, b: seq<Definition>)
    requires |a| == |b| && forall i :: 0 <= i < |a| ==> Alike([a[i]], [b[i]])
    ensures Alike(a, b)
  {
    forall i | 0 <= i < |a| ensures Alike([a[i]], [b[i]]) && [a[i]][0] == a[i] && [b[i]][0] == b[i] {
    }
  }

  lemma ReconcilableItemIff(d: Definition, baseline: seq<Definition>)
    requires GoodBaseline(baseline) && ValidDefinition(d)
    requires d.ownership == Builtin ==> ById(baseline, d.id).Some? && SameCore(ById(baseline, d.id).value, d)
    ensures ReconcileItem(d, baseline).Some? <==> d.ownership == Custom || !Clashes(d)
    ensures ReconcileItem(d, baseline).Some? ==> Alike([d], [ReconcileItem(d, baseline).value])
  {
    hide Admissible, Clashes, NoRetiredNames, ReconciledRoutes, MergedHistory, ValidDefinition;
    if d.ownership == Builtin {
      var shipped := ById(baseline, d.id).value;
      assert shipped in baseline;
      MergedValidIff(shipped, d);
    }
  }

  predicate DocumentClashes(d: Document) {
    || GenerationClashes(d.active)
    || (d.staged.Some? && GenerationClashes(d.staged.value))
    || (d.lastKnownGood.Some? && GenerationClashes(d.lastKnownGood.value))
  }

  predicate GenerationClashes(g: CatalogGeneration) {
    exists d :: d in g.instruments && d.ownership == Builtin && Clashes(d)
  }

  /** What an operation wrote can be read back exactly when no built-in chain names a provider under both its names. */
  lemma ReadableIff(d: Document, form: nat, baseline: seq<Definition>)
    requires GoodBaseline(baseline) && Kept(d, baseline)
    ensures Load(Encoded(d, form), baseline).Some? <==> !DocumentClashes(d)
  {
    hide ReconcileGeneration, GoodBaseline, GoodGeneration, KeptGeneration, GenerationClashes, FromPolicy;
    ReconcilableGenerationIff(d.active, baseline);
    if d.staged.Some? { ReconcilableGenerationIff(d.staged.value, baseline); }
    if d.lastKnownGood.Some? { ReconcilableGenerationIff(d.lastKnownGood.value, baseline); }
  }

  lemma ReconcilableGenerationIff(g: CatalogGeneration, baseline: seq<Definition>)
    requires GoodBaseline(baseline) && KeptGeneration(g, baseline)
    ensures ReconcileGeneration(g, baseline).Some? <==> !GenerationClashes(g)
    ensures GoodGeneration(g)
  {
    ReconcilableIff(g, baseline);
    hide Clashes, ReconcileGeneration, GoodBaseline;
  }

  /** An operator can make the file unreadable: the operation is accepted, written, and then nothing can be read. */
  lemma ClashingUpdateLocksTheFile(d: Document, current: Definition, baseline: seq<Definition>)
    requires GoodBaseline(baseline) && Kept(d, baseline) && current in StagedBase(d).instruments
      && current.ownership == Builtin
    ensures var written := Apply(d, ClashingUpdate(current), baseline);
            written.Some? && forall form :: Load(Encoded(written.value, form), baseline) == None
  {
    hide GoodBaseline, Kept, Load, DocumentClashes, Apply, ClashingUpdate;
    ClashingUpdateIsAccepted(d, current, baseline);
    var written := Apply(d, ClashingUpdate(current), baseline).value;
    ApplyKeeps(d, ClashingUpdate(current), baseline);
    forall form ensures Load(Encoded(written, form), baseline) == None {
      ReadableIff(written, form, baseline);
    }
  }

  /** It takes no more than a first start: one shipped instrument and the document written for it. */
  lemma FirstDocumentCanBeLocked(shipped: Definition)
    requires ValidDefinition(shipped) && shipped.ownership == Builtin && !shipped.archived
      && NoRetiredNames(shipped.routes)
    requires shipped.synthetic == None
    ensures var baseline, d := [shipped], Document(CatalogGeneration([shipped]), None, None);
            && GoodBaseline(baseline) && Kept(d, baseline) && ReconcileDocument(d, baseline) == Some(d)
            && var written := Apply(d, ClashingUpdate(shipped), baseline);
               written.Some? && forall form :: Load(Encoded(written.value, form), baseline) == None
  {
    hide GoodBaseline, GoodGeneration, Preserves, Load, Apply, ClashingUpdate, ReconcileGeneration, ValidDefinition,
         NoRetiredNames;
    var baseline, d := [shipped], Document(CatalogGeneration([shipped]), None, None);
    OneInstrumentIsGood(shipped);
    ShippedSettles(baseline);
    ClashingUpdateLocksTheFile(d, shipped, baseline);
  }

  function ClashingItem(current: Definition): Definition {
    current.(routes := [Route(Quote, [RETIRED_NAME, CURRENT_NAME])])
  }

  function ClashingUpdate(current: Definition): Edit {
    Update(current.id, NO_CHANGE.(routes := Some(ClashingItem(current).routes)))
  }

  lemma ClashingUpdateIsAccepted(d: Document, current: Definition, baseline: seq<Definition>)
    requires Kept(d, baseline) && current in StagedBase(d).instruments && current.ownership == Builtin
    ensures var written := Apply(d, ClashingUpdate(current), baseline); written.Some? && DocumentClashes(written.value)
  {
    hide Admissible, Preserves, ValidDefinition, Clashes, IndexOf, ClashingUpdate, SameCore, Changed;
    var items := StagedBase(d).instruments;
    var index := IndexOf(items, current.id).value;
    ClashingReplacement(items, current, index);
    var change := ClashingItem(current);
    assert items[index := change][index] == change;
  }

  lemma ClashingReplacement(items: seq<Definition>, current: Definition, index: nat)
    requires Admissible(items) && forall d :: d in items ==> ValidDefinition(d)
    requires current in items && index < |items| && items[index].id == current.id
    ensures var change := ClashingItem(current);
            && items[index] == current && ClashingUpdate(current).Update? && ClashingUpdate(current).id == current.id
            && Changed(current, ClashingUpdate(current).change) == change
            && ValidDefinition(change) && Clashes(change) && SameCore(current, change)
            && Admissible(items[index := change])
  {
    hide Alike, ValidDefinition, Clashes, SameCore, Recipes, HasChain, InputsAvailable, CustomCount, Once;
    var change := ClashingItem(current);
    TheOneByIndex(items, current, index);
    ClashingChangeIsValid(current);
    ChangedRoutesAreAlike(items, index, change);
    AlikeAdmissible(items, items[index := change]);
  }

  lemma ClashingChangeIsValid(current: Definition)
    requires ValidDefinition(current)
    ensures var change := ClashingItem(current);
      ValidDefinition(change) && Clashes(change) && SameCore(current, change)
  {
    NamesDiffer();
    var change := ClashingItem(current);
    assert change.routes[0] in change.routes;
    assert change.routes[0].providers[0] == RETIRED_NAME && change.routes[0].providers[1] == CURRENT_NAME;
  }

  lemma ChangedRoutesAreAlike(items: seq<Definition>, index: nat, change: Definition)
    requires index < |items| && change == items[index].(routes := change.routes)
    ensures Alike(items, items[index := change])
  {
  }

  lemma TheOneByIndex(items: seq<Definition>, d: Definition, index: nat)
    requires DistinctIds(items) && d in items && index < |items| && items[index].id == d.id
    ensures items[index] == d
  {
    var i :| 0 <= i < |items| && items[i] == d;
  }

  /** Everything read from the file is kept and reconciled, so writing it once ends the migration. */
  lemma LoadSettles(content: Content, baseline: seq<Definition>)
    requires GoodBaseline(baseline) && Load(content, baseline).Some?
    ensures var d := Load(content, baseline).value.document;
            && Kept(d, baseline)
            && ReconcileDocument(d, baseline) == Some(d)
            && Load(Encoded(d, 0), baseline) == Some(Loaded(d, false))
  {
    hide GoodBaseline, Load, SettledDocument;
    LoadedIsSettled(content, baseline);
    SettledReadsBack(Load(content, baseline).value.document, baseline);
  }

  lemma SettledReadsBack(d: Document, baseline: seq<Definition>)
    requires SettledDocument(d, baseline)
    ensures Kept(d, baseline) && ReconcileDocument(d, baseline) == Some(d)
    ensures Load(Encoded(d, 0), baseline) == Some(Loaded(d, false))
  {
    hide Kept, ReconcileDocument, GoodDocument;
  }

  predicate SettledDocument(d: Document, baseline: seq<Definition>) {
    Kept(d, baseline) && GoodDocument(d) && ReconcileDocument(d, baseline) == Some(d)
  }

  lemma LoadedIsSettled(content: Content, baseline: seq<Definition>)
    requires GoodBaseline(baseline) && Load(content, baseline).Some?
    ensures SettledDocument(Load(content, baseline).value.document, baseline)
  {
    match content
    case NoContent =>
      hide ReconcileGeneration, GoodBaseline, FromPolicy, GoodGeneration, SettledDocument, KeptGeneration;
      ShippedSettles(baseline);
      OnlyActive(CatalogGeneration(baseline), baseline);
    case PolicyOnly(disabled, intervals) =>
      hide ReconcileGeneration, GoodBaseline, FromPolicy, GoodGeneration, SettledDocument, KeptGeneration;
      PolicySettles(baseline, disabled, intervals);
      OnlyActive(CatalogGeneration(FromPolicy(baseline, disabled, intervals)), baseline);
    case Encoded(document, _) =>
      hide ReconcileDocument, GoodBaseline, GoodDocument, Kept;
      DocumentSettles(document, baseline);
  }

  lemma OnlyActive(g: CatalogGeneration, baseline: seq<Definition>)
    requires KeptGeneration(g, baseline) && ReconcileGeneration(g, baseline) == Some(g)
    ensures SettledDocument(Document(g, None, None), baseline)
  {
    hide ReconcileGeneration, Preserves, GoodGeneration;
  }

  lemma DocumentSettles(document: Document, baseline: seq<Definition>)
    requires GoodBaseline(baseline) && GoodDocument(document) && ReconcileDocument(document, baseline).Some?
    ensures var d := ReconcileDocument(document, baseline).value;
            Kept(d, baseline) && GoodDocument(d) && ReconcileDocument(d, baseline) == Some(d)
  {
    hide ReconcileGeneration, GoodBaseline, Preserves, GoodGeneration;
    ReconcileSettles(document.active, baseline);
    if document.staged.Some? { ReconcileSettles(document.staged.value, baseline); }
    if document.lastKnownGood.Some? { ReconcileSettles(document.lastKnownGood.value, baseline); }
  }

  lemma BaselineIsGeneration(baseline: seq<Definition>)
    requires GoodBaseline(baseline)
    ensures GoodGeneration(CatalogGeneration(baseline))
  {
    hide Admissible, ValidDefinition, NoRetiredNames;
  }

  lemma ShippedSettles(baseline: seq<Definition>)
    requires GoodBaseline(baseline)
    ensures KeptGeneration(CatalogGeneration(baseline), baseline)
    ensures ReconcileGeneration(CatalogGeneration(baseline), baseline) == Some(CatalogGeneration(baseline))
  {
    hide Admissible, ReconcileItem, ValidDefinition, GoodBaseline, SameCore, ReconcileGeneration, ById;
    BaselineIsGeneration(baseline);
    BaselineIsBuiltin(baseline);
    forall d | d in baseline
      ensures ReconcileItem(d, baseline) == Some(d) && ById(baseline, d.id) == Some(d) && SameCore(d, d) {
      ShippedItemSettles(d, baseline);
    }
    KeptIff(CatalogGeneration(baseline), baseline);
  }

  lemma {:induction false} FromPolicyAt(baseline: seq<Definition>, disabled: set<Symbol>,
                                        intervals: map<Symbol, (real, real)>, i: nat)
    requires i < |baseline|
    ensures var item := FromPolicy(baseline, disabled, intervals)[i];
            item == baseline[i].(enabled := item.enabled, quotePollSeconds := item.quotePollSeconds,
                                 staleAfterSeconds := item.staleAfterSeconds)
    decreases i
  {
    if i > 0 {
      FromPolicyAt(baseline[1..], disabled, intervals, i - 1);
    }
  }

  lemma PolicySettles(baseline: seq<Definition>, disabled: set<Symbol>, intervals: map<Symbol, (real, real)>)
    requires GoodBaseline(baseline) && GoodGeneration(CatalogGeneration(FromPolicy(baseline, disabled, intervals)))
    ensures var g := CatalogGeneration(FromPolicy(baseline, disabled, intervals));
            KeptGeneration(g, baseline) && ReconcileGeneration(g, baseline) == Some(g)
  {
    hide Admissible, ReconcileItem, ValidDefinition, GoodBaseline, SameCore, ReconcileGeneration, ById, FromPolicy;
    var g := CatalogGeneration(FromPolicy(baseline, disabled, intervals));
    forall i | 0 <= i < |g.instruments|
      ensures var d := g.instruments[i];
              ReconcileItem(d, baseline) == Some(d) && d.ownership == Builtin && d.id == baseline[i].id
              && ById(baseline, d.id) == Some(baseline[i]) && SameCore(baseline[i], d)
    {
      FromPolicyAt(baseline, disabled, intervals, i);
      BaselineIsBuiltin(baseline);
      assert g.instruments[i] in g.instruments && baseline[i] in baseline;
      PolicyItemSettles(baseline[i], g.instruments[i], baseline);
    }
    forall d | d in g.instruments
      ensures ReconcileItem(d, baseline) == Some(d) && ById(baseline, d.id).Some?
        && SameCore(ById(baseline, d.id).value, d)
    {
      var i :| 0 <= i < |g.instruments| && g.instruments[i] == d;
    }
    forall b | b in baseline ensures b.id in BuiltinIds(g.instruments) {
      var i :| 0 <= i < |baseline| && baseline[i] == b;
      assert g.instruments[i] in g.instruments;
    }
    KeptIff(g, baseline);
  }

  lemma PolicyItemSettles(shipped: Definition, d: Definition, baseline: seq<Definition>)
    requires GoodBaseline(baseline) && shipped in baseline && ValidDefinition(d)
    requires d == shipped.(enabled := d.enabled, quotePollSeconds := d.quotePollSeconds,
                           staleAfterSeconds := d.staleAfterSeconds)
    ensures ReconcileItem(d, baseline) == Some(d) && ById(baseline, d.id) == Some(shipped) && SameCore(shipped, d)
  {
    assert DistinctIds(baseline);
    TheOneById(baseline, shipped);
    hide Admissible, IsPriorDefault, RouteFor, ValidDefinition;
    OwnRoutesSettle(shipped.symbol, shipped.routes) by {
      assert ValidDefinition(shipped);
    }
    assert Merged(shipped, d) == d;
  }

  // ----- the import loop

  /** The position table the import keeps beside its list. */
  ghost predicate Positions(items: seq<Definition>, indexes: map<Ident, nat>) {
    && DistinctIds(items)
    && (forall id :: id in indexes ==> indexes[id] < |items| && items[indexes[id]].id == id)
    && (forall i :: 0 <= i < |items| ==> items[i].id in indexes)
  }

  lemma PositionIsIndex(items: seq<Definition>, indexes: map<Ident, nat>, id: Ident)
    requires Positions(items, indexes)
    ensures IndexOf(items, id) == if id in indexes then Some(indexes[id]) else None
  {
    var index := IndexOf(items, id);
    assert index.Some? ==> items[index.value].id in indexes;
    assert id in indexes ==> items[indexes[id]] in items;
  }

  function Entered(items: seq<Definition>, indexes: map<Ident, nat>, id: Ident): map<Ident, nat> {
    var end: nat := |items|;
    if id in indexes then indexes else indexes[id := end]
  }

  lemma PutItemPositions(items: seq<Definition>, indexes: map<Ident, nat>, item: Definition)
    requires Positions(items, indexes)
    ensures Positions(PutItem(items, item), Entered(items, indexes, item.id))
  {
    hide IndexOf;
    PositionIsIndex(items, indexes, item.id);
    var put := PutItem(items, item);
    assert forall i :: 0 <= i < |items| ==> put[i].id == items[i].id;
  }

  /** Checks and merges the imported items one by one; all of them are merged or the import is refused. */
  method MergeImport(base: seq<Definition>, start: seq<Definition>, indexes: map<Ident, nat>, incoming: seq<Definition>)
    returns (merged: Option<seq<Definition>>)
    requires Positions(start, indexes)
    ensures merged == if forall item ::
      item in incoming ==> ImportAllowed(base, item) then Some(PutItems(start, incoming)) else None
  {
    hide ImportAllowed, Positions, PutItem;
    var items, table := start, indexes;
    for k := 0 to |incoming|
      invariant Positions(items, table) && items == PutItems(start, incoming[..k])
      invariant forall item :: item in incoming[..k] ==> ImportAllowed(base, item)
    {
      var item := incoming[k];
      assert incoming[..k + 1] == incoming[..k] + [item] && incoming[..k + 1][..k] == incoming[..k];
      if !ImportAllowed(base, item) {
        assert item in incoming;
        return None;
      }
      PutItemPositions(items, table, item);
      items, table := PutAt(items, table, item), Entered(items, table, item.id);
    }
    assert incoming[..|incoming|] == incoming;
    merged := Some(items);
  }

  /** Replaces the item the table points at, or appends. */
  function PutAt(items: seq<Definition>, indexes: map<Ident, nat>, item: Definition): (put: seq<Definition>)
    requires Positions(items, indexes)
    ensures put == PutItem(items, item)
  {
    PositionIsIndex(items, indexes, item.id);
    if item.id in indexes then items[indexes[item.id] := item] else items + [item]
  }
}
