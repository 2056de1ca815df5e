/**
 Instrument catalogs: what makes a generation valid, the memoised depth search behind the synthetic
 dependency limit, the registry's cycle search and the resolution of names.
 */
module Catalog {
  import opened Basics
  import opened SymbolGraph

  /** Identifiers carry the namespace of their owner. */
  datatype Ident = BuiltinId(text: string) | CustomId(text: string)
  datatype Ownership = Builtin | Custom
  datatype HistoryCollection = HistoryCollection(enabled: bool, pollSeconds: Option<real>, backfillDays: Option<nat>)
  datatype Route = Route(capability: Capability, providers: seq<Name>)

  /** One instrument; `description` stands for the remaining fields, all of them immutable for a built-in. */
  datatype Definition = Definition(
    id: Ident, symbol: Symbol, ownership: Ownership, enabled: bool, archived: bool, aliases: seq<Symbol>,
    quotePollSeconds: real, staleAfterSeconds: real, history: HistoryCollection, routes: seq<Route>,
    synthetic: Option<seq<Symbol>>, description: nat)
  {
    predicate Active() {
      enabled && !archived
    }
  }

  /** A generation is identified by its content: the revision is a digest of the instruments. */
  datatype CatalogGeneration = CatalogGeneration(instruments: seq<Definition>)

  datatype CatalogFault =
    EmptyCatalog | DuplicateIdentity | DuplicateAlias | TooManyCustom | UnavailableInput | DependencyCycle
      | DependencyDepth

  const MAX_CUSTOM_INSTRUMENTS: nat := 2_000
  const MAX_SYNTHETIC_DEPTH: nat := 4

  // ----- what a valid generation is

  predicate DistinctIds(instruments: seq<Definition>) {
    forall i, j :: 0 <= i < j < |instruments| ==> instruments[i].id != instruments[j].id
  }

  /** Every name of every instrument, in the order of declaration. */
  function Names(instruments: seq<Definition>): seq<Symbol>
    decreases |instruments|
  {
    if instruments == [] then []
    else var last := instruments[|instruments| - 1];
      Names(instruments[..|instruments| - 1]) + [last.symbol] + last.aliases
  }

  predicate Once<T(==)>(names: seq<T>) {
    forall i, j :: 0 <= i < j < |names| ==> names[i] != names[j]
  }

  function CustomCount(instruments: seq<Definition>): nat
    decreases |instruments|
  {
    if instruments == [] then 0
    else
      CustomCount(instruments[..|instruments| - 1])
      + (if instruments[|instruments| - 1].ownership == Custom then 1 else 0)
  }

  function ActiveSymbols(instruments: seq<Definition>): set<Symbol> {
    set d | d in instruments && d.Active() :: d.symbol
  }

  /** The recipes of the active synthetics. */
  function Recipes(instruments: seq<Definition>): map<Symbol, seq<Symbol>>
    decreases |instruments|
  {
    if instruments == [] then map[]
    else
      var last := instruments[|instruments| - 1];
      var before := Recipes(instruments[..|instruments| - 1]);
      if last.Active() && last.synthetic.Some? then before[last.symbol := last.synthetic.value] else before
  }

  function GraphOf(recipes: map<Symbol, seq<Symbol>>): Graph {
    map s | s in recipes :: set t | t in recipes[s]
  }

  predicate InputsAvailable(recipes: map<Symbol, seq<Symbol>>, active: set<Symbol>) {
    forall s, t :: s in recipes && t in recipes[s] ==> t in active
  }

  /** A path through synthetics only. */
  ghost predicate IsChain(g: Graph, path: seq<Symbol>) {
    IsPath(g, path) && forall i :: 0 <= i < |path| ==> path[i] in g
  }

  ghost predicate Shallow(g: Graph, limit: nat) {
    forall path :: IsChain(g, path) ==> |path| <= limit
  }

  ghost predicate ValidGeneration(instruments: seq<Definition>) {
    && instruments != []
    && DistinctIds(instruments)
    && Once(Names(instruments))
    && CustomCount(instruments) <= MAX_CUSTOM_INSTRUMENTS
    && InputsAvailable(Recipes(instruments), ActiveSymbols(instruments))
    && Acyclic(GraphOf(Recipes(instruments)))
    && Shallow(GraphOf(Recipes(instruments)), MAX_SYNTHETIC_DEPTH)
  }

  // ----- the same, read off the instruments

  predicate DistinctSymbols(items: seq<Definition>) {
    forall i, j :: 0 <= i < j < |items| ==> items[i].symbol != items[j].symbol
  }

  lemma {:induction false} SymbolIsName(items: seq<Definition>, i: nat)
    requires i < |items|
    ensures items[i].symbol in Names(items)
    decreases |items|
  {
    if i < |items| - 1 {
      SymbolIsName(items[..|items| - 1], i);
    }
  }

  lemma {:induction false} OnceNamedIsDistinct(items: seq<Definition>)
    requires Once(Names(items))
    ensures DistinctSymbols(items)
    decreases |items|
  {
    if items != [] {
      var front, last := items[..|items| - 1], items[|items| - 1];
      var names := Names(front) + [last.symbol] + last.aliases;
      assert names == Names(items);
      assert Names(front) == names[..|Names(front)|];
      OnceNamedIsDistinct(front);
      forall i | 0 <= i < |front| ensures front[i].symbol != last.symbol {
        SymbolIsName(front, i);
        var k :| 0 <= k < |Names(front)| && Names(front)[k] == front[i].symbol;
        assert names[k] == front[i].symbol && names[|Names(front)|] == last.symbol;
      }
    }
  }

  /** An active instrument with a recipe, under the symbol. */
  ghost predicate Prescribes(instruments: seq<Definition>, symbol: Symbol, inputs: seq<Symbol>) {
    exists d :: d in instruments && d.enabled && !d.archived && d.symbol == symbol && d.synthetic == Some(inputs)
  }

  lemma {:induction false} RecipesAre(instruments: seq<Definition>)
    requires DistinctSymbols(instruments)
    ensures forall s, inputs :: (s, inputs) in Recipes(instruments).Items <==> Prescribes(instruments, s, inputs)
    decreases |instruments|
  {
    if instruments != [] {
      var front, last := instruments[..|instruments| - 1], instruments[|instruments| - 1];
      assert instruments == front + [last];
      RecipesAre(front);
      forall d | d in front ensures d.symbol != last.symbol {
        var i :| 0 <= i < |front| && front[i] == d;
        assert instruments[i] == d;
      }
      forall s, inputs
        ensures Prescribes(instruments, s, inputs) <==>
          Prescribes(front, s, inputs)
          || (last.enabled && !last.archived && last.symbol == s && last.synthetic == Some(inputs))
      {
      }
      assert last.symbol in Recipes(front) ==> (last.symbol, Recipes(front)[last.symbol]) in Recipes(front).Items;
    }
  }

  ghost predicate IsActive(instruments: seq<Definition>, symbol: Symbol) {
    exists d :: d in instruments && d.enabled && !d.archived && d.symbol == symbol
  }

  /**
   Inputs are available exactly when every input of an active synthetic is the symbol of an active instrument.
   */
  lemma InputsAvailableIff(instruments: seq<Definition>)
    requires DistinctSymbols(instruments)
    ensures InputsAvailable(Recipes(instruments), ActiveSymbols(instruments)) <==>
      forall d, t :: d in instruments && d.enabled && !d.archived && d.synthetic.Some? && t in d.synthetic.value ==>
        IsActive(instruments, t)
  {
    RecipesAre(instruments);
    var recipes, active := Recipes(instruments), ActiveSymbols(instruments);
    forall t ensures t in active <==> IsActive(instruments, t) {
    }
    hide ActiveSymbols, Recipes, IsActive;
    if InputsAvailable(recipes, active) {
      forall d, t | d in instruments && d.enabled && !d.archived && d.synthetic.Some? && t in d.synthetic.value
        ensures IsActive(instruments, t)
      {
        assert Prescribes(instruments, d.symbol, d.synthetic.value);
        assert (d.symbol, d.synthetic.value) in recipes.Items;
      }
    } else {
      var s, t :| s in recipes && t in recipes[s] && t !in active;
      assert (s, recipes[s]) in recipes.Items;
    }
  }

  /** The dependency graph has an edge for each input of an active synthetic. */
  lemma GraphOfRecipes(instruments: seq<Definition>, s: Symbol, t: Symbol)
    requires DistinctSymbols(instruments)
    ensures s in GraphOf(Recipes(instruments)) && t in GraphOf(Recipes(instruments))[s] <==>
      exists inputs :: Prescribes(instruments, s, inputs) && t in inputs
  {
    RecipesAre(instruments);
    var recipes := Recipes(instruments);
    if s in recipes {
      assert (s, recipes[s]) in recipes.Items;
    }
    if inputs :| Prescribes(instruments, s, inputs) && t in inputs {
      assert (s, inputs) in recipes.Items;
    }
  }

  /** The places of the customs. */
  function CustomPlaces(instruments: seq<Definition>): set<int> {
    set i | 0 <= i < |instruments| && instruments[i].ownership == Custom
  }

  lemma {:induction false} CustomCountIs(instruments: seq<Definition>)
    ensures CustomCount(instruments) == |CustomPlaces(instruments)|
    decreases |instruments|
  {
    if instruments == [] {
      assert CustomPlaces(instruments) == {};
    } else {
      var n := |instruments| - 1;
      CustomCountIs(instruments[..n]);
      assert CustomPlaces(instruments)
        == CustomPlaces(instruments[..n]) + if instruments[n].ownership == Custom then {n} else {};
    }
  }

  // ----- chains

  /** A chain of `n` synthetics starts at `s`. */
  predicate HasChain(g: Graph, s: Symbol, n: nat)
    decreases n
  {
    n == 0 || (s in g && (n == 1 || exists t :: t in g[s] && HasChain(g, t, n - 1)))
  }

  lemma {:induction false} ShorterChain(g: Graph, s: Symbol, n: nat, m: nat)
    requires HasChain(g, s, n) && m <= n
    ensures HasChain(g, s, m)
    decreases n
  {
    if 1 < m {
      var t :| t in g[s] && HasChain(g, t, n - 1);
      ShorterChain(g, t, n - 1, m - 1);
    }
  }

  lemma NoLongerChain(g: Graph, s: Symbol, n: nat, m: nat)
    requires !HasChain(g, s, n) && n <= m
    ensures !HasChain(g, s, m)
  {
    if HasChain(g, s, m) {
      ShorterChain(g, s, m, n);
    }
  }

  lemma {:induction false} ChainFromPath(g: Graph, path: seq<Symbol>)
    requires IsChain(g, path)
    ensures HasChain(g, path[0], |path|)
  {
    if |path| > 1 {
      assert path[1] in Successors(g, path[0]);
      assert IsChain(g, path[1..]);
      ChainFromPath(g, path[1..]);
      assert |path[1..]| == |path| - 1;
    }
  }

  lemma {:induction false} PathFromChain(g: Graph, s: Symbol, n: nat) returns (path: seq<Symbol>)
    requires HasChain(g, s, n) && n > 0
    ensures IsChain(g, path) && |path| == n && path[0] == s
    decreases n
  {
    if n == 1 {
      path := [s];
    } else {
      var t :| t in g[s] && HasChain(g, t, n - 1);
      var rest := PathFromChain(g, t, n - 1);
      path := [s] + rest;
      assert forall i :: 0 < i < |path| ==> path[i] == rest[i - 1];
    }
  }

  /** Around a cycle there are chains of every length. */
  lemma {:induction false} CycleChains(g: Graph, cycle: seq<Symbol>, i: nat, n: nat)
    requires IsPath(g, cycle) && |cycle| > 1 && cycle[0] == cycle[|cycle| - 1] && i < |cycle|
    ensures HasChain(g, cycle[i], n)
    decreases n
  {
    if n > 0 {
      var at := if i == |cycle| - 1 then 0 else i;
      assert cycle[at + 1] in Successors(g, cycle[at]);
      CycleChains(g, cycle, at + 1, n - 1);
    }
  }

  ghost predicate Deep(g: Graph, n: nat) {
    exists s :: HasChain(g, s, n)
  }

  /** A graph without cycles and with only short chains is one in which no chain exceeds the limit. */
  lemma ShallowIff(g: Graph, limit: nat)
    ensures Acyclic(g) && Shallow(g, limit) <==> !Deep(g, limit + 1)
  {
    if Deep(g, limit + 1) {
      var s :| HasChain(g, s, limit + 1);
      var path := PathFromChain(g, s, limit + 1);
    }
    if !Acyclic(g) {
      var path :| IsPath(g, path) && |path| > 1 && path[0] == path[|path| - 1];
      CycleChains(g, path, 0, limit + 1);
    }
    if !Shallow(g, limit) {
      var path :| IsChain(g, path) && |path| > limit;
      ChainFromPath(g, path);
      ShorterChain(g, path[0], |path|, limit + 1);
    }
  }

  /** Coming back to a symbol on the current path is a cycle. */
  lemma ReturnIsCycle(g: Graph, path: seq<Symbol>, symbol: Symbol)
    requires IsPath(g, path + [symbol]) && symbol in path
    ensures !Acyclic(g)
  {
    var i :| 0 <= i < |path| && path[i] == symbol;
    var cycle := (path + [symbol])[i..];
    assert forall k :: 0 <= k < |cycle| ==> cycle[k] == (path + [symbol])[i + k];
    assert IsPath(g, cycle) && |cycle| > 1 && cycle[0] == cycle[|cycle| - 1];
  }

  /** The same verdict from bounded chains alone. */
  predicate Admissible(instruments: seq<Definition>) {
    && instruments != []
    && DistinctIds(instruments)
    && Once(Names(instruments))
    && CustomCount(instruments) <= MAX_CUSTOM_INSTRUMENTS
    && InputsAvailable(Recipes(instruments), ActiveSymbols(instruments))
    && forall s :: s in Recipes(instruments) ==> !HasChain(GraphOf(Recipes(instruments)), s, MAX_SYNTHETIC_DEPTH + 1)
  }

  lemma AdmissibleIffValid(instruments: seq<Definition>)
    ensures Admissible(instruments) <==> ValidGeneration(instruments)
  {
    ShallowIff(GraphOf(Recipes(instruments)), MAX_SYNTHETIC_DEPTH);
    OnlyFromRecipes(Recipes(instruments), MAX_SYNTHETIC_DEPTH + 1);
    hide HasChain, Acyclic, Shallow, IsChain;
  }

  /** The field rules of one definition that relate several of its fields. */
  predicate ValidDefinition(d: Definition) {
    && (d.ownership == Builtin <==> d.id.BuiltinId?)
    && !(d.archived && d.enabled)
    && d.staleAfterSeconds >= d.quotePollSeconds
    && Once(d.aliases) && d.symbol !in d.aliases
    && ValidRoutes(d.routes)
    && (d.synthetic.Some? ==>
        1 <= |d.synthetic.value| <= 2 && Once(d.synthetic.value) && d.symbol !in d.synthetic.value)
  }

  predicate ValidRoutes(routes: seq<Route>) {
    && (forall i, j :: 0 <= i < j < |routes| ==> routes[i].capability != routes[j].capability)
    && (forall route :: route in routes ==> 1 <= |route.providers| <= 4 && Once(route.providers))
  }

  // ----- the depth search

  datatype Depth = Found(depth: nat) | Cycle | TooDeep

  /** The nested search of generation validation with its two memo tables. */
  class DepthSearch {
    const recipes: map<Symbol, seq<Symbol>>
    var visiting: set<Symbol>
    var depths: map<Symbol, nat>

    constructor (recipes: map<Symbol, seq<Symbol>>)
      ensures this.recipes == recipes && visiting == {} && depths == map[]
    {
      this.recipes, visiting, depths := recipes, {}, map[];
    }

    /** The remembered depths are the lengths of the longest chains. */
    ghost predicate Valid()
      reads this
    {
      forall s :: s in depths ==> depths[s] <= MAX_SYNTHETIC_DEPTH && IsDepth(GraphOf(recipes), s, depths[s])
    }

    /** The depth of a symbol is the length of its longest chain; failing means there is a cycle or a chain too long. */
    method Depth(symbol: Symbol, ghost path: seq<Symbol>) returns (r: Depth)
      requires Valid() && IsPath(GraphOf(recipes), path + [symbol])
      requires visiting == set s | s in path
      requires visiting <= recipes.Keys
      modifies this`visiting, this`depths
      ensures Valid()
      ensures r.Found? ==>
        visiting == old(visiting) && r.depth <= MAX_SYNTHETIC_DEPTH && IsDepth(GraphOf(recipes), symbol, r.depth)
      ensures r.Cycle? ==> !Acyclic(GraphOf(recipes))
      ensures r.TooDeep? ==> Deep(GraphOf(recipes), MAX_SYNTHETIC_DEPTH + 1)
      decreases recipes.Keys - visiting
    {
      ghost var g := GraphOf(recipes);
      if symbol in depths {
        return Found(depths[symbol]);
      }
      if symbol in visiting {
        ReturnIsCycle(g, path, symbol);
        return Cycle;
      }
      if symbol !in recipes {
        return Found(0);
      }
      ghost var outside := visiting;
      visiting := visiting + {symbol};
      var inputs := recipes[symbol];
      var deepest: nat := 0;
      for i := 0 to |inputs|
        invariant Valid() && visiting == outside + {symbol} && deepest <= MAX_SYNTHETIC_DEPTH
        invariant Longest(g, inputs[..i], deepest)
      {
        assert inputs[i] in Successors(g, symbol);
        ExtendPath(g, path, symbol, inputs[i]);
        var below := Depth(inputs[i], path + [symbol]);
        if !below.Found? {
          return below;
        }
        assert inputs[..i + 1] == inputs[..i] + [inputs[i]];
        LongestSnoc(g, inputs[..i], deepest, inputs[i], below.depth);
        deepest := if below.depth > deepest then below.depth else deepest;
      }
      assert inputs[..|inputs|] == inputs;
      visiting := visiting - {symbol};
      OneMore(recipes, symbol, deepest);
      if 1 + deepest > MAX_SYNTHETIC_DEPTH {
        return TooDeep;
      }
      depths := depths[symbol := 1 + deepest];
      r := Found(1 + deepest);
    }
  }

  /** `n` is the length of the longest chain that starts at `s`. */
  ghost predicate IsDepth(g: Graph, s: Symbol, n: nat) {
    HasChain(g, s, n) && !HasChain(g, s, n + 1)
  }

  /** `n` is the length of the longest chain that starts at one of the symbols. */
  ghost predicate Longest(g: Graph, symbols: seq<Symbol>, n: nat) {
    && (forall s :: s in symbols ==> !HasChain(g, s, n + 1))
    && (n > 0 ==> exists s :: s in symbols && HasChain(g, s, n))
  }

  lemma LongestSnoc(g: Graph, symbols: seq<Symbol>, n: nat, last: Symbol, m: nat)
    requires Longest(g, symbols, n) && IsDepth(g, last, m)
    ensures Longest(g, symbols + [last], if m > n then m else n)
  {
    var top := if m > n then m else n;
    forall s | s in symbols + [last] ensures !HasChain(g, s, top + 1) {
      if HasChain(g, s, top + 1) {
        if s in symbols {
          ShorterChain(g, s, top + 1, n + 1);
        }
        if s == last {
          ShorterChain(g, s, top + 1, m + 1);
        }
      }
    }
    if m > n {
      assert last in symbols + [last];
    } else if n > 0 {
      var s :| s in symbols && HasChain(g, s, n);
      assert s in symbols + [last];
    }
  }

  lemma OneMore(recipes: map<Symbol, seq<Symbol>>, symbol: Symbol, n: nat)
    requires symbol in recipes && Longest(GraphOf(recipes), recipes[symbol], n)
    ensures IsDepth(GraphOf(recipes), symbol, n + 1)
  {
    var g := GraphOf(recipes);
    if n > 0 {
      var t :| t in recipes[symbol] && HasChain(g, t, n);
      assert t in g[symbol];
    }
    forall t | t in g[symbol] ensures !HasChain(g, t, n + 1) {
      assert t in recipes[symbol];
    }
  }

  lemma ExtendPath(g: Graph, path: seq<Symbol>, a: Symbol, b: Symbol)
    requires IsPath(g, path + [a]) && b in Successors(g, a)
    ensures IsPath(g, path + [a] + [b])
  {
  }

  // ----- validation of a generation

  /** The checks of a generation in their order; none fails exactly when the generation is valid. */
  method ValidateGeneration(instruments: seq<Definition>) returns (fault: Option<CatalogFault>)
    ensures fault == None <==> ValidGeneration(instruments)
    ensures fault == Some(DependencyCycle) ==> !Acyclic(GraphOf(Recipes(instruments)))
    ensures fault == Some(DependencyDepth) ==> Deep(GraphOf(Recipes(instruments)), MAX_SYNTHETIC_DEPTH + 1)
  {
    if instruments == [] {
      return Some(EmptyCatalog);
    }
    fault := ValidateIdentities(instruments);
    if fault != None {
      return;
    }
    if CustomCount(instruments) > MAX_CUSTOM_INSTRUMENTS {
      return Some(TooManyCustom);
    }
    var recipes, active := Recipes(instruments), ActiveSymbols(instruments);
    if exists s, t :: s in recipes && t in recipes[s] && t !in active {
      return Some(UnavailableInput);
    }
    fault := ValidateDepth(recipes);
    ShallowIff(GraphOf(recipes), MAX_SYNTHETIC_DEPTH);
  }

  /** Searches every recipe; success means no chain exceeds the limit. */
  method ValidateDepth(recipes: map<Symbol, seq<Symbol>>) returns (fault: Option<CatalogFault>)
    ensures fault == None <==> !Deep(GraphOf(recipes), MAX_SYNTHETIC_DEPTH + 1)
    ensures fault == None || fault == Some(DependencyCycle) || fault == Some(DependencyDepth)
    ensures fault == Some(DependencyCycle) ==> !Acyclic(GraphOf(recipes))
  {
    ghost var g, tooLong := GraphOf(recipes), MAX_SYNTHETIC_DEPTH + 1;
    ShallowIff(g, MAX_SYNTHETIC_DEPTH);
    OnlyFromRecipes(recipes, tooLong);
    hide HasChain, GraphOf;
    var search := new DepthSearch(recipes);
    var pending := recipes.Keys;
    while pending != {}
      invariant search.Valid() && search.visiting == {} && search.recipes == recipes && pending <= recipes.Keys
        && fresh(search)
      invariant forall s :: s in recipes.Keys - pending ==> !HasChain(g, s, tooLong)
      decreases pending
    {
      var symbol :| symbol in pending;
      assert [] + [symbol] == [symbol];
      var r := search.Depth(symbol, []);
      if r.Cycle? {
        return Some(DependencyCycle);
      }
      if r.TooDeep? {
        return Some(DependencyDepth);
      }
      NoLongerChain(g, symbol, r.depth + 1, tooLong);
      pending := pending - {symbol};
    }
    fault := None;
  }

  lemma OnlyFromRecipes(recipes: map<Symbol, seq<Symbol>>, n: nat)
    requires n > 0
    ensures forall s :: HasChain(GraphOf(recipes), s, n) ==> s in recipes.Keys
  {
  }

  /** No identifier twice, and no name twice among all symbols and aliases. */
  method ValidateIdentities(instruments: seq<Definition>) returns (fault: Option<CatalogFault>)
    ensures fault == None <==> DistinctIds(instruments) && Once(Names(instruments))
    ensures fault == None || fault == Some(DuplicateIdentity) || fault == Some(DuplicateAlias)
  {
    var ids: set<Ident>, symbols: set<Symbol>, aliases: set<Symbol> := {}, {}, {};
    NoNames();
    hide NameSet, Once;
    for i := 0 to |instruments|
      invariant DistinctIds(instruments[..i]) && Once(Names(instruments[..i]))
      invariant ids == set d | d in instruments[..i] :: d.id
      invariant symbols + aliases == NameSet(Names(instruments[..i]))
    {
      var item := instruments[i];
      var before := instruments[..i];
      assert instruments[..i + 1] == before + [item] && instruments[..i + 1][..i] == before;
      if item.id in ids || item.symbol in symbols || item.symbol in aliases {
        RepeatedIdentity(instruments, i);
        return Some(DuplicateIdentity);
      }
      NameSetMore(Names(before), item.symbol);
      OnceMore(Names(before), item.symbol);
      ids := ids + {item.id};
      symbols := symbols + {item.symbol};
      ghost var names := Names(before) + [item.symbol];
      assert names + item.aliases[..0] == names;
      assert symbols + aliases == NameSet(names);
      for k := 0 to |item.aliases|
        invariant Once(names + item.aliases[..k])
        invariant symbols + aliases == NameSet(names + item.aliases[..k])
      {
        var alias := item.aliases[k];
        assert names + item.aliases[..k + 1] == names + item.aliases[..k] + [alias];
        if alias in aliases || alias in symbols {
          RepeatedName(names + item.aliases[..k], alias);
          NamesPrefix(instruments, i, k);
          return Some(DuplicateAlias);
        }
        NameSetMore(names + item.aliases[..k], alias);
        OnceMore(names + item.aliases[..k], alias);
        aliases := aliases + {alias};
      }
      assert item.aliases[..|item.aliases|] == item.aliases;
    }
    assert instruments[..|instruments|] == instruments;
    fault := None;
  }

  function NameSet(names: seq<Symbol>): (all: set<Symbol>)
    ensures forall name :: name in all <==> name in names
  {
    set name | name in names
  }

  lemma NoNames()
    ensures NameSet(Names([])) == {} && Once(Names([]))
  {
  }

  lemma NameSetMore(names: seq<Symbol>, name: Symbol)
    ensures NameSet(names + [name]) == NameSet(names) + {name}
  {
  }

  lemma OnceMore(names: seq<Symbol>, name: Symbol)
    requires Once(names) && name !in names
    ensures Once(names + [name])
  {
  }

  lemma RepeatedName(names: seq<Symbol>, name: Symbol)
    requires name in names
    ensures !Once(names + [name])
  {
    var i :| 0 <= i < |names| && names[i] == name;
    assert (names + [name])[i] == (names + [name])[|names|];
  }

  /** The names up to an alias are a prefix of all names. */
  lemma {:induction false} NamesGrow(instruments: seq<Definition>, i: nat)
    requires i <= |instruments|
    ensures Names(instruments[..i]) <= Names(instruments)
    decreases |instruments| - i
  {
    if i == |instruments| {
      assert instruments[..i] == instruments;
    } else {
      assert instruments[..i + 1][..i] == instruments[..i];
      NamesGrow(instruments, i + 1);
    }
  }

  lemma NamesPrefix(instruments: seq<Definition>, i: nat, k: nat)
    requires i < |instruments| && k < |instruments[i].aliases|
    requires !Once(Names(instruments[..i]) + [instruments[i].symbol] + instruments[i].aliases[..k]
                   + [instruments[i].aliases[k]])
    ensures !Once(Names(instruments))
  {
    var part := Names(instruments[..i]) + [instruments[i].symbol] + instruments[i].aliases[..k]
      + [instruments[i].aliases[k]];
    assert instruments[..i + 1][..i] == instruments[..i];
    assert part <= Names(instruments[..i + 1]);
    NamesGrow(instruments, i + 1);
    PrefixNotOnce(part, Names(instruments));
  }

  lemma RepeatedSymbol(instruments: seq<Definition>, i: nat)
    requires i < |instruments| && instruments[i].symbol in Names(instruments[..i])
    ensures !Once(Names(instruments))
  {
    hide Once;
    RepeatedName(Names(instruments[..i]), instruments[i].symbol);
    assert instruments[..i + 1][..i] == instruments[..i];
    NamesGrow(instruments, i + 1);
    var part := Names(instruments[..i]) + [instruments[i].symbol];
    assert part <= Names(instruments[..i + 1]);
    PrefixNotOnce(part, Names(instruments));
  }

  lemma RepeatedIdentity(instruments: seq<Definition>, i: nat)
    requires i < |instruments|
    requires instruments[i].id in (set d | d in instruments[..i] :: d.id)
      || instruments[i].symbol in Names(instruments[..i])
    ensures !DistinctIds(instruments) || !Once(Names(instruments))
  {
    hide Names, Once;
    if instruments[i].symbol in Names(instruments[..i]) {
      RepeatedSymbol(instruments, i);
    } else {
      var d :| d in instruments[..i] && d.id == instruments[i].id;
      var j :| 0 <= j < i && instruments[j] == d;
    }
  }

  lemma PrefixNotOnce(part: seq<Symbol>, all: seq<Symbol>)
    requires part <= all && !Once(part)
    ensures !Once(all)
  {
    var i, j :| 0 <= i < j < |part| && part[i] == part[j];
    assert all[i] == all[j];
  }
}
