/**
 The plugin registry: instruments and aliases by name, and the cycle search over synthetic recipes.
 */
module Registry {
  import opened Basics
  import opened SymbolGraph
  import opened Catalog

  datatype Instrument = Instrument(symbol: Symbol, aliases: seq<Symbol>)

  /** The two lookup tables a registry keeps. */
  datatype Tables = Tables(instruments: map<Symbol, Instrument>, aliases: map<Symbol, Symbol>)

  function AllNames(items: seq<Instrument>): seq<Symbol>
    decreases |items|
  {
    if items == [] then []
    else var last := items[|items| - 1]; AllNames(items[..|items| - 1]) + [last.symbol] + last.aliases
  }

  predicate Declares(item: Instrument, name: Symbol) {
    name == item.symbol || name in item.aliases
  }

  function Resolve(tables: Tables, name: Symbol): Option<Instrument> {
    var canonical := if name in tables.aliases then tables.aliases[name] else name;
    if canonical in tables.instruments then Some(tables.instruments[canonical]) else None
  }

  /** The tables hold exactly what the items declare. */
  ghost predicate Holds(tables: Tables, items: seq<Instrument>) {
    && tables.instruments.Keys !! tables.aliases.Keys
    && (forall s :: s in tables.instruments ==> tables.instruments[s].symbol == s && tables.instruments[s] in items)
    && (forall item :: item in items ==> item.symbol in tables.instruments && tables.instruments[item.symbol] == item)
    && (forall a :: a in tables.aliases ==>
        tables.aliases[a] in tables.instruments && a in tables.instruments[tables.aliases[a]].aliases)
    && (forall item, a :: item in items && a in item.aliases ==>
        a in tables.aliases && tables.aliases[a] == item.symbol)
  }

  /** A name resolves to the one instrument that declares it, and to nothing otherwise. */
  lemma ResolvesToDeclarer(tables: Tables, items: seq<Instrument>, name: Symbol)
    requires Holds(tables, items)
    ensures Resolve(tables, name) == None <==> forall item :: item in items ==> !Declares(item, name)
    ensures forall item :: item in items ==> (Resolve(tables, name) == Some(item) <==> Declares(item, name))
  {
  }

  function AliasesOf(item: Instrument, k: nat): map<Symbol, Symbol>
    requires k <= |item.aliases|
  {
    map a | a in item.aliases[..k] :: item.symbol
  }

  lemma HoldsMore(tables: Tables, items: seq<Instrument>, item: Instrument)
    requires Holds(tables, items)
    requires forall name :: Declares(item, name) ==> name !in tables.instruments && name !in tables.aliases
    requires item.symbol !in item.aliases
    ensures Holds(Tables(tables.instruments[item.symbol := item], tables.aliases + AliasesOf(item, |item.aliases|)),
                  items + [item])
  {
    assert item.aliases[..|item.aliases|] == item.aliases;
    var more := Tables(tables.instruments[item.symbol := item], tables.aliases + AliasesOf(item, |item.aliases|));
    forall other | other in items ensures other.symbol != item.symbol {
      assert other.symbol in tables.instruments;
    }
    forall other, a | other in items && a in other.aliases ensures a !in item.aliases {
      assert a in tables.aliases;
    }
  }

  lemma NoAliasYet(t: Tables, item: Instrument)
    ensures t.aliases == t.aliases + AliasesOf(item, 0)
  {
  }

  lemma AliasesMore(item: Instrument, k: nat)
    requires k < |item.aliases|
    ensures AliasesOf(item, k + 1) == AliasesOf(item, k)[item.aliases[k] := item.symbol]
  {
    assert item.aliases[..k + 1] == item.aliases[..k] + [item.aliases[k]];
  }

  lemma EnteredMore(before: map<Symbol, Symbol>, entered: map<Symbol, Symbol>, alias: Symbol, symbol: Symbol)
    ensures (before + entered)[alias := symbol] == before + entered[alias := symbol]
  {
  }

  /** Enters the aliases of one item, whose symbol is already entered. */
  method DeclareAliases(t: Tables, item: Instrument,
                        ghost names: seq<Symbol>) returns (aliases: Option<map<Symbol, Symbol>>)
    requires Once(names) && t.instruments.Keys + t.aliases.Keys + {item.symbol} == NameSet(names)
    ensures aliases == None <==> !Once(names + item.aliases)
    ensures aliases.Some? ==>
      && aliases.value == t.aliases + AliasesOf(item, |item.aliases|)
      && t.instruments.Keys + {item.symbol} + aliases.value.Keys == NameSet(names + item.aliases)
      && forall a :: a in item.aliases ==> a !in t.instruments && a !in t.aliases && a != item.symbol
  {
    hide Once, NameSet, AliasesOf;
    NoAliasYet(t, item);
    var entered := t.aliases;
    assert names + item.aliases[..0] == names;
    for k := 0 to |item.aliases|
      invariant Once(names + item.aliases[..k])
      invariant t.instruments.Keys + {item.symbol} + entered.Keys == NameSet(names + item.aliases[..k])
      invariant entered == t.aliases + AliasesOf(item, k)
      invariant forall a :: a in item.aliases[..k] ==> a !in t.instruments && a !in t.aliases && a != item.symbol
    {
      var alias := item.aliases[k];
      assert names + item.aliases[..k + 1] == names + item.aliases[..k] + [alias];
      assert item.aliases[..k + 1] == item.aliases[..k] + [alias];
      if alias in t.instruments || alias == item.symbol || alias in entered {
        RepeatedName(names + item.aliases[..k], alias);
        PrefixNotOnce(names + item.aliases[..k] + [alias], names + item.aliases);
        return None;
      }
      OnceMore(names + item.aliases[..k], alias);
      NameSetMore(names + item.aliases[..k], alias);
      AliasesMore(item, k);
      EnteredMore(t.aliases, AliasesOf(item, k), alias, item.symbol);
      entered := entered[alias := item.symbol];
    }
    assert item.aliases[..|item.aliases|] == item.aliases;
    aliases := Some(entered);
  }

  /** Construction fails exactly when some name is declared twice. */
  method Build(items: seq<Instrument>) returns (tables: Option<Tables>)
    ensures tables == None <==> !Once(AllNames(items))
    ensures tables.Some? ==> Holds(tables.value, items)
  {
    hide Holds, Once, NameSet;
    var t := Tables(map[], map[]);
    EmptyHolds();
    for i := 0 to |items|
      invariant Once(AllNames(items[..i])) && Holds(t, items[..i])
      invariant t.instruments.Keys + t.aliases.Keys == NameSet(AllNames(items[..i]))
    {
      var item, before := items[i], items[..i];
      assert items[..i + 1] == before + [item] && items[..i + 1][..i] == before;
      if item.symbol in t.instruments || item.symbol in t.aliases {
        RepeatedName(AllNames(before), item.symbol);
        AllNamesPrefix(items, i, AllNames(before) + [item.symbol]);
        return None;
      }
      OnceMore(AllNames(before), item.symbol);
      NameSetMore(AllNames(before), item.symbol);
      var aliases := DeclareAliases(t, item, AllNames(before) + [item.symbol]);
      if aliases == None {
        AllNamesPrefix(items, i, AllNames(items[..i + 1]));
        return None;
      }
      HoldsMore(t, before, item);
      t := Tables(t.instruments[item.symbol := item], aliases.value);
    }
    assert items[..|items|] == items;
    tables := Some(t);
  }

  lemma EmptyHolds()
    ensures Holds(Tables(map[], map[]), []) && Once(AllNames([])) && NameSet(AllNames([])) == {}
  {
  }

  lemma {:induction false} AllNamesGrow(items: seq<Instrument>, i: nat)
    requires i <= |items|
    ensures AllNames(items[..i]) <= AllNames(items)
    decreases |items| - i
  {
    if i == |items| {
      assert items[..i] == items;
    } else {
      assert items[..i + 1][..i] == items[..i];
      AllNamesGrow(items, i + 1);
    }
  }

  /** A repetition among the names read so far is one among all names. */
  lemma AllNamesPrefix(items: seq<Instrument>, i: nat, part: seq<Symbol>)
    requires i < |items| && part <= AllNames(items[..i + 1]) && !Once(part)
    ensures !Once(AllNames(items))
  {
    AllNamesGrow(items, i + 1);
    PrefixNotOnce(part, AllNames(items));
  }

  // ----- the cycle search

  /** Settled symbols only depend on symbols settled before them. */
  ghost predicate Settled(outputs: map<Symbol, seq<Symbol>>, visited: set<Symbol>, number: map<Symbol, nat>) {
    && number.Keys == visited <= outputs.Keys
    && (forall s :: s in visited ==> number[s] < |visited|)
    && (forall s, t :: s in visited && t in outputs[s] && t in outputs ==> t in visited && number[t] < number[s])
  }

  lemma SettleOne(outputs: map<Symbol, seq<Symbol>>, visited: set<Symbol>, number: map<Symbol, nat>, symbol: Symbol)
    requires Settled(outputs, visited, number) && symbol in outputs && symbol !in visited
    requires forall k :: 0 <= k < |outputs[symbol]| && outputs[symbol][k] in outputs ==> outputs[symbol][k] in visited
    ensures Settled(outputs, visited + {symbol}, number[symbol := |visited|])
  {
    assert |visited + {symbol}| == |visited| + 1;
  }

  lemma ExtendPathToInput(outputs: map<Symbol, seq<Symbol>>, path: seq<Symbol>, symbol: Symbol, i: nat)
    requires symbol in outputs && i < |outputs[symbol]| && IsPath(GraphOf(outputs), path + [symbol])
    ensures IsPath(GraphOf(outputs), path + [symbol] + [outputs[symbol][i]])
  {
    assert outputs[symbol][i] in Successors(GraphOf(outputs), symbol);
    ExtendPath(GraphOf(outputs), path, symbol, outputs[symbol][i]);
  }

  /** The nested search of recipe validation: `visiting` is the current path, `visited` is settled. */
  class CycleSearch {
    const outputs: map<Symbol, seq<Symbol>>
    var visiting: set<Symbol>
    var visited: set<Symbol>
    /** Settled symbols are numbered in the order they were settled. */
    ghost var number: map<Symbol, nat>

    constructor (outputs: map<Symbol, seq<Symbol>>)
      ensures this.outputs == outputs && visiting == {} && visited == {} && Valid()
    {
      this.outputs, visiting, visited, number := outputs, {}, {}, map[];
    }

    ghost predicate Valid()
      reads this
    {
      Settled(outputs, visited, number)
    }

    /** Settles a symbol and everything below it, or finds a cycle. */
    method Visit(symbol: Symbol, ghost path: seq<Symbol>) returns (cyclic: bool)
      requires Valid() && IsPath(GraphOf(outputs), path + [symbol])
      requires visiting == (set s | s in path) && visiting <= outputs.Keys && visiting !! visited
      modifies this
      ensures cyclic ==> !Acyclic(GraphOf(outputs))
      ensures !cyclic ==> Valid() && visiting == old(visiting) && visiting !! visited && old(visited) <= visited
      ensures !cyclic && symbol in outputs ==> symbol in visited
      decreases outputs.Keys - visiting
    {
      hide Settled, IsPath, GraphOf, Acyclic;
      if symbol in visited || symbol !in outputs {
        return false;
      }
      if symbol in visiting {
        ReturnIsCycle(GraphOf(outputs), path, symbol);
        return true;
      }
      ghost var outside := visiting;
      visiting := visiting + {symbol};
      var inputs := outputs[symbol];
      for i := 0 to |inputs|
        invariant Valid() && visiting == outside + {symbol} && visiting !! visited && old(visited) <= visited
        invariant forall k :: 0 <= k < i && inputs[k] in outputs ==> inputs[k] in visited
      {
        ExtendPathToInput(outputs, path, symbol, i);
        cyclic := Visit(inputs[i], path + [symbol]);
        if cyclic {
          return;
        }
      }
      visiting := visiting - {symbol};
      SettleOne(outputs, visited, number, symbol);
      number := number[symbol := |visited|];
      visited := visited + {symbol};
      assert visiting == outside;
      cyclic := false;
    }
  }

  /** Validation rejects the recipes exactly when they depend on each other in a cycle. */
  method HasCycle(outputs: map<Symbol, seq<Symbol>>) returns (cyclic: bool)
    ensures cyclic <==> !Acyclic(GraphOf(outputs))
  {
    var search := new CycleSearch(outputs);
    var pending := outputs.Keys;
    while pending != {}
      invariant search.Valid() && search.visiting == {} && search.outputs == outputs && fresh(search)
      invariant outputs.Keys - pending <= search.visited && pending <= outputs.Keys
      decreases pending
    {
      var symbol :| symbol in pending;
      assert [] + [symbol] == [symbol];
      cyclic := search.Visit(symbol, []);
      if cyclic {
        return;
      }
      pending := pending - {symbol};
    }
    NumberedIsAcyclic(outputs, search.number);
    cyclic := false;
  }

  /** Numbers that fall along every dependency rule out cycles. */
  lemma NumberedIsAcyclic(outputs: map<Symbol, seq<Symbol>>, number: map<Symbol, nat>)
    requires number.Keys == outputs.Keys
    requires forall s, t :: s in outputs && t in outputs[s] && t in outputs ==> number[t] < number[s]
    ensures Acyclic(GraphOf(outputs))
  {
    ghost var rank: Symbol -> nat := s => if s in number then number[s] + 1 else 0;
    assert IsRank(GraphOf(outputs), rank);
    RankedIsAcyclic(GraphOf(outputs));
  }
}
