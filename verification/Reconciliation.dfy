/**
 Handing a running collector over to a new provider graph without reopening unaffected streams,
 and taking the handover back. Provider instances are identities.
 */
module Reconciliation {
  import opened Basics
  import opened SymbolGraph

  type Instance = nat

  datatype RouteKey = RouteKey(symbol: Symbol, capability: Capability)

  type Routes = map<RouteKey, seq<Instance>>

  /** A provider name that lives in both graphs, with its old and its candidate adapter. */
  datatype Transfer = Transfer(name: Name, previous: Instance, replacement: Instance)

  // ----- substituting instances

  function Substitute(chain: seq<Instance>, old_: Instance, new_: Instance): (result: seq<Instance>)
    ensures |result| == |chain|
    ensures forall i :: 0 <= i < |chain| ==> result[i] == if chain[i] == old_ then new_ else chain[i]
  {
    if chain == [] then [] else [if chain[0] == old_ then new_ else chain[0]] + Substitute(chain[1..], old_, new_)
  }

  /** One substitution is undone by its reverse exactly when it did not merge two instances. */
  lemma SubstitutionUndoneIff(chain: seq<Instance>, a: Instance, b: Instance)
    requires a in chain
    ensures Substitute(Substitute(chain, a, b), b, a) == chain <==> b !in chain || a == b
  {
    var there := Substitute(chain, a, b);
    var back := Substitute(there, b, a);
    if b in chain && a != b {
      var i :| 0 <= i < |chain| && chain[i] == b;
      assert back[i] == a;
    } else {
      forall i | 0 <= i < |chain| ensures back[i] == chain[i] {
        assert there[i] == if chain[i] == a then b else chain[i];
      }
    }
  }

  function From(transfer: Transfer, usePrevious: bool): Instance {
    if usePrevious then transfer.replacement else transfer.previous
  }

  function To(transfer: Transfer, usePrevious: bool): Instance {
    if usePrevious then transfer.previous else transfer.replacement
  }

  /** Where one instance ends up after the transfers have been applied in turn. */
  function Moved(x: Instance, transfers: seq<Transfer>, usePrevious: bool): Instance
    decreases |transfers|
  {
    if transfers == [] then x
    else Moved(if x == From(transfers[0], usePrevious) then To(transfers[0], usePrevious)
               else x, transfers[1..], usePrevious)
  }

  function MovedChain(chain: seq<Instance>, transfers: seq<Transfer>, usePrevious: bool): (result: seq<Instance>)
    ensures |result| == |chain|
    ensures forall i :: 0 <= i < |chain| ==> result[i] == Moved(chain[i], transfers, usePrevious)
  {
    if chain == [] then []
    else [Moved(chain[0], transfers, usePrevious)] + MovedChain(chain[1..], transfers, usePrevious)
  }

  function MovedRoutes(routes: Routes, transfers: seq<Transfer>, usePrevious: bool): Routes {
    map key | key in routes :: MovedChain(routes[key], transfers, usePrevious)
  }

  function MovedProviders(providers: map<Name, Instance>, transfers: seq<Transfer>, usePrevious: bool): map<Name,
                          Instance>
    decreases |transfers|
  {
    if transfers == [] then providers
    else MovedProviders(providers[transfers[0].name := To(transfers[0], usePrevious)], transfers[1..], usePrevious)
  }

  /** Old and candidate adapters are distinct objects, each under one name. */
  ghost predicate Separate(transfers: seq<Transfer>) {
    && (forall i, j :: 0 <= i < j < |transfers| ==> transfers[i].name != transfers[j].name)
    && (forall i, j :: 0 <= i < j < |transfers| ==> transfers[i].previous != transfers[j].previous)
    && (forall i, j :: 0 <= i < j < |transfers| ==> transfers[i].replacement != transfers[j].replacement)
    && (forall i, j :: 0 <= i < |transfers| && 0 <= j < |transfers| ==>
        transfers[i].previous != transfers[j].replacement)
  }

  lemma SeparateTail(transfers: seq<Transfer>)
    requires Separate(transfers) && transfers != []
    ensures Separate(transfers[1..])
  {
  }

  ghost predicate IsPrevious(x: Instance, transfers: seq<Transfer>) {
    exists i :: 0 <= i < |transfers| && transfers[i].previous == x
  }

  ghost predicate IsReplacement(x: Instance, transfers: seq<Transfer>) {
    exists i :: 0 <= i < |transfers| && transfers[i].replacement == x
  }

  lemma {:induction false} NotMoved(x: Instance, transfers: seq<Transfer>, usePrevious: bool)
    requires forall i :: 0 <= i < |transfers| ==> From(transfers[i], usePrevious) != x
    ensures Moved(x, transfers, usePrevious) == x
  {
    if transfers != [] {
      NotMoved(x, transfers[1..], usePrevious);
    }
  }

  /** A moved instance is its own or the previous adapter of one of the transfers. */
  lemma {:induction false} MovedTo(x: Instance, transfers: seq<Transfer>)
    requires Separate(transfers)
    ensures var y := Moved(x, transfers, true);
            (y == x && !IsReplacement(x, transfers)) || (IsReplacement(x, transfers) && IsPrevious(y, transfers))
  {
    if transfers != [] {
      SeparateTail(transfers);
      if x == transfers[0].replacement {
        NotMoved(transfers[0].previous, transfers[1..], true);
        assert transfers[0].previous == Moved(x, transfers, true);
      } else {
        MovedTo(x, transfers[1..]);
        TailFacts(x, transfers);
        TailFacts(Moved(x, transfers[1..], true), transfers);
      }
    }
  }

  lemma TailFacts(x: Instance, transfers: seq<Transfer>)
    requires transfers != []
    ensures IsReplacement(x, transfers) <==> transfers[0].replacement == x || IsReplacement(x, transfers[1..])
    ensures IsPrevious(x, transfers) <==> transfers[0].previous == x || IsPrevious(x, transfers[1..])
  {
    if IsReplacement(x, transfers) {
      var i :| 0 <= i < |transfers| && transfers[i].replacement == x;
      if i > 0 { assert transfers[1..][i - 1].replacement == x; }
    }
    if IsReplacement(x, transfers[1..]) {
      var i :| 0 <= i < |transfers[1..]| && transfers[1..][i].replacement == x;
      assert transfers[i + 1].replacement == x;
    }
    if IsPrevious(x, transfers) {
      var i :| 0 <= i < |transfers| && transfers[i].previous == x;
      if i > 0 { assert transfers[1..][i - 1].previous == x; }
    }
    if IsPrevious(x, transfers[1..]) {
      var i :| 0 <= i < |transfers[1..]| && transfers[1..][i].previous == x;
      assert transfers[i + 1].previous == x;
    }
  }

  /** The candidate's own instances survive the round trip through the old adapters. */
  lemma {:induction false} MovedThereAndBack(x: Instance, transfers: seq<Transfer>)
    requires Separate(transfers) && !IsPrevious(x, transfers)
    ensures Moved(Moved(x, transfers, true), transfers, false) == x
  {
    if transfers != [] {
      var head, rest := transfers[0], transfers[1..];
      SeparateTail(transfers);
      TailFacts(x, transfers);
      if x == head.replacement {
        NotMoved(head.previous, rest, true);
        NotMoved(head.replacement, rest, false);
      } else {
        MovedTo(x, rest);
        var y := Moved(x, rest, true);
        if IsPrevious(y, rest) {
          var i :| 0 <= i < |rest| && rest[i].previous == y;
          assert transfers[i + 1].previous == y;
        }
        assert y != head.previous;
        MovedThereAndBack(x, rest);
      }
    }
  }

  lemma RoutesThereAndBack(routes: Routes, transfers: seq<Transfer>)
    requires Separate(transfers)
    requires forall key, x :: key in routes && x in routes[key] ==> !IsPrevious(x, transfers)
    ensures MovedRoutes(MovedRoutes(routes, transfers, true), transfers, false) == routes
  {
    hide Separate, IsPrevious, Moved, MovedChain;
    var there := MovedRoutes(routes, transfers, true);
    var back := MovedRoutes(there, transfers, false);
    forall key | key in routes ensures back[key] == routes[key] {
      forall i | 0 <= i < |routes[key]| ensures back[key][i] == routes[key][i] {
        assert routes[key][i] in routes[key];
        MovedThereAndBack(routes[key][i], transfers);
      }
    }
  }

  lemma {:induction false} ProvidersAt(providers: map<Name, Instance>, transfers: seq<Transfer>, usePrevious: bool,
                                       name: Name)
    requires forall i, j :: 0 <= i < j < |transfers| ==> transfers[i].name != transfers[j].name
    decreases |transfers|
    ensures var moved := MovedProviders(providers, transfers, usePrevious);
            && (forall i :: 0 <= i < |transfers| && transfers[i].name == name ==>
                name in moved && moved[name] == To(transfers[i], usePrevious))
            && ((forall i :: 0 <= i < |transfers| ==> transfers[i].name != name) ==>
                 (name in moved <==> name in providers) && (name in moved ==> moved[name] == providers[name]))
  {
    if transfers != [] {
      ProvidersAt(providers[transfers[0].name := To(transfers[0], usePrevious)], transfers[1..], usePrevious, name);
    }
  }

  /** Every transfer was read off the candidate's own table. */
  ghost predicate ReadOff(providers: map<Name, Instance>, transfers: seq<Transfer>) {
    forall i :: 0 <= i < |transfers| ==>
      transfers[i].name in providers && providers[transfers[i].name] == transfers[i].replacement
  }

  lemma ProvidersThereAndBack(providers: map<Name, Instance>, transfers: seq<Transfer>)
    requires Separate(transfers) && ReadOff(providers, transfers)
    ensures MovedProviders(MovedProviders(providers, transfers, true), transfers, false) == providers
  {
    hide MovedProviders;
    var there := MovedProviders(providers, transfers, true);
    var back := MovedProviders(there, transfers, false);
    forall name ensures (name in back <==> name in providers) && (name in back ==> back[name] == providers[name]) {
      ProvidersAt(providers, transfers, true, name);
      ProvidersAt(there, transfers, false, name);
      if i :| 0 <= i < |transfers| && transfers[i].name == name {
        assert back[name] == transfers[i].replacement;
      }
    }
  }

  // ----- provider graphs

  class ProviderGraph {
    var providers: map<Name, Instance>
    var routes: Routes
    /** Adapters that hold on to this graph's router and cannot outlive it. */
    const routerBound: set<Instance>

    constructor (providers: map<Name, Instance>, routes: Routes, routerBound: set<Instance>)
      ensures this.providers == providers && this.routes == routes && this.routerBound == routerBound
    {
      this.providers, this.routes, this.routerBound := providers, routes, routerBound;
    }

    method ReplaceProviderInstance(transfer: Transfer, usePrevious: bool)
      modifies this`routes
      ensures routes == MovedRoutes(old(routes), [transfer], usePrevious)
    {
      var a, b := From(transfer, usePrevious), To(transfer, usePrevious);
      var pending := routes.Keys;
      ghost var all := pending;
      while pending != {}
        invariant pending <= all && routes.Keys == all == old(routes).Keys
        invariant forall key :: key in pending ==> routes[key] == old(routes)[key]
        invariant forall key :: key in all - pending ==> routes[key] == Substitute(old(routes)[key], a, b)
        decreases pending
      {
        var key :| key in pending;
        if a in routes[key] {
          routes := routes[key := Substitute(routes[key], a, b)];
        } else {
          NothingToSubstitute(routes[key], a, b);
        }
        pending := pending - {key};
      }
      OneTransfer(old(routes), transfer, usePrevious);
    }

    /** Closes every routed provider once, except the excluded ones; unrouted providers are not reached. */
    method Close(exclude: set<Instance>) returns (closed: seq<Instance>)
      ensures forall i, j :: 0 <= i < j < |closed| ==> closed[i] != closed[j]
      ensures forall x :: x in closed <==> Routed(routes, x) && x !in exclude
    {
      closed := [];
      var seen: set<Instance> := {};
      var pending := routes.Keys;
      while pending != {}
        invariant pending <= routes.Keys
        invariant forall i, j :: 0 <= i < j < |closed| ==> closed[i] != closed[j]
        invariant forall x :: x in closed <==> x in seen && x !in exclude
        invariant forall key, x :: key in routes.Keys - pending && x in routes[key] ==> x in seen
        invariant forall x :: x in seen ==> Routed(routes, x)
        decreases pending
      {
        var key :| key in pending;
        for i := 0 to |routes[key]|
          invariant forall i, j :: 0 <= i < j < |closed| ==> closed[i] != closed[j]
          invariant forall x :: x in closed <==> x in seen && x !in exclude
          invariant forall other, x :: other in routes.Keys - pending && x in routes[other] ==> x in seen
          invariant forall x :: x in routes[key][..i] ==> x in seen
          invariant forall x :: x in seen ==> Routed(routes, x)
        {
          var provider := routes[key][i];
          assert routes[key][..i + 1] == routes[key][..i] + [provider];
          assert provider in routes[key];
          if provider !in seen {
            seen := seen + {provider};
            if provider !in exclude {
              closed := closed + [provider];
            }
          }
        }
        assert routes[key][..|routes[key]|] == routes[key];
        pending := pending - {key};
      }
    }
  }

  predicate Routed(routes: Routes, x: Instance) {
    exists key :: key in routes && x in routes[key]
  }

  lemma {:induction false} NothingToSubstitute(chain: seq<Instance>, a: Instance, b: Instance)
    requires a !in chain
    ensures Substitute(chain, a, b) == chain
  {
  }

  lemma OneMove(x: Instance, transfer: Transfer, usePrevious: bool)
    ensures Moved(x, [transfer], usePrevious) == if x == From(transfer, usePrevious) then To(transfer, usePrevious)
      else x
  {
    assert [transfer][1..] == [];
  }

  lemma OneTransfer(routes: Routes, transfer: Transfer, usePrevious: bool)
    ensures MovedRoutes(routes, [transfer], usePrevious)
         == map key | key in routes :: Substitute(routes[key], From(transfer, usePrevious), To(transfer, usePrevious))
  {
    hide MovedChain, Substitute;
    forall key | key in routes
      ensures MovedChain(routes[key], [transfer], usePrevious)
           == Substitute(routes[key], From(transfer, usePrevious), To(transfer, usePrevious))
    {
      forall i | 0 <= i < |routes[key]|
        ensures Moved(routes[key][i], [transfer], usePrevious)
             == if routes[key][i] == From(transfer, usePrevious) then To(transfer, usePrevious) else routes[key][i]
      {
        OneMove(routes[key][i], transfer, usePrevious);
      }
    }
  }

  lemma {:induction false} MovedSnoc(x: Instance, transfers: seq<Transfer>, last: Transfer, usePrevious: bool)
    ensures Moved(x, transfers + [last], usePrevious) == Moved(Moved(x, transfers, usePrevious), [last], usePrevious)
    decreases |transfers|
  {
    if transfers == [] {
      assert transfers + [last] == [last];
    } else {
      assert (transfers + [last])[1..] == transfers[1..] + [last];
      MovedSnoc(if x == From(transfers[0], usePrevious) then To(transfers[0], usePrevious) else x, transfers[1..],
                last, usePrevious);
    }
  }

  lemma RoutesSnoc(routes: Routes, transfers: seq<Transfer>, last: Transfer, usePrevious: bool)
    ensures MovedRoutes(MovedRoutes(routes, transfers, usePrevious), [last], usePrevious)
         == MovedRoutes(routes, transfers + [last], usePrevious)
  {
    hide Moved, MovedChain;
    forall key | key in routes
      ensures MovedChain(MovedChain(routes[key], transfers, usePrevious), [last], usePrevious)
           == MovedChain(routes[key], transfers + [last], usePrevious)
    {
      forall i | 0 <= i < |routes[key]|
        ensures Moved(Moved(routes[key][i], transfers, usePrevious), [last], usePrevious)
          == Moved(routes[key][i], transfers + [last], usePrevious)
      {
        MovedSnoc(routes[key][i], transfers, last, usePrevious);
      }
    }
  }

  lemma {:induction false} ProvidersSnoc(providers: map<Name, Instance>, transfers: seq<Transfer>, last: Transfer,
                                         usePrevious: bool)
    ensures MovedProviders(providers, transfers + [last], usePrevious)
         == MovedProviders(providers, transfers, usePrevious)[last.name := To(last, usePrevious)]
    decreases |transfers|
  {
    if transfers == [] {
      assert transfers + [last] == [last];
      assert [last][1..] == [];
    } else {
      assert (transfers + [last])[1..] == transfers[1..] + [last];
      ProvidersSnoc(providers[transfers[0].name := To(transfers[0], usePrevious)], transfers[1..], last, usePrevious);
    }
  }

  lemma NoTransfers(routes: Routes, usePrevious: bool)
    ensures MovedRoutes(routes, [], usePrevious) == routes
  {
    hide MovedChain;
    forall key | key in routes ensures MovedChain(routes[key], [], usePrevious) == routes[key] {
    }
  }

  /** Puts the old adapters into a candidate graph, or its own adapters back. */
  method ReplaceTransferredProviders(graph: ProviderGraph, transfers: seq<Transfer>, usePrevious: bool)
    modifies graph`routes, graph`providers
    ensures graph.routes == MovedRoutes(old(graph.routes), transfers, usePrevious)
    ensures graph.providers == MovedProviders(old(graph.providers), transfers, usePrevious)
  {
    hide MovedRoutes, MovedProviders;
    NoTransfers(graph.routes, usePrevious);
    NoProviders(graph.providers, usePrevious);
    for i := 0 to |transfers|
      invariant graph.routes == MovedRoutes(old(graph.routes), transfers[..i], usePrevious)
      invariant graph.providers == MovedProviders(old(graph.providers), transfers[..i], usePrevious)
    {
      assert transfers[..i + 1] == transfers[..i] + [transfers[i]];
      graph.ReplaceProviderInstance(transfers[i], usePrevious);
      RoutesSnoc(old(graph.routes), transfers[..i], transfers[i], usePrevious);
      ProvidersSnoc(old(graph.providers), transfers[..i], transfers[i], usePrevious);
      graph.providers := graph.providers[transfers[i].name := To(transfers[i], usePrevious)];
    }
    assert transfers[..|transfers|] == transfers;
  }

  lemma NoProviders(providers: map<Name, Instance>, usePrevious: bool)
    ensures MovedProviders(providers, [], usePrevious) == providers
  {
  }
}
