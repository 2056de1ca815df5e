/**
 Dependency graphs over instrument symbols.

 The history cache, the managed catalog and the plugin registry all walk such graphs:
 an edge leads from a derived symbol to a symbol it is computed from.
 */
module SymbolGraph {
  datatype Symbol = Symbol(code: string)

  type Graph = map<Symbol, set<Symbol>>

  function Successors(g: Graph, s: Symbol): set<Symbol> {
    if s in g then g[s] else {}
  }

  ghost predicate IsPath(g: Graph, path: seq<Symbol>) {
    && path != []
    && forall i :: 0 <= i < |path| - 1 ==> path[i + 1] in Successors(g, path[i])
  }

  /** Zero or more edges lead from `a` to `b`. */
  ghost predicate Reaches(g: Graph, a: Symbol, b: Symbol) {
    exists path :: IsPath(g, path) && path[0] == a && path[|path| - 1] == b
  }

  /** No path with at least one edge returns to its start. */
  ghost predicate Acyclic(g: Graph) {
    forall path :: IsPath(g, path) && |path| > 1 ==> path[0] != path[|path| - 1]
  }

  ghost predicate SuccessorClosed(g: Graph, s: set<Symbol>) {
    forall x :: x in s ==> Successors(g, x) <= s
  }

  ghost predicate PredecessorClosed(g: Graph, s: set<Symbol>) {
    forall x, y :: y in s && y in Successors(g, x) ==> x in s
  }

  lemma ReachesSelf(g: Graph, a: Symbol)
    ensures Reaches(g, a, a)
  {
    assert IsPath(g, [a]);
  }

  lemma ReachesStep(g: Graph, a: Symbol, b: Symbol, c: Symbol)
    requires b in Successors(g, a) && Reaches(g, b, c)
    ensures Reaches(g, a, c)
  {
    var path :| IsPath(g, path) && path[0] == b && path[|path| - 1] == c;
    var longer := [a] + path;
    assert forall i :: 0 < i < |longer| ==> longer[i] == path[i - 1];
    assert IsPath(g, longer);
  }

  lemma ReachesThenEdge(g: Graph, a: Symbol, b: Symbol, c: Symbol)
    requires Reaches(g, a, b) && c in Successors(g, b)
    ensures Reaches(g, a, c)
  {
    var path :| IsPath(g, path) && path[0] == a && path[|path| - 1] == b;
    assert IsPath(g, path + [c]);
  }

  /** Reaching something else means taking a first edge. */
  lemma ReachesFirstEdge(g: Graph, a: Symbol, c: Symbol) returns (b: Symbol)
    requires Reaches(g, a, c) && a != c
    ensures b in Successors(g, a) && Reaches(g, b, c)
  {
    var path :| IsPath(g, path) && path[0] == a && path[|path| - 1] == c;
    b := path[1];
    assert IsPath(g, path[1..]);
  }

  lemma {:induction false} PathStaysForward(g: Graph, s: set<Symbol>, path: seq<Symbol>)
    requires SuccessorClosed(g, s) && IsPath(g, path) && path[0] in s
    ensures path[|path| - 1] in s
  {
    if |path| > 1 {
      assert path[1] in Successors(g, path[0]);
      assert IsPath(g, path[1..]);
      PathStaysForward(g, s, path[1..]);
    }
  }

  lemma ReachesStaysForward(g: Graph, s: set<Symbol>, a: Symbol, b: Symbol)
    requires SuccessorClosed(g, s) && a in s && Reaches(g, a, b)
    ensures b in s
  {
    var path :| IsPath(g, path) && path[0] == a && path[|path| - 1] == b;
    PathStaysForward(g, s, path);
  }

  lemma {:induction false} PathStaysBackward(g: Graph, s: set<Symbol>, path: seq<Symbol>)
    requires PredecessorClosed(g, s) && IsPath(g, path) && path[|path| - 1] in s
    ensures path[0] in s
    decreases |path|
  {
    if |path| > 1 {
      assert IsPath(g, path[1..]);
      PathStaysBackward(g, s, path[1..]);
      assert path[1] in Successors(g, path[0]);
    }
  }

  lemma ReachesStaysBackward(g: Graph, s: set<Symbol>, a: Symbol, b: Symbol)
    requires PredecessorClosed(g, s) && b in s && Reaches(g, a, b)
    ensures a in s
  {
    var path :| IsPath(g, path) && path[0] == a && path[|path| - 1] == b;
    PathStaysBackward(g, s, path);
  }

  /** A rank that every edge lowers; the certificate of acyclicity kept by the stores. */
  ghost predicate IsRank(g: Graph, rank: Symbol -> nat) {
    forall a, b :: b in Successors(g, a) ==> rank(b) < rank(a)
  }

  ghost predicate Ranked(g: Graph) {
    exists rank :: IsRank(g, rank)
  }

  lemma {:induction false} RankFallsAlongPath(g: Graph, rank: Symbol -> nat, path: seq<Symbol>)
    requires IsRank(g, rank) && IsPath(g, path)
    ensures rank(path[0]) >= rank(path[|path| - 1]) + |path| - 1
  {
    if |path| > 1 {
      assert path[1] in Successors(g, path[0]);
      assert IsPath(g, path[1..]);
      RankFallsAlongPath(g, rank, path[1..]);
    }
  }

  lemma RankedIsAcyclic(g: Graph)
    requires Ranked(g)
    ensures Acyclic(g)
  {
    var rank :| IsRank(g, rank);
    forall path | IsPath(g, path) && |path| > 1 ensures path[0] != path[|path| - 1] {
      RankFallsAlongPath(g, rank, path);
    }
  }

  lemma {:induction false} UpperBound(rank: Symbol -> nat, s: set<Symbol>) returns (bound: nat)
    ensures forall x :: x in s ==> rank(x) < bound
  {
    if s == {} {
      bound := 0;
    } else {
      var x :| x in s;
      var rest := UpperBound(rank, s - {x});
      bound := if rest <= rank(x) then rank(x) + 1 else rest;
    }
  }

  /**
   Giving `s` the inputs `inputs` keeps a graph ranked when none of them reaches `s`:
   everything that reaches `s` is lifted above all of the inputs.
   */
  lemma RankedAfterSetting(g: Graph, s: Symbol, inputs: set<Symbol>)
    requires Ranked(g)
    requires forall x :: x in inputs ==> !Reaches(g, x, s)
    ensures Ranked(g[s := inputs])
  {
    var rank :| IsRank(g, rank);
    var bound := UpperBound(rank, inputs);
    var h := g[s := inputs];
    ghost var lifted := x => if Reaches(g, x, s) then rank(x) + bound else rank(x);
    forall a, b | b in Successors(h, a) ensures lifted(b) < lifted(a) {
      if a == s {
        ReachesSelf(g, s);
      } else if Reaches(g, b, s) {
        ReachesStep(g, a, b, s);
      }
    }
    assert IsRank(h, lifted);
  }

  lemma RankedAfterRemoving(g: Graph, kept: Graph)
    requires Ranked(g)
    requires forall s :: s in kept ==> s in g && kept[s] == g[s]
    ensures Ranked(kept)
  {
    var rank :| IsRank(g, rank);
    assert IsRank(kept, rank);
  }
}
