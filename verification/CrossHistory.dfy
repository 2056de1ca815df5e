/**
 The two ways the repository evaluates a multiply/divide recipe: the forward join that
 materialises a whole derived history, and the lazy backward scan that finds one reference.
 */
module CrossHistory {
  import opened Basics
  import opened SymbolGraph
  import opened PriceBars
  import opened HistoryModel

  /** Once the points at or before `t` are exactly the first `n`, the latest of them is the `n`-th. */
  lemma {:induction false} LatestOfSorted(points: seq<PricePoint>, n: nat, t: int)
    requires NonDecreasing(points) && n <= |points|
    requires forall j :: 0 <= j < n ==> points[j].timestamp <= t
    requires forall j :: n <= j < |points| ==> points[j].timestamp > t
    ensures Latest(ByTime(points), t) == if n == 0 then None else Some(points[n - 1])
    decreases |points|
  {
    if points == [] {
    } else if n < |points| {
      var front, last := points[..|points| - 1], points[|points| - 1];
      LatestOfSorted(front, n, t);
      assert Upto(ByTime(points), t) == Upto(ByTime(front), t);
    } else {
      var last := points[n - 1];
      ByTimeContents(points);
      assert ByTime(points)[last.timestamp] == last;
      forall u | u in ByTime(points) ensures u <= last.timestamp {
        var p := ByTime(points)[u];
        var i :| 0 <= i < |points| && points[i] == p;
      }
      LatestIs(ByTime(points), t, last.timestamp);
    }
  }

  // ----- what a derived point is

  /** `p` has the price the operation makes of both points, and stands at the time of `left`. */
  predicate IsDerived(compute: Arithmetic, symbol: Symbol, provider: string, interval: Interval, operation: Operation,
                      left: PricePoint, right: PricePoint, p: PricePoint)
  {
    && compute(operation, left.price, right.price) == Some(p.price) && p.price > 0.0
    && p == PricePoint(symbol, left.timestamp, p.price, provider, true, interval)
  }

  /** `p` is derived from `left` and the last right point at or before it, which is not too old. */
  ghost predicate Pairs(compute: Arithmetic, symbol: Symbol, provider: string, interval: Interval, operation: Operation,
                        maxSkew: int, left: PricePoint, right: seq<PricePoint>, p: PricePoint)
  {
    exists r ::
      && IsLastAt(right, r, left.timestamp) && left.timestamp - right[r].timestamp <= maxSkew
      && IsDerived(compute, symbol, provider, interval, operation, left, right[r], p)
  }

  /** `p` has the reciprocal price of `left`, and stands at its time. */
  predicate IsInverted(compute: Arithmetic, symbol: Symbol, provider: string, interval: Interval, left: PricePoint,
                       p: PricePoint)
  {
    && compute(Divide, 1.0, left.price) == Some(p.price) && p.price > 0.0
    && p == PricePoint(symbol, left.timestamp, p.price, provider, true, interval)
  }

  ghost predicate Yields(compute: Arithmetic, symbol: Symbol, recipe: Recipe, interval: Interval, left: PricePoint,
                         right: seq<PricePoint>, p: PricePoint)
  {
    if recipe.operation.Inverse? then IsInverted(compute, symbol, recipe.provider, interval, left, p)
    else Pairs(compute, symbol, recipe.provider, interval, recipe.operation, recipe.maxSkew, left, right, p)
  }

  lemma YieldsIff(compute: Arithmetic, symbol: Symbol, recipe: Recipe, interval: Interval, left: PricePoint,
                  right: seq<PricePoint>, p: PricePoint)
    ensures DerivedPoint(compute, symbol, recipe, interval, left, ByTime(right)) == Some(p)
      <==> Yields(compute, symbol, recipe, interval, left, right, p)
  {
    hide Latest, ByTime;
    LatestOfPoints(right, left.timestamp);
    if DerivedPoint(compute, symbol, recipe, interval, left, ByTime(right)) == Some(p) && !recipe.operation.Inverse? {
      var r :| IsLastAt(right, r, left.timestamp);
      assert IsDerived(compute, symbol, recipe.provider, interval, recipe.operation, left, right[r], p);
    }
  }

  /** The output dictionary of the forward join: a later point with the same timestamp overwrites. */
  function JoinedSoFar(compute: Arithmetic, symbol: Symbol, recipe: Recipe, interval: Interval,
                       left: seq<PricePoint>, right: Bars): Bars
  {
    if left == [] then map[]
    else
      var earlier := JoinedSoFar(compute, symbol, recipe, interval, left[..|left| - 1], right);
      var point := DerivedPoint(compute, symbol, recipe, interval, left[|left| - 1], right);
      if point.Some? then earlier[point.value.timestamp := point.value] else earlier
  }

  lemma {:induction false} JoinedSoFarIsKeyed(compute: Arithmetic, symbol: Symbol, recipe: Recipe, interval: Interval,
                                              left: seq<PricePoint>, right: Bars)
    ensures KeyedByTime(JoinedSoFar(compute, symbol, recipe, interval, left, right))
  {
    if left != [] {
      JoinedSoFarIsKeyed(compute, symbol, recipe, interval, left[..|left| - 1], right);
    }
  }

  /** On a ring, whose timestamps are distinct, the join is the pointwise derived history. */
  lemma {:induction false} JoinOfRing(compute: Arithmetic, symbol: Symbol, recipe: Recipe, interval: Interval,
                                      left: seq<PricePoint>, right: Bars)
    requires Increasing(left)
    ensures JoinedSoFar(compute, symbol, recipe, interval, left, right)
         == DerivedBars(compute, symbol, recipe, interval, ByTime(left), right)
  {
    hide DerivedPoint;
    if left != [] {
      var front, last := left[..|left| - 1], left[|left| - 1];
      JoinOfRing(compute, symbol, recipe, interval, front, right);
      LastOfIncreasing(left);
      DerivedPointKeepsTime(compute, symbol, recipe, interval, last, right);
      assert ByTime(left) == ByTime(front)[last.timestamp := last];
    }
  }

  lemma DerivedPointKeepsTime(compute: Arithmetic, symbol: Symbol, recipe: Recipe, interval: Interval,
                              left: PricePoint, right: Bars)
    ensures var p := DerivedPoint(compute, symbol, recipe, interval, left, right);
            p.Some? ==> p.value.timestamp == left.timestamp
  {
  }

  lemma InsertLatest(points: seq<PricePoint>, p: PricePoint)
    requires points != [] ==> points[|points| - 1].timestamp <= p.timestamp
    ensures InsertByTime(points, p) == points + [p]
  {
  }

  lemma {:induction false} SortedIsFixed(points: seq<PricePoint>)
    requires Increasing(points)
    ensures SortByTime(points) == points
  {
    hide InsertByTime;
    if points != [] {
      var front, last := points[..|points| - 1], points[|points| - 1];
      SortedIsFixed(front);
      InsertLatest(front, last);
      assert points == front + [last];
    }
  }

  /** `operation == "multiply"`, anything else divides. */
  function CrossRecipe(operation: Operation, maxSkew: int, provider: string): Recipe {
    Recipe([], if operation.Multiply? then Multiply else Divide, maxSkew, provider)
  }

  lemma NothingByTime()
    ensures ByTime([]) == map[]
  {
  }

  /** The left point at `i` yields `p`, and no later one with the same timestamp yields anything. */
  ghost predicate Joins(compute: Arithmetic, symbol: Symbol, provider: string, interval: Interval, operation: Operation,
                        maxSkew: int, left: seq<PricePoint>, right: seq<PricePoint>, i: int, p: PricePoint)
  {
    && 0 <= i < |left| && Pairs(compute, symbol, provider, interval, operation, maxSkew, left[i], right, p)
    && forall j, q :: i < j < |left| && left[j].timestamp == left[i].timestamp ==>
         !Pairs(compute, symbol, provider, interval, operation, maxSkew, left[j], right, q)
  }

  lemma PairsAtItsTime(compute: Arithmetic, symbol: Symbol, provider: string, interval: Interval, operation: Operation,
                       maxSkew: int, left: PricePoint, right: seq<PricePoint>, p: PricePoint)
    requires Pairs(compute, symbol, provider, interval, operation, maxSkew, left, right, p)
    ensures p.timestamp == left.timestamp
  {
  }

  lemma JoinsSnoc(compute: Arithmetic, symbol: Symbol, provider: string, interval: Interval, operation: Operation,
                  maxSkew: int, front: seq<PricePoint>, last: PricePoint, right: seq<PricePoint>, i: int, p: PricePoint)
    ensures Joins(compute, symbol, provider, interval, operation, maxSkew, front + [last], right, i, p) <==>
      if i == |front| then Pairs(compute, symbol, provider, interval, operation, maxSkew, last, right, p)
      else
        && Joins(compute, symbol, provider, interval, operation, maxSkew, front, right, i, p)
        && (last.timestamp == front[i].timestamp ==>
              forall q :: !Pairs(compute, symbol, provider, interval, operation, maxSkew, last, right, q))
  {
    hide Pairs;
    var left := front + [last];
    assert left[|front|] == last && forall j :: 0 <= j < |front| ==> left[j] == front[j];
  }

  /** The join of a sequence, read off the sequence. */
  lemma {:induction false} JoinedContents(compute: Arithmetic, symbol: Symbol, recipe: Recipe, interval: Interval,
                                          left: seq<PricePoint>, right: seq<PricePoint>, p: PricePoint)
    requires !recipe.operation.Inverse?
    ensures var joined := JoinedSoFar(compute, symbol, recipe, interval, left, ByTime(right));
            p.timestamp in joined && joined[p.timestamp] == p <==>
              exists i ::
                Joins(compute, symbol, recipe.provider, interval, recipe.operation, recipe.maxSkew, left, right, i, p)
  {
    hide DerivedPoint, Pairs, ByTime;
    if left != [] {
      var n, provider, operation, maxSkew := |left| - 1, recipe.provider, recipe.operation, recipe.maxSkew;
      var front, last := left[..n], left[n];
      assert left == front + [last];
      JoinedContents(compute, symbol, recipe, interval, front, right, p);
      var point := DerivedPoint(compute, symbol, recipe, interval, last, ByTime(right));
      DerivedPointKeepsTime(compute, symbol, recipe, interval, last, ByTime(right));
      forall q ensures Pairs(compute, symbol, provider, interval, operation, maxSkew, last, right, q) <==>
        point == Some(q) {
        YieldsIff(compute, symbol, recipe, interval, last, right, q);
      }
      JoinsAfter(compute, symbol, provider, interval, operation, maxSkew, front, last, right, p, point);
    }
  }

  /** What one more left point changes. */
  lemma JoinsAfter(compute: Arithmetic, symbol: Symbol, provider: string, interval: Interval, operation: Operation,
                   maxSkew: int, front: seq<PricePoint>, last: PricePoint, right: seq<PricePoint>, p: PricePoint,
                   point: Option<PricePoint>)
    requires forall q :: Pairs(compute, symbol, provider, interval, operation, maxSkew, last, right, q) <==>
      point == Some(q)
    requires point.Some? ==> point.value.timestamp == last.timestamp
    ensures (exists i ::
             Joins(compute, symbol, provider, interval, operation, maxSkew, front + [last], right, i, p)) <==>
      if point.Some? && p.timestamp == last.timestamp then point.value == p
      else exists i :: Joins(compute, symbol, provider, interval, operation, maxSkew, front, right, i, p)
  {
    hide Pairs, Joins;
    forall i ensures Joins(compute, symbol, provider, interval, operation, maxSkew, front + [last], right, i, p) <==>
      if i == |front| then point == Some(p)
      else
        && Joins(compute, symbol, provider, interval, operation, maxSkew, front, right, i, p)
        && (last.timestamp == p.timestamp ==> point == None)
      ensures Joins(compute, symbol, provider, interval, operation, maxSkew, front, right, i, p) ==> i < |front|
    {
      JoinsSnoc(compute, symbol, provider, interval, operation, maxSkew, front, last, right, i, p);
      if Joins(compute, symbol, provider, interval, operation, maxSkew, front, right, i, p) {
        JoinsAtItsTime(compute, symbol, provider, interval, operation, maxSkew, front, right, i, p);
      }
      if point.Some? {
        assert Pairs(compute, symbol, provider, interval, operation, maxSkew, last, right, point.value);
      }
    }
    if point == Some(p) {
      assert Joins(compute, symbol, provider, interval, operation, maxSkew, front + [last], right, |front|, p);
    } else if i :| Joins(compute, symbol, provider, interval, operation, maxSkew, front, right, i, p) {
      assert i != |front|;
    }
  }

  lemma JoinsAtItsTime(compute: Arithmetic, symbol: Symbol, provider: string, interval: Interval, operation: Operation,
                       maxSkew: int, left: seq<PricePoint>, right: seq<PricePoint>, i: int, p: PricePoint)
    requires Joins(compute, symbol, provider, interval, operation, maxSkew, left, right, i, p)
    ensures 0 <= i < |left| && left[i].timestamp == p.timestamp
  {
    PairsAtItsTime(compute, symbol, provider, interval, operation, maxSkew, left[i], right, p);
    hide Pairs;
  }

  lemma {:induction false} InsertedJoin(compute: Arithmetic, symbol: Symbol, recipe: Recipe, interval: Interval,
                                        left: seq<PricePoint>, p: PricePoint, right: Bars)
    ensures JoinedSoFar(compute, symbol, recipe, interval, InsertByTime(left, p), right)
         == JoinedSoFar(compute, symbol, recipe, interval, left + [p], right)
  {
    hide DerivedPoint, JoinedSoFar;
    if left != [] && left[|left| - 1].timestamp > p.timestamp {
      var front, last := left[..|left| - 1], left[|left| - 1];
      InsertedJoin(compute, symbol, recipe, interval, front, p, right);
      assert left == front + [last];
      JoinsCommute(compute, symbol, recipe, interval, front, last, p, right);
      JoinSnoc(compute, symbol, recipe, interval, InsertByTime(front, p), last, right);
      JoinSnoc(compute, symbol, recipe, interval, front + [p], last, right);
    }
  }

  /** Left points of different timestamps may change places. */
  lemma JoinsCommute(compute: Arithmetic, symbol: Symbol, recipe: Recipe, interval: Interval, front: seq<PricePoint>,
                     p: PricePoint, q: PricePoint, right: Bars)
    requires p.timestamp != q.timestamp
    ensures JoinedSoFar(compute, symbol, recipe, interval, front + [p] + [q], right)
         == JoinedSoFar(compute, symbol, recipe, interval, front + [q] + [p], right)
  {
    hide DerivedPoint, JoinedSoFar;
    JoinSnoc(compute, symbol, recipe, interval, front, p, right);
    JoinSnoc(compute, symbol, recipe, interval, front, q, right);
    JoinSnoc(compute, symbol, recipe, interval, front + [p], q, right);
    JoinSnoc(compute, symbol, recipe, interval, front + [q], p, right);
    DerivedPointKeepsTime(compute, symbol, recipe, interval, p, right);
    DerivedPointKeepsTime(compute, symbol, recipe, interval, q, right);
  }

  lemma JoinSnoc(compute: Arithmetic, symbol: Symbol, recipe: Recipe, interval: Interval, left: seq<PricePoint>,
                 p: PricePoint, right: Bars)
    ensures var point := DerivedPoint(compute, symbol, recipe, interval, p, right);
            JoinedSoFar(compute, symbol, recipe, interval, left + [p], right) ==
              if point.Some? then JoinedSoFar(compute, symbol, recipe, interval, left,
                                              right)[point.value.timestamp := point.value]
              else JoinedSoFar(compute, symbol, recipe, interval, left, right)
  {
    assert (left + [p])[..|left|] == left;
    hide DerivedPoint;
  }

  /** The stable sort does not matter to the join. */
  lemma {:induction false} SortedJoin(compute: Arithmetic, symbol: Symbol, recipe: Recipe, interval: Interval,
                                      left: seq<PricePoint>, right: Bars)
    ensures JoinedSoFar(compute, symbol, recipe, interval, SortByTime(left), right)
         == JoinedSoFar(compute, symbol, recipe, interval, left, right)
  {
    hide DerivedPoint, JoinedSoFar, InsertByTime;
    if left != [] {
      var front, last := left[..|left| - 1], left[|left| - 1];
      SortedJoin(compute, symbol, recipe, interval, front, right);
      InsertedJoin(compute, symbol, recipe, interval, SortByTime(front), last, right);
      JoinSnoc(compute, symbol, recipe, interval, SortByTime(front), last, right);
      JoinSnoc(compute, symbol, recipe, interval, front, last, right);
      assert left == front + [last];
    }
  }

  /** The history holds exactly what some left point yields. */
  ghost predicate IsJoin(compute: Arithmetic, symbol: Symbol, provider: string, interval: Interval,
                         operation: Operation,
                         maxSkew: int, left: seq<PricePoint>, right: seq<PricePoint>, history: seq<PricePoint>)
  {
    forall p :: p in history <==>
      exists i :: Joins(compute, symbol, provider, interval, operation, maxSkew, left, right, i, p)
  }

  lemma HistoryIsJoin(compute: Arithmetic, symbol: Symbol, recipe: Recipe, interval: Interval, left: seq<PricePoint>,
                      right: seq<PricePoint>, history: seq<PricePoint>)
    requires Increasing(history) && !recipe.operation.Inverse?
    requires ByTime(history) == JoinedSoFar(compute, symbol, recipe, interval, SortByTime(left), ByTime(right))
    ensures IsJoin(compute, symbol, recipe.provider, interval, recipe.operation, recipe.maxSkew, left, right, history)
  {
    ByTimeContents(history);
    ByTimeOfIncreasing(history);
    hide ByTime, JoinedSoFar, Joins, SortByTime, Increasing;
    SortedJoin(compute, symbol, recipe, interval, left, ByTime(right));
    forall p ensures p in history <==>
      exists i :: Joins(compute, symbol, recipe.provider, interval, recipe.operation, recipe.maxSkew, left, right, i, p)
    {
      JoinedContents(compute, symbol, recipe, interval, left, right, p);
    }
  }

  /** Aligns each left point to the last right point at or before it. */
  method DeriveCrossHistory(compute: Arithmetic, symbol: Symbol, left: seq<PricePoint>, right: seq<PricePoint>,
                            operation: Operation, maxSkew: int, provider: string, interval: Interval)
    returns (history: seq<PricePoint>)
    ensures Increasing(history)
    ensures ByTime(history) == JoinedSoFar(compute, symbol, CrossRecipe(operation, maxSkew, provider), interval,
                                           SortByTime(left), ByTime(right))
    ensures operation.Multiply? ==> IsJoin(compute, symbol, provider, interval, Multiply, maxSkew, left, right, history)
    ensures !operation.Multiply? ==> IsJoin(compute, symbol, provider, interval, Divide, maxSkew, left, right, history)
  {
    hide Latest, ByTime, SortByTime, Sorted, KeyedByTime, IsJoin;
    var leftSorted, rightSorted := SortByTime(left), SortByTime(right);
    SortByTimeSorts(left);
    SortByTimeSorts(right);
    SortByTimeKeepsBars(right);
    ghost var recipe, bars := CrossRecipe(operation, maxSkew, provider), ByTime(right);
    if leftSorted == [] || rightSorted == [] {
      if rightSorted == [] {
        NothingToJoin(compute, symbol, recipe, interval, leftSorted);
      }
      NothingByTime();
      HistoryIsJoin(compute, symbol, recipe, interval, left, right, []);
      return [];
    }
    var output: Bars := map[];
    var index := 0;
    var lastRight: Option<PricePoint> := None;
    for i := 0 to |leftSorted|
      invariant 0 <= index <= |rightSorted|
      invariant lastRight == if index == 0 then None else Some(rightSorted[index - 1])
      invariant i > 0 ==> forall j :: 0 <= j < index ==> rightSorted[j].timestamp <= leftSorted[i - 1].timestamp
      invariant i == 0 ==> index == 0
      invariant output == JoinedSoFar(compute, symbol, recipe, interval, leftSorted[..i], bars)
    {
      var leftPoint := leftSorted[i];
      assert leftSorted[..i + 1][..i] == leftSorted[..i];
      while index < |rightSorted| && rightSorted[index].timestamp <= leftPoint.timestamp
        invariant 0 <= index <= |rightSorted|
        invariant lastRight == if index == 0 then None else Some(rightSorted[index - 1])
        invariant forall j :: 0 <= j < index ==> rightSorted[j].timestamp <= leftPoint.timestamp
      {
        lastRight := Some(rightSorted[index]);
        index := index + 1;
      }
      LatestOfSorted(rightSorted, index, leftPoint.timestamp);
      if lastRight.None? || leftPoint.timestamp - lastRight.value.timestamp > maxSkew {
        continue;
      }
      var price := compute(if operation.Multiply? then Multiply else Divide, leftPoint.price, lastRight.value.price);
      if price.None? || price.value <= 0.0 {
        continue;
      }
      output :=
        output[leftPoint.timestamp := PricePoint(symbol, leftPoint.timestamp, price.value, provider, true, interval)];
    }
    assert leftSorted[..|leftSorted|] == leftSorted;
    JoinedSoFarIsKeyed(compute, symbol, recipe, interval, leftSorted, bars);
    SortedIsTheRing(output);
    history := Sorted(output);
    HistoryIsJoin(compute, symbol, recipe, interval, left, right, history);
  }

  lemma {:induction false} NothingToJoin(compute: Arithmetic, symbol: Symbol, recipe: Recipe, interval: Interval,
                                         left: seq<PricePoint>)
    requires !recipe.operation.Inverse?
    ensures JoinedSoFar(compute, symbol, recipe, interval, left, map[]) == map[]
  {
    if left != [] {
      NothingToJoin(compute, symbol, recipe, interval, left[..|left| - 1]);
      assert Upto(map[], left[|left| - 1].timestamp) == map[];
    }
  }

  /** No eligible left point with index at least `from` yields a derived point. */
  ghost predicate NothingFrom(compute: Arithmetic, symbol: Symbol, recipe: Recipe, interval: Interval,
                              left: seq<PricePoint>, right: Bars, cutoff: int, from: int)
  {
    forall k :: 0 <= k < |left| && from <= k && left[k].timestamp <= cutoff ==>
      DerivedPoint(compute, symbol, recipe, interval, left[k], right).None?
  }

  lemma NothingDerived(compute: Arithmetic, symbol: Symbol, recipe: Recipe, interval: Interval,
                       left: seq<PricePoint>, right: Bars, cutoff: int)
    requires Increasing(left) && NothingFrom(compute, symbol, recipe, interval, left, right, cutoff, 0)
    ensures Latest(DerivedBars(compute, symbol, recipe, interval, ByTime(left), right), cutoff) == None
  {
    hide DerivedPoint;
    var derived := DerivedBars(compute, symbol, recipe, interval, ByTime(left), right);
    ByTimeContents(left);
    forall t | t in derived ensures t > cutoff {
      var p := ByTime(left)[t];
      var k :| 0 <= k < |left| && left[k] == p;
    }
    LatestIsNone(derived, cutoff);
  }

  lemma FirstDerivedIsLatest(compute: Arithmetic, symbol: Symbol, recipe: Recipe, interval: Interval,
                             left: seq<PricePoint>, right: Bars, cutoff: int, i: nat)
    requires Increasing(left) && i < |left| && left[i].timestamp <= cutoff
    requires NothingFrom(compute, symbol, recipe, interval, left, right, cutoff, i + 1)
    requires DerivedPoint(compute, symbol, recipe, interval, left[i], right).Some?
    ensures Latest(DerivedBars(compute, symbol, recipe, interval, ByTime(left), right), cutoff)
         == DerivedPoint(compute, symbol, recipe, interval, left[i], right)
  {
    hide DerivedPoint;
    var derived := DerivedBars(compute, symbol, recipe, interval, ByTime(left), right);
    ByTimeContents(left);
    ByTimeOfIncreasing(left);
    forall t | t in derived && t <= cutoff ensures t <= left[i].timestamp {
      var p := ByTime(left)[t];
      var k :| 0 <= k < |left| && left[k] == p;
    }
    LatestIs(derived, cutoff, left[i].timestamp);
  }

  /** The newest point that an eligible left point yields, and none exactly when none of them yields any. */
  ghost predicate IsNewestDerived(compute: Arithmetic, symbol: Symbol, recipe: Recipe, interval: Interval,
                                  left: seq<PricePoint>, right: seq<PricePoint>, cutoff: int,
                                  newest: Option<PricePoint>)
  {
    match newest
    case None =>
      forall i, p :: 0 <= i < |left| && left[i].timestamp <= cutoff ==>
        !Yields(compute, symbol, recipe, interval, left[i], right, p)
    case Some(p) =>
      exists i ::
        && 0 <= i < |left| && left[i].timestamp <= cutoff
        && Yields(compute, symbol, recipe, interval, left[i], right, p)
        && forall j, q :: i < j < |left| && left[j].timestamp <= cutoff ==>
             !Yields(compute, symbol, recipe, interval, left[j], right, q)
  }

  lemma LatestIsNewestDerived(compute: Arithmetic, symbol: Symbol, recipe: Recipe, interval: Interval,
                              left: seq<PricePoint>, right: seq<PricePoint>, cutoff: int)
    requires Increasing(left)
    ensures IsNewestDerived(compute, symbol, recipe, interval, left, right, cutoff,
                            Latest(DerivedBars(compute, symbol, recipe, interval, ByTime(left), ByTime(right)), cutoff))
  {
    ByTimeContents(left);
    ByTimeOfIncreasing(left);
    hide DerivedPoint, Yields, ByTime, Latest;
    var derived := DerivedBars(compute, symbol, recipe, interval, ByTime(left), ByTime(right));
    forall i, p | 0 <= i < |left|
      ensures Yields(compute, symbol, recipe, interval, left[i], right, p) <==>
        left[i].timestamp in derived && derived[left[i].timestamp] == p
    {
      YieldsIff(compute, symbol, recipe, interval, left[i], right, p);
      assert ByTime(left)[left[i].timestamp] == left[i];
    }
    LatestIsNone(derived, cutoff);
    if Latest(derived, cutoff).Some? {
      var t := LatestWitness(derived, cutoff);
      assert t in ByTime(left);
      var i :| 0 <= i < |left| && left[i] == ByTime(left)[t];
      assert Yields(compute, symbol, recipe, interval, left[i], right, derived[t]);
    }
  }

  /**
   The lazy scan: left points from the newest eligible one backwards, the right ring followed by
   one pointer that only ever moves back, and an early stop once the right ring is exhausted.
   */
  method ScanBackward(compute: Arithmetic, symbol: Symbol, recipe: Recipe, interval: Interval,
                      left: seq<PricePoint>, right: seq<PricePoint>, cutoff: int)
    returns (reference: Option<PricePoint>)
    requires Increasing(left) && Increasing(right)
    requires recipe.operation.Multiply? || recipe.operation.Divide?
    ensures reference == Latest(DerivedBars(compute, symbol, recipe, interval, ByTime(left), ByTime(right)), cutoff)
    ensures IsNewestDerived(compute, symbol, recipe, interval, left, right, cutoff, reference)
  {
    hide DerivedBars, ByTime, Last, IsNewestDerived;
    LatestIsNewestDerived(compute, symbol, recipe, interval, left, right, cutoff);
    ghost var bars := ByTime(right);
    var r := |right| - 1;
    var i := |left|;
    while i > 0
      invariant 0 <= i <= |left| && -1 <= r < |right|
      invariant NothingFrom(compute, symbol, recipe, interval, left, bars, cutoff, i)
      invariant forall j, k :: r < j < |right| && 0 <= k < i ==> right[j].timestamp > left[k].timestamp
    {
      i := i - 1;
      if left[i].timestamp > cutoff {
        continue;
      }
      while r >= 0 && right[r].timestamp > left[i].timestamp
        invariant -1 <= r < |right|
        invariant forall j, k :: r < j < |right| && 0 <= k <= i ==> right[j].timestamp > left[k].timestamp
      {
        r := r - 1;
      }
      LatestOfSorted(right, r + 1, left[i].timestamp);
      if r < 0 {
        RightExhausted(compute, symbol, recipe, interval, left, right, cutoff, i);
        break;
      }
      if left[i].timestamp - right[r].timestamp > recipe.maxSkew {
        continue;
      }
      var price := compute(recipe.operation, left[i].price, right[r].price);
      if price.None? || price.value <= 0.0 {
        continue;
      }
      FirstDerivedIsLatest(compute, symbol, recipe, interval, left, bars, cutoff, i);
      return Some(PricePoint(symbol, left[i].timestamp, price.value, recipe.provider, true, interval));
    }
    NothingDerived(compute, symbol, recipe, interval, left, bars, cutoff);
    reference := None;
  }

  lemma RightExhausted(compute: Arithmetic, symbol: Symbol, recipe: Recipe, interval: Interval,
                       left: seq<PricePoint>, right: seq<PricePoint>, cutoff: int, i: nat)
    requires Increasing(left) && Increasing(right) && i < |left| && !recipe.operation.Inverse?
    requires NothingFrom(compute, symbol, recipe, interval, left, ByTime(right), cutoff, i + 1)
    requires forall j, k :: 0 <= j < |right| && 0 <= k <= i ==> right[j].timestamp > left[k].timestamp
    ensures NothingFrom(compute, symbol, recipe, interval, left, ByTime(right), cutoff, 0)
  {
    forall k | 0 <= k < |left| && left[k].timestamp <= cutoff
      ensures DerivedPoint(compute, symbol, recipe, interval, left[k], ByTime(right)).None?
    {
      if k <= i {
        LatestOfSorted(right, 0, left[k].timestamp);
      }
    }
  }

  /** The same scan for a recipe with one input. */
  method ScanInverse(compute: Arithmetic, symbol: Symbol, recipe: Recipe, interval: Interval,
                     left: seq<PricePoint>, ghost right: seq<PricePoint>, cutoff: int)
    returns (reference: Option<PricePoint>)
    requires Increasing(left) && recipe.operation.Inverse?
    ensures reference == Latest(DerivedBars(compute, symbol, recipe, interval, ByTime(left), ByTime(right)), cutoff)
    ensures IsNewestDerived(compute, symbol, recipe, interval, left, right, cutoff, reference)
  {
    hide ByTime, IsNewestDerived;
    ghost var bars := ByTime(right);
    LatestIsNewestDerived(compute, symbol, recipe, interval, left, right, cutoff);
    var i := |left|;
    while i > 0
      invariant 0 <= i <= |left|
      invariant NothingFrom(compute, symbol, recipe, interval, left, bars, cutoff, i)
    {
      i := i - 1;
      if left[i].timestamp > cutoff {
        continue;
      }
      var price := compute(Divide, 1.0, left[i].price);
      if price.None? || price.value <= 0.0 {
        continue;
      }
      FirstDerivedIsLatest(compute, symbol, recipe, interval, left, bars, cutoff, i);
      return Some(PricePoint(symbol, left[i].timestamp, price.value, recipe.provider, true, interval));
    }
    NothingDerived(compute, symbol, recipe, interval, left, bars, cutoff);
    reference := None;
  }

  /**
   The lazy scan and the materialised join agree: running the forward join on two rings and taking
   its last point at or before the cutoff gives what the backward scan returns.
   */
  method ScanMatchesJoin(compute: Arithmetic, symbol: Symbol, recipe: Recipe, interval: Interval,
                         left: seq<PricePoint>, right: seq<PricePoint>, cutoff: int)
    returns (scanned: Option<PricePoint>, history: seq<PricePoint>)
    requires Increasing(left) && Increasing(right)
    requires recipe.operation.Multiply? || recipe.operation.Divide?
    ensures Increasing(history) && scanned == Latest(ByTime(history), cutoff)
  {
    history := DeriveCrossHistory(compute, symbol, left, right, recipe.operation, recipe.maxSkew, recipe.provider,
                                  interval);
    scanned := ScanBackward(compute, symbol, recipe, interval, left, right, cutoff);
    SortedIsFixed(left);
    var plain := CrossRecipe(recipe.operation, recipe.maxSkew, recipe.provider);
    JoinOfRing(compute, symbol, plain, interval, left, ByTime(right));
    InputsDoNotMatter(compute, symbol, plain, recipe, interval, ByTime(left), ByTime(right));
  }

  lemma InputsDoNotMatter(compute: Arithmetic, symbol: Symbol, a: Recipe, b: Recipe, interval: Interval, left: Bars,
                          right: Bars)
    requires a.operation == b.operation && a.maxSkew == b.maxSkew && a.provider == b.provider
    ensures DerivedBars(compute, symbol, a, interval, left, right)
      == DerivedBars(compute, symbol, b, interval, left, right)
  {
    forall t | t in left
      ensures DerivedPoint(compute, symbol, a, interval, left[t], right)
        == DerivedPoint(compute, symbol, b, interval, left[t], right)
    {
    }
  }
}
