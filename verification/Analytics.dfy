/**
 Rolling change windows: the full calculation over a merged history, and the calculation from
 preselected references that live quotes use instead.
 */
module Analytics {
  import opened Basics
  import opened PriceBars
  import opened HistoryModel
  import opened CrossHistory

  datatype ChangeValue = ChangeValue(percent: real, referencePrice: Price, referenceAt: int)

  type Changes = map<Window, Option<ChangeValue>>

  function ChangeFrom(price: Price, reference: Option<PricePoint>): Option<ChangeValue> {
    match reference
    case None => None
    case Some(point) => Some(ChangeValue((price / point.price - 1.0) * 100.0, point.price, point.timestamp))
  }

  /** `change` is the move from the price of `reference` to `price`. */
  predicate IsChange(price: Price, reference: PricePoint, change: ChangeValue) {
    && change.referencePrice == reference.price && change.referenceAt == reference.timestamp
    && reference.price * (1.0 + change.percent / 100.0) == price
  }

  /** The move from the last of the points at or before the cutoff; none exactly when there is no such point. */
  ghost predicate IsChangeOver(change: Option<ChangeValue>, price: Price, points: seq<PricePoint>, cutoff: int) {
    && (change == None <==> forall k :: 0 <= k < |points| ==> points[k].timestamp > cutoff)
    && forall k :: IsLastAt(points, k, cutoff) ==> change.Some? && IsChange(price, points[k], change.value)
  }

  /** Each window has the move from its reference, and none exactly when the reference is missing. */
  ghost predicate AreChanges(changes: Changes, price: Price, references: map<Window, Option<PricePoint>>) {
    forall w: Window ::
      && w in changes
      && (changes[w] == None <==> w !in references || references[w] == None)
      && (changes[w].Some? ==> IsChange(price, references[w].value, changes[w].value))
  }

  lemma ChangeFromIsChange(price: Price, reference: PricePoint)
    ensures IsChange(price, reference, ChangeFrom(price, Some(reference)).value)
  {
    var ratio := price / reference.price;
    assert ((ratio - 1.0) * 100.0) / 100.0 == ratio - 1.0;
    assert reference.price * ratio == price;
  }

  lemma ChangesAreChanges(changes: Changes, price: Price, references: map<Window, Option<PricePoint>>)
    requires changes == map w: Window :: ChangeFrom(price, if w in references then references[w] else None)
    ensures AreChanges(changes, price, references)
  {
    hide ChangeFrom, IsChange;
    forall w: Window
      ensures changes[w] == None <==> w !in references || references[w] == None
      ensures changes[w].Some? ==> IsChange(price, references[w].value, changes[w].value)
    {
      ChangeIfReference(price, if w in references then references[w] else None);
    }
  }

  lemma WindowsAreAll(w: Window)
    ensures w in WINDOWS
  {
    DurationsAreWholeMinutes(w);
  }

  /** For each window the latest of `points` at or before the rolling cutoff. */
  method CalculateChanges(price: Price, asOf: int, points: seq<PricePoint>) returns (changes: Changes)
    ensures changes == map w: Window :: ChangeFrom(price, Latest(ByTime(points), asOf - Duration(w)))
    ensures forall w: Window :: w in changes && IsChangeOver(changes[w], price, points, asOf - Duration(w))
  {
    hide Latest, ByTime, ChangeFrom, IsChangeOver;
    var valid := KnownBy(points, asOf);
    var ordered := SortByTime(valid);
    SortByTimeSorts(valid);
    SortByTimeKeepsBars(valid);
    changes := map[];
    for i := 0 to |WINDOWS|
      invariant changes.Keys == set j | 0 <= j < i :: WINDOWS[j]
      invariant forall w :: w in changes ==> changes[w] == ChangeFrom(price, Latest(ByTime(points), asOf - Duration(w)))
    {
      var w := WINDOWS[i];
      var reference := LastAtOrBefore(ordered, asOf - Duration(w));
      DurationsAreWholeMinutes(w);
      KnownIsEnough(points, asOf, asOf - Duration(w));
      changes := changes[w := ChangeFrom(price, reference)];
    }
    forall w: Window ensures w in changes {
      WindowsAreAll(w);
    }
    forall w: Window ensures IsChangeOver(changes[w], price, points, asOf - Duration(w)) {
      ChangeOfPoints(price, points, asOf - Duration(w));
    }
  }

  lemma ChangeOfPoints(price: Price, points: seq<PricePoint>, cutoff: int)
    ensures IsChangeOver(ChangeFrom(price, Latest(ByTime(points), cutoff)), price, points, cutoff)
  {
    hide Latest, ByTime, ChangeFrom, IsChange;
    LatestOfPoints(points, cutoff);
    ChangeIfReference(price, Latest(ByTime(points), cutoff));
  }

  lemma ChangeIfReference(price: Price, reference: Option<PricePoint>)
    ensures ChangeFrom(price, reference) == None <==> reference == None
    ensures reference.Some? ==> IsChange(price, reference.value, ChangeFrom(price, reference).value)
  {
    if reference.Some? {
      ChangeFromIsChange(price, reference.value);
    }
    hide IsChange;
  }

  function KnownBy(points: seq<PricePoint>, asOf: int): seq<PricePoint> {
    if points == [] then []
    else KnownBy(points[..|points| - 1], asOf)
         + if points[|points| - 1].timestamp <= asOf then [points[|points| - 1]] else []
  }

  lemma {:induction false} KnownIsPrefix(points: seq<PricePoint>, asOf: int)
    ensures ByTime(KnownBy(points, asOf)) == Upto(ByTime(points), asOf)
  {
    hide Upto;
    if points == [] {
      NothingUpto(asOf);
    } else {
      var front, last := points[..|points| - 1], points[|points| - 1];
      KnownIsPrefix(front, asOf);
      assert points == front + [last];
      ByTimeSnoc(front, last);
      UptoSnoc(ByTime(front), last, asOf);
      if last.timestamp <= asOf {
        ByTimeSnoc(KnownBy(front, asOf), last);
      } else {
        assert KnownBy(points, asOf) == KnownBy(front, asOf);
      }
    }
  }

  lemma NothingUpto(asOf: int)
    ensures Upto(map[], asOf) == map[]
  {
  }

  lemma UptoSnoc(bars: Bars, last: PricePoint, asOf: int)
    ensures Upto(bars[last.timestamp := last], asOf)
         == if last.timestamp <= asOf then Upto(bars, asOf)[last.timestamp := last] else Upto(bars, asOf)
  {
  }

  lemma KnownIsEnough(points: seq<PricePoint>, asOf: int, cutoff: int)
    requires cutoff <= asOf
    ensures Latest(ByTime(KnownBy(points, asOf)), cutoff) == Latest(ByTime(points), cutoff)
  {
    KnownIsPrefix(points, asOf);
    assert Upto(Upto(ByTime(points), asOf), cutoff) == Upto(ByTime(points), cutoff);
  }

  /** The last of the sorted points at or before the cutoff, searched from the end. */
  method LastAtOrBefore(points: seq<PricePoint>, cutoff: int) returns (last: Option<PricePoint>)
    requires NonDecreasing(points)
    ensures last == Latest(ByTime(points), cutoff)
  {
    var i := |points|;
    while i > 0
      invariant 0 <= i <= |points|
      invariant forall j :: i <= j < |points| ==> points[j].timestamp > cutoff
    {
      i := i - 1;
      if points[i].timestamp <= cutoff {
        LatestOfSorted(points, i + 1, cutoff);
        return Some(points[i]);
      }
    }
    LatestOfSorted(points, 0, cutoff);
    last := None;
  }

  method CalculateChangesFromReferences(price: Price, references: map<Window, Option<PricePoint>>)
    returns (changes: Changes)
    ensures changes == map w: Window :: ChangeFrom(price, if w in references then references[w] else None)
    ensures AreChanges(changes, price, references)
  {
    hide ChangeFrom, AreChanges;
    changes := map[];
    for i := 0 to |WINDOWS|
      invariant changes.Keys == set j | 0 <= j < i :: WINDOWS[j]
      invariant forall w :: w in changes ==>
        changes[w] == ChangeFrom(price, if w in references then references[w] else None)
    {
      var w := WINDOWS[i];
      changes := changes[w := ChangeFrom(price, if w in references then references[w] else None)];
    }
    forall w: Window ensures w in changes {
      WindowsAreAll(w);
    }
    ChangesAreChanges(changes, price, references);
  }

  // ----- the merged history

  /** The part of `older` that lies before the whole of `newer`. */
  function Before(older: Bars, newer: Bars): Bars {
    map t | t in older && forall u :: u in newer ==> t < u :: older[t]
  }

  /** Minute bars from their first on, five-minute bars before that, daily bars before both. */
  function MergedHistory(one: Bars, five: Bars, daily: Bars): Bars {
    Before(Before(daily, five) + five, one) + one
  }

  lemma LatestOverlay(older: Bars, newer: Bars, cutoff: int)
    ensures Latest(Before(older, newer) + newer, cutoff)
         == if Latest(newer, cutoff).Some? then Latest(newer, cutoff) else Latest(older, cutoff)
  {
    var merged := Before(older, newer) + newer;
    LatestIsNone(newer, cutoff);
    if Latest(newer, cutoff).Some? {
      var t := LatestWitness(newer, cutoff);
      LatestIs(merged, cutoff, t);
    } else {
      assert Upto(merged, cutoff) == Upto(older, cutoff);
    }
  }

  /** The lookup that copies nothing finds the last merged point at or before the cutoff. */
  lemma NoCopyLookup(one: Bars, five: Bars, daily: Bars, cutoff: int)
    ensures Latest(MergedHistory(one, five, daily), cutoff)
         == FirstKnown(Latest(one, cutoff), Latest(five, cutoff), Latest(daily, cutoff))
  {
    hide Latest;
    LatestOverlay(daily, five, cutoff);
    LatestOverlay(Before(daily, five) + five, one, cutoff);
  }

  /**
   For a symbol with its own rings, freshly selected references are the last bars of the whole merged history at or
   before the cutoffs, so both calculations give the same changes.
   */
  lemma ReferencesGiveFullChanges(compute: Arithmetic, st: HistoryState, s: SymbolGraph.Symbol, asOf: int)
    requires LegalRecipes(st.recipes) && s !in st.recipes
    ensures FreshReferences(compute, st, s, asOf) == map w: Window ::
      Latest(MergedHistory(BarsOf(st.one, s), BarsOf(st.five, s), BarsOf(st.daily, s)), asOf - Duration(w))
  {
    hide Latest, MergedHistory;
    forall w: Window ensures FreshReferences(compute, st, s, asOf)[w]
      == Latest(MergedHistory(BarsOf(st.one, s), BarsOf(st.five, s), BarsOf(st.daily, s)), asOf - Duration(w))
    {
      NoCopyLookup(BarsOf(st.one, s), BarsOf(st.five, s), BarsOf(st.daily, s), asOf - Duration(w));
    }
  }
}
