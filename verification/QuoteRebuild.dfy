/**
 The service's choice between the two change calculations when it rebuilds a quote snapshot, and
 why live quotes may use the cheap one.
 */
module QuoteRebuild {
  import opened Basics
  import opened SymbolGraph
  import opened PriceBars
  import opened HistoryModel
  import opened Analytics
  import H = HistoryCache

  function MergedOf(st: HistoryState, s: Symbol): Bars {
    MergedHistory(BarsOf(st.one, s), BarsOf(st.five, s), BarsOf(st.daily, s))
  }

  /** For each window the last bar of a history at or before the rolling cutoff. */
  function ReferencesIn(bars: Bars, asOf: int): map<Window, Option<PricePoint>> {
    map w: Window :: Latest(bars, asOf - Duration(w))
  }

  /**
   Without additional points the references are used. While the reference cache is coherent they
   give a plain symbol the changes of its whole merged history, even when they were selected
   earlier in the same minute; a synthetic symbol gets the changes of fresh derived references.
   */
  method RebuildChanges(history: H.HistoryCache, symbol: Symbol, price: Price, asOf: int, additional: seq<PricePoint>)
    returns (changes: Changes)
    requires history.Valid()
    modifies history`referenceCache
    ensures history.Valid()
    ensures old(WholeMinuteDaily(history.State()) && Coherent(history.compute, history.State())) && additional == [] ==>
      AreChanges(changes, price, FreshReferences(history.compute, old(history.State()), symbol, asOf))
    ensures old(WholeMinuteDaily(history.State()) && Coherent(history.compute, history.State())) && additional == [] ==>
      symbol in history.recipes
        || AreChanges(changes, price, ReferencesIn(MergedOf(old(history.State()), symbol), asOf))
    ensures additional != [] ==>
      AreChanges(changes, price, ReferencesIn(MergedOf(old(history.State()), symbol) + ByTime(additional), asOf))
  {
    hide WellFormed, Coherent, MergedHistory, Latest, ByTime, Reference, ChangeFrom, H.HistoriesOf, H.LegalRings,
         H.Inverts;
    ghost var before := history.State();
    if additional != [] {
      var points := history.Points(symbol);
      ByTimeConcat(points, additional);
      changes := CalculateChanges(price, asOf, points + additional);
      ChangesAreChanges(changes, price, ReferencesIn(ByTime(points + additional), asOf));
    } else {
      var references := history.ChangeReferences(symbol, asOf);
      changes := CalculateChangesFromReferences(price, references);
      if symbol !in history.recipes {
        LegalOfWellFormed(before);
        ReferencesGiveFullChanges(history.compute, before, symbol, asOf);
      }
    }
  }

  lemma LegalOfWellFormed(st: HistoryState)
    requires WellFormed(st)
    ensures LegalRecipes(st.recipes)
  {
  }
}
