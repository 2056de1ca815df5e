/**
 Forward paging through a provider's history: windows of at most 5000 bars, at most 64 pages.
 */
module Paging {
  import opened Basics
  import opened PriceBars
  import opened SymbolGraph

  const PAGE_BARS := 5_000
  const MAX_PAGES := 64

  function StepOf(interval: Interval): (step: int)
    requires !interval.Unsupported?
    ensures step > 0
    ensures step == 60_000_000 * match interval
      case OneMinute => 1
      case FiveMinutes => 5
      case OneDay => 60 * 24
  {
    match interval
    case OneMinute => MINUTE
    case FiveMinutes => FIVE_MINUTES
    case OneDay => DAY
  }

  function Between(bars: Bars, first: int, last: int): Bars {
    map t | t in bars && first <= t <= last :: bars[t]
  }

  /** The points of a response that lie in the requested window. */
  function Within(points: seq<PricePoint>, first: int, last: int): (kept: seq<PricePoint>)
    ensures forall p :: p in kept <==> p in points && first <= p.timestamp <= last
  {
    if points == [] then []
    else (if first <= points[0].timestamp <= last then [points[0]] else []) + Within(points[1..], first, last)
  }

  /** A page holds bars of the history, earliest first and none skipped, and is empty only when the window is. */
  ghost predicate IsEarliest(page: seq<PricePoint>, bars: Bars, first: int, last: int) {
    && (forall p :: p in page ==> p.timestamp in bars && bars[p.timestamp] == p)
    && (forall t, p :: t in bars && first <= t <= last && p in page && t <= p.timestamp ==> bars[t] in page)
    && (page == [] ==> forall t :: t in bars ==> !(first <= t <= last))
  }

  type Fetch = (int, int) -> seq<PricePoint>

  ghost predicate Honest(fetch: Fetch, bars: Bars) {
    forall first, last :: IsEarliest(Within(fetch(first, last), first, last), bars, first, last)
  }

  /** A page reaches at least over the first `cap` bar positions of its window. */
  ghost predicate Generous(fetch: Fetch, bars: Bars, cap: int, step: int) {
    forall first, last, t :: t in bars && first <= t <= last && t < first + cap * step ==>
      bars[t] in Within(fetch(first, last), first, last)
  }

  /** `t` is a bar position of the grid through `origin`. */
  ghost predicate OnGrid(t: int, origin: int, step: int) {
    exists k: int :: t == origin + k * step
  }

  ghost predicate AllOnGrid(bars: Bars, origin: int, step: int) {
    forall t :: t in bars ==> OnGrid(t, origin, step)
  }

  lemma NextOnGrid(t: int, start: int, step: int, n: int)
    requires OnGrid(t, start, step)
    ensures OnGrid(t + n * step, start, step)
  {
    var k: int :| t == start + k * step;
    assert t + n * step == start + (k + n) * step;
  }

  lemma NotPositive(x: int, step: int)
    requires x <= 0 && step > 0
    ensures x * step <= 0
  {
  }

  lemma AtLeastOne(x: int, step: int)
    requires step > 0 && x * step > 0
    ensures x * step >= step
  {
    if x <= 0 {
      NotPositive(x, step);
    } else {
      NotPositive(1 - x, step);
      assert (1 - x) * step == step - x * step;
    }
  }

  /** Grid times that lie less than a step apart are the same. */
  lemma GridGap(a: int, b: int, start: int, step: int)
    requires step > 0 && OnGrid(a, start, step) && OnGrid(b, start, step) && a < b
    ensures a + step <= b
  {
    var j: int :| a == start + j * step;
    var k: int :| b == start + k * step;
    assert (k - j) * step == b - a;
    AtLeastOne(k - j, step);
  }

  function LatestOf(points: seq<PricePoint>): (latest: int)
    requires points != []
    ensures exists p :: p in points && p.timestamp == latest
    ensures forall p :: p in points ==> p.timestamp <= latest
  {
    if |points| == 1 then points[0].timestamp
    else var rest := LatestOf(points[1..]); if rest >= points[0].timestamp then rest else points[0].timestamp
  }

  // ----- one page

  function Min(a: int, b: int): int {
    if a <= b then a else b
  }

  /** The last bar position of a full window. */
  function WindowEnd(cursor: int, step: int, end: int): int {
    Min(end, cursor + (PAGE_BARS - 1) * step)
  }

  function Page(fetch: Fetch, step: int, cursor: int, end: int): seq<PricePoint> {
    Within(fetch(cursor, WindowEnd(cursor, step, end)), cursor, WindowEnd(cursor, step, end))
  }

  /** Where the next page starts: a step after the latest bar, or after the window. */
  function NextCursor(page: seq<PricePoint>, pageEnd: int, step: int): int {
    if page == [] || LatestOf(page) + step > pageEnd then pageEnd + step else LatestOf(page) + step
  }

  function Next(fetch: Fetch, step: int, cursor: int, end: int): int {
    NextCursor(Page(fetch, step, cursor, end), WindowEnd(cursor, step, end), step)
  }

  /** Another page follows an empty window that stops short of the end, or a page whose next cursor is not behind it. */
  predicate GoesOn(fetch: Fetch, step: int, cursor: int, end: int) {
    if Page(fetch, step, cursor, end) == [] then WindowEnd(cursor, step, end) < end
      else Next(fetch, step, cursor, end) <= end
  }

  /** What the loop collects from a cursor on; a daily history stops at its first page with bars. */
  function Collected(fetch: Fetch, interval: Interval, cursor: int, end: int, pages: nat): seq<PricePoint>
    requires !interval.Unsupported?
    decreases pages
  {
    var step := StepOf(interval);
    if pages == 0 then []
    else
      var page := Page(fetch, step, cursor, end);
      page + if GoesOn(fetch, step, cursor, end) && (page == [] || !interval.OneDay?)
             then Collected(fetch, interval, Next(fetch, step, cursor, end), end, pages - 1) else []
  }

  /** The loop's exits, read off its first page. */
  lemma FirstPage(fetch: Fetch, interval: Interval, cursor: int, end: int, pages: nat)
    requires !interval.Unsupported? && pages > 0
    ensures var step := StepOf(interval);
            var page, next := Page(fetch, step, cursor, end), Next(fetch, step, cursor, end);
            && (GoesOn(fetch, step, cursor, end) && (page == [] || !interval.OneDay?) ==>
                  Collected(fetch, interval, cursor, end, pages)
                    == page + Collected(fetch, interval, next, end, pages - 1))
            && (!GoesOn(fetch, step, cursor, end) || (page != [] && interval.OneDay?) ==>
                  Collected(fetch, interval, cursor, end, pages) == page)
  {
    hide Page, Next, GoesOn, StepOf;
    var page := Page(fetch, StepOf(interval), cursor, end);
    assert page + [] == page;
  }

  /** The published history: one bar for each timestamp, in time order. */
  function History(fetch: Fetch, interval: Interval, start: int, end: int): seq<PricePoint>
    requires !interval.Unsupported?
  {
    Sorted(ByTime(Collected(fetch, interval, start, end, MAX_PAGES)))
  }

  lemma LatestIsThere(points: seq<PricePoint>) returns (p: PricePoint)
    requires points != []
    ensures p in points && p.timestamp == LatestOf(points)
  {
    var latest := LatestOf(points);
    p :| p in points && p.timestamp == latest;
  }

  lemma CursorMoves(page: seq<PricePoint>, cursor: int, pageEnd: int, step: int)
    requires step > 0 && forall p :: p in page ==> cursor <= p.timestamp <= pageEnd
    ensures page != [] ==> cursor < NextCursor(page, pageEnd, step)
    ensures NextCursor(page, pageEnd, step) <= pageEnd + step
    ensures forall p :: p in page ==> p.timestamp < NextCursor(page, pageEnd, step)
    ensures page == [] ==> NextCursor(page, pageEnd, step) == pageEnd + step
  {
    if page != [] {
      var _ := LatestIsThere(page);
    }
  }

  /** A page of an honest and generous source. */
  lemma PageFacts(fetch: Fetch, bars: Bars, cap: int, step: int, cursor: int, end: int)
    requires Honest(fetch, bars) && Generous(fetch, bars, cap, step)
    ensures var page, pageEnd := Page(fetch, step, cursor, end), WindowEnd(cursor, step, end);
            && IsEarliest(page, bars, cursor, pageEnd)
            && (forall p :: p in page ==> cursor <= p.timestamp <= pageEnd)
            && forall t :: t in bars && cursor <= t <= pageEnd && t < cursor + cap * step ==> bars[t] in page
  {
    hide IsEarliest;
  }

  /** Nothing between a page's cursor and the next one is missing, as far as the window goes. */
  lemma PageCovers(page: seq<PricePoint>, bars: Bars, origin: int, step: int, cursor: int, pageEnd: int, t: int)
    requires step > 0 && AllOnGrid(bars, origin, step) && IsEarliest(page, bars, cursor, pageEnd)
    requires t in bars && cursor <= t <= pageEnd && t < NextCursor(page, pageEnd, step)
    ensures bars[t] in page
  {
    hide OnGrid;
    if page != [] {
      var p := LatestIsThere(page);
      if p.timestamp < t {
        GridGap(p.timestamp, t, origin, step);
      }
    }
  }

  // ----- what one page holds and what it passes over

  /** A page holds exactly the bars from its cursor to the next one, as far as its window goes. */
  lemma PageIs(fetch: Fetch, bars: Bars, origin: int, step: int, end: int, cursor: int)
    requires step > 0 && AllOnGrid(bars, origin, step)
    requires KeyedByTime(bars) && IsEarliest(Page(fetch, step, cursor, end), bars, cursor, WindowEnd(cursor, step, end))
    ensures ByTime(Page(fetch, step, cursor, end))
         == Between(bars, cursor, Min(Next(fetch, step, cursor, end) - 1, WindowEnd(cursor, step, end)))
  {
    hide ByTime, OnGrid, AllOnGrid, NextCursor, IsEarliest;
    var page, pageEnd, next := Page(fetch, step, cursor, end), WindowEnd(cursor, step, end),
      Next(fetch, step, cursor, end);
    PageContents(page, bars, cursor, pageEnd);
    CursorMoves(page, cursor, pageEnd, step);
    var a, b := ByTime(page), Between(bars, cursor, Min(next - 1, pageEnd));
    forall t ensures (t in a <==> t in b) && (t in a ==> a[t] == b[t]) {
      if t in bars && cursor <= t <= pageEnd && t < next {
        PageCovers(page, bars, origin, step, cursor, pageEnd, t);
      }
    }
  }

  lemma PageContents(page: seq<PricePoint>, bars: Bars, cursor: int, pageEnd: int)
    requires KeyedByTime(bars) && IsEarliest(page, bars, cursor, pageEnd)
    requires forall p :: p in page ==> cursor <= p.timestamp <= pageEnd
    ensures forall t :: t in ByTime(page) ==>
      t in bars && cursor <= t <= pageEnd && ByTime(page)[t] == bars[t] && bars[t] in page
    ensures forall t :: t in bars && bars[t] in page ==> t in ByTime(page)
  {
    ByTimeContents(page);
    hide ByTime;
  }

  /** Behind the window of a page and before the next cursor: never asked for. */
  predicate Behind(fetch: Fetch, step: int, cursor: int, end: int, t: int) {
    WindowEnd(cursor, step, end) < t < Next(fetch, step, cursor, end)
  }

  /** A run passes over `t` between two of its windows. */
  predicate Skipped(fetch: Fetch, interval: Interval, cursor: int, end: int, pages: nat, t: int)
    requires !interval.Unsupported?
    decreases pages
  {
    var step := StepOf(interval);
    pages > 0
    && (Behind(fetch, step, cursor, end, t)
        || (GoesOn(fetch, step, cursor, end) && (Page(fetch, step, cursor, end) == [] || !interval.OneDay?)
            && Skipped(fetch, interval, Next(fetch, step, cursor, end), end, pages - 1, t)))
  }

  /** The bars up to `covered` a run does not pass over. */
  function Kept(fetch: Fetch, interval: Interval, cursor: int, end: int, pages: nat, bars: Bars, covered: int): Bars
    requires !interval.Unsupported?
  {
    map t | t in bars && cursor <= t <= covered && !Skipped(fetch, interval, cursor, end, pages, t) :: bars[t]
  }

  // ----- enough pages

  lemma Times(a: int, b: int, step: int)
    requires a <= b && step > 0
    ensures a * step <= b * step
  {
    NotPositive(a - b, step);
    assert (a - b) * step == a * step - b * step;
  }

  /** Bars from the cursor on lie no earlier than `target`. */
  ghost predicate NoneBefore(bars: Bars, cursor: int, end: int, target: int) {
    forall t :: t in bars && cursor <= t <= end ==> target <= t
  }

  /**
   A page either passes `cap` bar positions or leaves no bar before the last of them, and then the next page passes
   them all.
   */
  lemma PageGains(page: seq<PricePoint>, bars: Bars, cap: int, step: int, cursor: int, end: int, floor: int)
    requires step > 0 && 1 <= cap <= PAGE_BARS && floor <= cursor && KeyedByTime(bars)
    requires IsEarliest(page, bars, cursor, WindowEnd(cursor, step, end))
    requires forall p :: p in page ==> cursor <= p.timestamp <= WindowEnd(cursor, step, end)
    requires forall t :: t in bars && cursor <= t <= WindowEnd(cursor, step, end) && t < cursor + cap * step ==>
      bars[t] in page
    requires var next := NextCursor(page, WindowEnd(cursor, step, end), step);
             if page == [] then WindowEnd(cursor, step, end) < end else next <= end
    ensures var next := NextCursor(page, WindowEnd(cursor, step, end), step);
            && (NoneBefore(bars, cursor, end, floor + cap * step - step) ==> floor + cap * step <= next)
            && (next < floor + cap * step ==> NoneBefore(bars, next, end, floor + cap * step - step))
  {
    var pageEnd := WindowEnd(cursor, step, end);
    Times(cap, PAGE_BARS, step);
    CursorMoves(page, cursor, pageEnd, step);
    if page != [] {
      var latest := LatestIsThere(page);
      assert latest.timestamp in bars;
    }
  }

  // ----- the whole range

  function Max(a: int, b: int): int {
    if a <= b then b else a
  }

  /** A source of the bars of a grid. */
  ghost predicate Source(fetch: Fetch, bars: Bars, origin: int, step: int, cap: int) {
    && 1 <= cap <= PAGE_BARS && step > 0
    && KeyedByTime(bars) && AllOnGrid(bars, origin, step)
    && Honest(fetch, bars) && Generous(fetch, bars, cap, step)
  }

  /** One page of a run: what it holds, where it leaves the cursor, how far it gets. */
  lemma PageOfRun(fetch: Fetch, bars: Bars, origin: int, step: int, end: int, cap: int, cursor: int, floor: int)
    requires Source(fetch, bars, origin, step, cap) && floor <= cursor
    ensures var next := Next(fetch, step, cursor, end);
            && ByTime(Page(fetch, step, cursor, end))
                 == Between(bars, cursor, Min(next - 1, WindowEnd(cursor, step, end)))
            && (if GoesOn(fetch, step, cursor, end) then cursor <= next else end < next)
            && (GoesOn(fetch, step, cursor, end) ==>
                  && (NoneBefore(bars, cursor, end, floor + cap * step - step) ==> floor + cap * step <= next)
                  && (next < floor + cap * step ==> NoneBefore(bars, next, end, floor + cap * step - step)))
  {
    hide ByTime, Between, NoneBefore, IsEarliest, AllOnGrid, KeyedByTime, Honest, Generous;
    PageFacts(fetch, bars, cap, step, cursor, end);
    CursorMoves(Page(fetch, step, cursor, end), cursor, WindowEnd(cursor, step, end), step);
    PageIs(fetch, bars, origin, step, end, cursor);
    if GoesOn(fetch, step, cursor, end) {
      PageGains(Page(fetch, step, cursor, end), bars, cap, step, cursor, end, floor);
    }
  }

  /** A run passes over nothing before its cursor. */
  lemma {:induction false} SkippedIsLater(fetch: Fetch, interval: Interval, cursor: int, end: int, pages: nat, t: int)
    requires !interval.Unsupported? && Skipped(fetch, interval, cursor, end, pages, t) && t <= end
    ensures cursor < t
    decreases pages
  {
    hide StepOf, Page, Next;
    var step := StepOf(interval);
    if !Behind(fetch, step, cursor, end, t) {
      NextIsLater(fetch, step, cursor, end);
      SkippedIsLater(fetch, interval, Next(fetch, step, cursor, end), end, pages - 1, t);
    }
  }

  lemma OneLess(floor: int, rounds: nat, gain: int)
    requires rounds > 0
    ensures (floor + gain) + (rounds - 1) * gain == floor + rounds * gain
  {
  }

  /**
   A run holds exactly the bars from its cursor up to some instant that it does not pass over, wherever the bars lie,
   and that instant is the end when the pages suffice: two pages always gain at least as much as one generous page.
   */
  lemma {:induction false} CollectedIs(
    fetch: Fetch, bars: Bars, origin: int, interval: Interval, end: int, cap: int, cursor: int, pages: nat, floor: int,
    rounds: nat, pending: bool)
    returns (covered: int)
    requires interval.OneMinute? || interval.FiveMinutes?
    requires Source(fetch, bars, origin, StepOf(interval), cap) && floor <= cursor
    requires pending ==> NoneBefore(bars, cursor, end, floor + cap * StepOf(interval) - StepOf(interval))
    ensures covered <= end
    ensures ByTime(Collected(fetch, interval, cursor, end, pages))
      == Kept(fetch, interval, cursor, end, pages, bars, covered)
    ensures 2 * rounds <= pages + (if pending then 1 else 0) && end < floor + rounds * (cap * StepOf(interval)) ==>
              covered == end
    decreases pages
  {
    hide ByTime, NoneBefore, Source, Page, Next, GoesOn, StepOf, Kept, Between;
    var step := StepOf(interval);
    var gain := cap * step;
    if pages == 0 {
      covered := Min(cursor - 1, end);
      NothingKept(fetch, interval, cursor, end, bars, covered);
    } else {
      var page, next := Page(fetch, step, cursor, end), Next(fetch, step, cursor, end);
      PageOfRun(fetch, bars, origin, step, end, cap, cursor, floor);
      if GoesOn(fetch, step, cursor, end) {
        var passes := floor + gain <= next;
        var nextRounds := if passes && rounds > 0 then rounds - 1 else rounds;
        if passes && rounds > 0 {
          OneLess(floor, rounds, gain);
        }
        var rest := CollectedIs(fetch, bars, origin, interval, end, cap, next, pages - 1,
                                if passes then floor + gain else floor, nextRounds, !passes);
        covered := Max(Min(next - 1, end), rest);
        ByTimeConcat(page, Collected(fetch, interval, next, end, pages - 1));
        KeptJoined(fetch, interval, cursor, end, pages, bars, rest);
        if rounds == 0 && end < floor {
          NoPageBehindTheEnd(fetch, step, cursor, end);
        }
      } else {
        covered := end;
        LastKept(fetch, interval, cursor, end, pages, bars);
        assert page + [] == page;
      }
    }
  }

  lemma NothingKept(fetch: Fetch, interval: Interval, cursor: int, end: int, bars: Bars, covered: int)
    requires !interval.Unsupported? && covered < cursor
    ensures ByTime([]) == Kept(fetch, interval, cursor, end, 0, bars, covered)
  {
  }

  /** What the first page keeps and what the pages after it keep. */
  lemma KeptJoined(fetch: Fetch, interval: Interval, cursor: int, end: int, pages: nat, bars: Bars, rest: int)
    requires (interval.OneMinute? || interval.FiveMinutes?) && pages > 0 && rest <= end
    requires GoesOn(fetch, StepOf(interval), cursor, end) && cursor <= Next(fetch, StepOf(interval), cursor, end)
    ensures var step := StepOf(interval);
            var next := Next(fetch, step, cursor, end);
            Between(bars, cursor, Min(next - 1, WindowEnd(cursor, step, end)))
              + Kept(fetch, interval, next, end, pages - 1, bars, rest)
              == Kept(fetch, interval, cursor, end, pages, bars, Max(Min(next - 1, end), rest))
  {
    hide StepOf, Page, Next, GoesOn, Skipped;
    var step := StepOf(interval);
    var next := Next(fetch, step, cursor, end);
    forall t | t in bars && t < next && t <= end ensures !Skipped(fetch, interval, next, end, pages - 1, t) {
      if Skipped(fetch, interval, next, end, pages - 1, t) {
        SkippedIsLater(fetch, interval, next, end, pages - 1, t);
      }
    }
    var a := Between(bars, cursor, Min(next - 1, WindowEnd(cursor, step, end)));
    var b := Kept(fetch, interval, next, end, pages - 1, bars, rest);
    var c := Kept(fetch, interval, cursor, end, pages, bars, Max(Min(next - 1, end), rest));
    forall t ensures (t in a + b <==> t in c) && (t in a + b ==> (a + b)[t] == c[t]) {
      SkippedStep(fetch, interval, cursor, end, pages, t);
    }
  }

  lemma LastKept(fetch: Fetch, interval: Interval, cursor: int, end: int, pages: nat, bars: Bars)
    requires !interval.Unsupported? && pages > 0 && !GoesOn(fetch, StepOf(interval), cursor, end)
    requires end < Next(fetch, StepOf(interval), cursor, end)
    ensures var step := StepOf(interval);
            Between(bars, cursor, Min(Next(fetch, step, cursor, end) - 1, WindowEnd(cursor, step, end)))
              == Kept(fetch, interval, cursor, end, pages, bars, end)
  {
    hide StepOf, Page, Next, GoesOn;
  }

  lemma NoPageBehindTheEnd(fetch: Fetch, step: int, cursor: int, end: int)
    requires step > 0 && end < cursor
    ensures !GoesOn(fetch, step, cursor, end)
  {
    if p :| p in Page(fetch, step, cursor, end) {
    }
  }

  lemma SortedOutput(output: seq<PricePoint>)
    ensures Increasing(Sorted(ByTime(output))) && ByTime(Sorted(ByTime(output))) == ByTime(output)
  {
    ByTimeContents(output);
    SortedIsTheRing(ByTime(output));
  }

  /**
   From a source whose bars lie on one grid, at whatever offset from the start: the history is a prefix of the range
   but for the bars the run passes over, and reaches the end when the range is shorter than 32 generous pages.
   */
  lemma HistoryIs(fetch: Fetch, bars: Bars, interval: Interval, start: int, origin: int, end: int, cap: int)
    returns (covered: int)
    requires interval.OneMinute? || interval.FiveMinutes?
    requires Source(fetch, bars, origin, StepOf(interval), cap)
    ensures covered <= end
    ensures ByTime(History(fetch, interval, start, end)) == Kept(fetch, interval, start, end, MAX_PAGES, bars, covered)
    ensures end - start < 32 * (cap * StepOf(interval)) ==> covered == end
  {
    hide ByTime, Kept, Collected, Source;
    covered := CollectedIs(fetch, bars, origin, interval, end, cap, start, MAX_PAGES, start, 32, false);
    SortedOutput(Collected(fetch, interval, start, end, MAX_PAGES));
  }

  /** A range the pages suffice for is fetched completely exactly when the run passes over none of its bars. */
  lemma CompleteIffNothingSkipped(fetch: Fetch, bars: Bars, interval: Interval, start: int, origin: int, end: int,
                                  cap: int)
    requires interval.OneMinute? || interval.FiveMinutes?
    requires Source(fetch, bars, origin, StepOf(interval), cap) && end - start < 32 * (cap * StepOf(interval))
    ensures ByTime(History(fetch, interval, start, end)) == Between(bars, start, end)
      <==> forall t :: t in bars && start <= t <= end ==> !Skipped(fetch, interval, start, end, MAX_PAGES, t)
  {
    hide ByTime, History, Skipped, Source;
    var _ := HistoryIs(fetch, bars, interval, start, origin, end, cap);
    if t :| t in bars && start <= t <= end && Skipped(fetch, interval, start, end, MAX_PAGES, t) {
      assert t !in Kept(fetch, interval, start, end, MAX_PAGES, bars, end);
      assert t in Between(bars, start, end);
    }
  }

  // ----- which bars a run passes over

  /**
   The cursor is a bar position, or past the end, or it is the start and the bar position that would fall
   between the first two windows lies behind the end. Bar positions are `offset` after the start.
   */
  ghost predicate Aligned(start: int, offset: int, step: int, end: int, cursor: int) {
    || OnGrid(cursor, start + offset, step)
    || end < cursor
    || (cursor == start && end < start + (PAGE_BARS - 1) * step + offset)
  }

  /** Between the end of an aligned window and the next cursor there is no bar of the range. */
  lemma NothingBehindTheWindow(bars: Bars, start: int, offset: int, step: int, end: int, cursor: int, t: int)
    requires 0 <= offset < step && AllOnGrid(bars, start + offset, step) && Aligned(start, offset, step, end, cursor)
    requires t in bars && WindowEnd(cursor, step, end) < t <= end
    ensures WindowEnd(cursor, step, end) + step <= t
  {
    var origin, pageEnd := start + offset, WindowEnd(cursor, step, end);
    if OnGrid(cursor, origin, step) {
      NextOnGrid(cursor, origin, step, PAGE_BARS - 1);
      GridGap(pageEnd, t, origin, step);
    } else {
      OriginOnGrid(origin, step);
      NextOnGrid(origin, origin, step, PAGE_BARS - 1);
      GridGap(t, origin + (PAGE_BARS - 1) * step, origin, step);
    }
  }

  lemma OriginOnGrid(origin: int, step: int)
    ensures OnGrid(origin, origin, step)
  {
    assert origin == origin + 0 * step;
  }

  lemma AlignedNext(fetch: Fetch, bars: Bars, start: int, offset: int, step: int, end: int, cursor: int)
    requires 0 <= offset < step && AllOnGrid(bars, start + offset, step) && Aligned(start, offset, step, end, cursor)
    requires IsEarliest(Page(fetch, step, cursor, end), bars, cursor, WindowEnd(cursor, step, end))
    requires GoesOn(fetch, step, cursor, end)
    ensures Aligned(start, offset, step, end, Next(fetch, step, cursor, end))
  {
    var origin, page, pageEnd := start + offset, Page(fetch, step, cursor, end), WindowEnd(cursor, step, end);
    if page != [] {
      var p := LatestIsThere(page);
      NextOnGrid(p.timestamp, origin, step, 1);
    }
    if OnGrid(cursor, origin, step) {
      NextOnGrid(cursor, origin, step, PAGE_BARS - 1);
      NextOnGrid(cursor + (PAGE_BARS - 1) * step, origin, step, 1);
    }
    hide OnGrid;
  }

  /** From an aligned cursor no bar of the range is passed over. */
  lemma {:induction false} AlignedSkipsNothing(fetch: Fetch, bars: Bars, start: int, offset: int, interval: Interval,
                                               end: int, cursor: int, pages: nat, t: int)
    requires interval.OneMinute? || interval.FiveMinutes?
    requires 0 <= offset < StepOf(interval) && AllOnGrid(bars, start + offset, StepOf(interval)) && Honest(fetch, bars)
    requires Aligned(start, offset, StepOf(interval), end, cursor) && t in bars && t <= end
    ensures !Skipped(fetch, interval, cursor, end, pages, t)
    decreases pages
  {
    hide StepOf, AllOnGrid, Aligned, IsEarliest;
    var step := StepOf(interval);
    if pages > 0 {
      CursorMoves(Page(fetch, step, cursor, end), cursor, WindowEnd(cursor, step, end), step);
      if WindowEnd(cursor, step, end) < t {
        NothingBehindTheWindow(bars, start, offset, step, end, cursor, t);
      }
      if GoesOn(fetch, step, cursor, end) {
        AlignedNext(fetch, bars, start, offset, step, end, cursor);
        AlignedSkipsNothing(fetch, bars, start, offset, interval, end, Next(fetch, step, cursor, end), pages - 1, t);
      }
    }
  }

  /** A page that moves the cursor by a whole window, which keeps it off the grid. */
  predicate KeepsOff(fetch: Fetch, step: int, cursor: int, end: int) {
    Next(fetch, step, cursor, end) == cursor + PAGE_BARS * step
  }

  predicate KeepOff(fetch: Fetch, step: int, cursor: int, end: int, windows: nat)
    decreases windows
  {
    windows == 0 || (KeepsOff(fetch, step, cursor, end)
                     && KeepOff(fetch, step, cursor + PAGE_BARS * step, end, windows - 1))
  }

  /** The bar position between the given window and the one after it. */
  function PositionBehind(cursor: int, offset: int, step: int, windows: int): int {
    cursor + offset + (windows * PAGE_BARS - 1) * step
  }

  /** The bar position behind one of the first windows, all of which keep the cursor off the grid up to there. */
  ghost predicate PassedOver(fetch: Fetch, offset: int, step: int, cursor: int, end: int, pages: nat, t: int) {
    exists j: nat ::
      1 <= j <= pages && KeepOff(fetch, step, cursor, end, j) && t == PositionBehind(cursor, offset, step, j)
  }

  /**
   A full window keeps the cursor off the grid exactly when its page is empty or reaches up to the last bar position
   of the window.
   */
  lemma KeepsOffIff(fetch: Fetch, bars: Bars, offset: int, step: int, end: int, cursor: int)
    requires 0 < offset < step && AllOnGrid(bars, cursor + offset, step) && KeyedByTime(bars)
    requires IsEarliest(Page(fetch, step, cursor, end), bars, cursor, WindowEnd(cursor, step, end))
    requires cursor + (PAGE_BARS - 1) * step <= end
    ensures KeepsOff(fetch, step, cursor, end) <==>
      Page(fetch, step, cursor, end) == []
        || cursor + offset + (PAGE_BARS - 2) * step in ByTime(Page(fetch, step, cursor, end))
  {
    hide OnGrid, ByTime, Page, AllOnGrid;
    var page, last := Page(fetch, step, cursor, end), cursor + offset + (PAGE_BARS - 2) * step;
    WithinItsWindow(fetch, step, cursor, end);
    PageContents(page, bars, cursor, WindowEnd(cursor, step, end));
    if page != [] {
      var p := LatestIsThere(page);
      LastPosition(bars, cursor, offset, step, p.timestamp);
    }
  }

  lemma WithinItsWindow(fetch: Fetch, step: int, cursor: int, end: int)
    ensures forall p :: p in Page(fetch, step, cursor, end) ==> cursor <= p.timestamp <= WindowEnd(cursor, step, end)
  {
  }

  /** A bar in a full window lies at its last bar position or a step before it. */
  lemma LastPosition(bars: Bars, cursor: int, offset: int, step: int, t: int)
    requires 0 < offset < step && AllOnGrid(bars, cursor + offset, step) && t in bars
      && t <= cursor + (PAGE_BARS - 1) * step
    ensures var last := cursor + offset + (PAGE_BARS - 2) * step;
            t == last || t + step <= last
  {
    var origin, last := cursor + offset, cursor + offset + (PAGE_BARS - 2) * step;
    OriginOnGrid(origin, step);
    NextOnGrid(origin, origin, step, PAGE_BARS - 2);
    if t < last {
      GridGap(t, last, origin, step);
    } else if last < t {
      GridGap(last, t, origin, step);
    }
  }

  /** The one bar position behind an off-grid window. */
  lemma OnePositionBehind(origin: int, offset: int, step: int, cursor: int, t: int)
    requires 0 < offset < step && OnGrid(cursor + offset, origin, step) && OnGrid(t, origin, step)
    requires cursor + (PAGE_BARS - 1) * step < t < cursor + PAGE_BARS * step
    ensures t == PositionBehind(cursor, offset, step, 1)
  {
    var last := PositionBehind(cursor, offset, step, 1);
    NextOnGrid(cursor + offset, origin, step, PAGE_BARS - 1);
    hide OnGrid;
    if last < t {
      GridGap(last, t, origin, step);
    }
    if t < last {
      GridGap(t, last, origin, step);
    }
  }

  lemma SkippedStep(fetch: Fetch, interval: Interval, cursor: int, end: int, pages: nat, t: int)
    requires interval.OneMinute? || interval.FiveMinutes?
    ensures Skipped(fetch, interval, cursor, end, pages, t) <==>
      && pages > 0
      && (Behind(fetch, StepOf(interval), cursor, end, t)
          || (GoesOn(fetch, StepOf(interval), cursor, end)
              && Skipped(fetch, interval, Next(fetch, StepOf(interval), cursor, end), end, pages - 1, t)))
  {
    hide StepOf, Page, Next, GoesOn, Behind;
  }

  /** What is behind an off-grid window, and that a run goes on over one that keeps off the grid. */
  lemma FirstOffWindow(fetch: Fetch, bars: Bars, origin: int, offset: int, step: int, end: int, cursor: int, t: int)
    requires 0 < offset < step && AllOnGrid(bars, origin, step) && OnGrid(cursor + offset, origin, step)
    requires t in bars && t <= end
    ensures Behind(fetch, step, cursor, end, t) <==>
      KeepsOff(fetch, step, cursor, end) && t == PositionBehind(cursor, offset, step, 1)
    ensures KeepsOff(fetch, step, cursor, end) && cursor + PAGE_BARS * step <= t ==> GoesOn(fetch, step, cursor, end)
  {
    hide Page, OnGrid;
    if Behind(fetch, step, cursor, end, t) {
      OnePositionBehind(origin, offset, step, cursor, t);
    }
  }

  /** A page that puts the cursor back on the grid. */
  lemma BackOnGrid(fetch: Fetch, bars: Bars, origin: int, step: int, end: int, cursor: int)
    requires step > 0 && AllOnGrid(bars, origin, step) && Honest(fetch, bars)
    requires GoesOn(fetch, step, cursor, end) && !KeepsOff(fetch, step, cursor, end)
    ensures OnGrid(Next(fetch, step, cursor, end), origin, step)
  {
    hide OnGrid;
    var page := Page(fetch, step, cursor, end);
    assert IsEarliest(page, bars, cursor, WindowEnd(cursor, step, end));
    if page != [] {
      var p := LatestIsThere(page);
      NextOnGrid(p.timestamp, origin, step, 1);
    }
  }

  lemma LaterWindows(fetch: Fetch, offset: int, step: int, end: int, cursor: int, pages: nat, t: int)
    requires KeepsOff(fetch, step, cursor, end) && pages > 0
    ensures PassedOver(fetch, offset, step, cursor, end, pages, t) <==>
      t == PositionBehind(cursor, offset, step, 1)
        || PassedOver(fetch, offset, step, cursor + PAGE_BARS * step, end, pages - 1, t)
  {
    hide KeepsOff;
    var after := cursor + PAGE_BARS * step;
    if j: nat :|
      1 <= j <= pages && KeepOff(fetch, step, cursor, end, j) && t == PositionBehind(cursor, offset, step, j) {
      if j > 1 {
        PositionShifts(cursor, offset, step, j);
        assert KeepOff(fetch, step, after, end, j - 1);
      }
    }
    if t == PositionBehind(cursor, offset, step, 1) {
      assert KeepOff(fetch, step, after, end, 0);
      assert KeepOff(fetch, step, cursor, end, 1);
    }
    if j: nat :|
      1 <= j <= pages - 1 && KeepOff(fetch, step, after, end, j) && t == PositionBehind(after, offset, step, j) {
      PositionShifts(cursor, offset, step, j + 1);
      assert KeepOff(fetch, step, cursor, end, j + 1);
    }
  }

  lemma PositionShifts(cursor: int, offset: int, step: int, j: nat)
    requires j > 1
    ensures PositionBehind(cursor, offset, step, j) == PositionBehind(cursor + PAGE_BARS * step, offset, step, j - 1)
  {
    assert (j * PAGE_BARS - 1) * step == PAGE_BARS * step + ((j - 1) * PAGE_BARS - 1) * step;
  }

  /**
   Exactly which bars a run from an off-grid cursor passes over: the one behind its j-th window, for as long as all
   windows so far keep the cursor off the grid. One page that stops short of the last position of its window ends that.
   */
  lemma {:induction false} SkippedIff(fetch: Fetch, bars: Bars, origin: int, offset: int, interval: Interval, end: int,
                                      cursor: int, pages: nat, t: int)
    requires interval.OneMinute? || interval.FiveMinutes?
    requires 0 < offset < StepOf(interval) && AllOnGrid(bars, origin, StepOf(interval)) && Honest(fetch, bars)
    requires OnGrid(cursor + offset, origin, StepOf(interval)) && t in bars && t <= end
    ensures Skipped(fetch, interval, cursor, end, pages, t) <==>
      PassedOver(fetch, offset, StepOf(interval), cursor, end, pages, t)
    decreases pages
  {
    hide StepOf, AllOnGrid, Honest, OnGrid, Page, Next, GoesOn, Behind, Skipped;
    var step := StepOf(interval);
    SkippedStep(fetch, interval, cursor, end, pages, t);
    if pages > 0 {
      var next, after := Next(fetch, step, cursor, end), cursor + PAGE_BARS * step;
      FirstOffWindow(fetch, bars, origin, offset, step, end, cursor, t);
      NextOnGrid(cursor + offset, origin, step, PAGE_BARS);
      if KeepsOff(fetch, step, cursor, end) {
        SkippedIff(fetch, bars, origin, offset, interval, end, after, pages - 1, t);
        LaterWindows(fetch, offset, step, end, cursor, pages, t);
        if Skipped(fetch, interval, after, end, pages - 1, t) {
          SkippedIsLater(fetch, interval, after, end, pages - 1, t);
        }
      } else if GoesOn(fetch, step, cursor, end) {
        BackOnGrid(fetch, bars, origin, step, end, cursor);
        AlignedSkipsNothing(fetch, bars, origin, 0, interval, end, next, pages - 1, t);
      }
    }
  }

  // ----- when a history is complete

  /**
   The exact condition for one source whose bars lie off the grid of the start: none of them lies behind a window up
   to which every page was empty or full to the last bar position.
   */
  lemma OffGridCompleteIff(fetch: Fetch, bars: Bars, interval: Interval, start: int, offset: int, end: int, cap: int)
    requires interval.OneMinute? || interval.FiveMinutes?
    requires 0 < offset < StepOf(interval) && Source(fetch, bars, start + offset, StepOf(interval), cap)
    requires end - start < 32 * (cap * StepOf(interval))
    ensures ByTime(History(fetch, interval, start, end)) == Between(bars, start, end)
      <==> forall t :: t in bars && start <= t <= end ==>
        !PassedOver(fetch, offset, StepOf(interval), start, end, MAX_PAGES, t)
  {
    hide StepOf, History, ByTime, Between, KeyedByTime, AllOnGrid, OnGrid, Honest, Generous, Skipped, PassedOver;
    CompleteIffNothingSkipped(fetch, bars, interval, start, start + offset, end, cap);
    OriginOnGrid(start + offset, StepOf(interval));
    forall t | t in bars && start <= t <= end
      ensures Skipped(fetch, interval, start, end, MAX_PAGES, t)
        <==> PassedOver(fetch, offset, StepOf(interval), start, end, MAX_PAGES, t)
    {
      SkippedIff(fetch, bars, start + offset, offset, interval, end, start, MAX_PAGES, t);
    }
  }

  /** Every source of bars `offset` after the start that is honest and generous is fetched completely. */
  ghost predicate AlwaysComplete(interval: Interval, start: int, offset: int, end: int, cap: int)
    requires !interval.Unsupported?
  {
    forall fetch: Fetch, bars: Bars ::
      KeyedByTime(bars) && AllOnGrid(bars, start + offset, StepOf(interval))
      && Honest(fetch, bars) && Generous(fetch, bars, cap, StepOf(interval)) ==>
        ByTime(History(fetch, interval, start, end)) == Between(bars, start, end)
  }

  /** A source whose whole history is one bar. */
  function OneBar(p: PricePoint): Fetch {
    (first, last) => if first <= p.timestamp <= last then [p] else []
  }

  lemma OneBarIsHonest(p: PricePoint, cap: int, step: int)
    ensures Honest(OneBar(p), map[p.timestamp := p]) && Generous(OneBar(p), map[p.timestamp := p], cap, step)
  {
    var bars, fetch := map[p.timestamp := p], OneBar(p);
    forall first, last ensures IsEarliest(Within(fetch(first, last), first, last), bars, first, last) {
      assert fetch(first, last) == if first <= p.timestamp <= last then [p] else [];
    }
  }

  lemma NextIsLater(fetch: Fetch, step: int, cursor: int, end: int)
    requires step > 0
    ensures forall p :: p in Page(fetch, step, cursor, end) ==> cursor <= p.timestamp
    ensures GoesOn(fetch, step, cursor, end) ==> cursor <= Next(fetch, step, cursor, end)
  {
    CursorMoves(Page(fetch, step, cursor, end), cursor, WindowEnd(cursor, step, end), step);
  }

  /** Nothing before a cursor is collected from it. */
  lemma {:induction false} NothingEarlier(fetch: Fetch, interval: Interval, cursor: int, end: int, pages: nat)
    requires !interval.Unsupported?
    ensures forall p :: p in Collected(fetch, interval, cursor, end, pages) ==> cursor <= p.timestamp
    decreases pages
  {
    hide StepOf, Page, Next, GoesOn;
    if pages > 0 {
      var step := StepOf(interval);
      NextIsLater(fetch, step, cursor, end);
      NothingEarlier(fetch, interval, Next(fetch, step, cursor, end), end, pages - 1);
    }
  }

  /** The bar at the first position behind the first window, when the start is off the grid and nothing precedes it. */
  lemma OffGridBarIsLost(p: PricePoint, interval: Interval, start: int, offset: int, end: int)
    requires !interval.Unsupported? && 0 < offset < StepOf(interval)
    requires p.timestamp == start + (PAGE_BARS - 1) * StepOf(interval) + offset && p.timestamp <= end
    ensures ByTime(History(OneBar(p), interval, start, end)) != Between(map[p.timestamp := p], start, end)
  {
    hide StepOf, Collected, Sorted;
    var step, fetch := StepOf(interval), OneBar(p);
    FirstWindowIsEmpty(p, interval, start, offset, end);
    NothingEarlier(fetch, interval, start + PAGE_BARS * step, end, MAX_PAGES - 1);
    var output := Collected(fetch, interval, start, end, MAX_PAGES);
    SortedOutput(output);
    ByTimeContents(output);
    assert p.timestamp !in ByTime(output);
  }

  lemma FirstWindowIsEmpty(p: PricePoint, interval: Interval, start: int, offset: int, end: int)
    requires !interval.Unsupported? && 0 < offset < StepOf(interval)
    requires p.timestamp == start + (PAGE_BARS - 1) * StepOf(interval) + offset && p.timestamp <= end
    ensures Collected(OneBar(p), interval, start, end, MAX_PAGES)
         == Collected(OneBar(p), interval, start + PAGE_BARS * StepOf(interval), end, MAX_PAGES - 1)
  {
    hide StepOf, Collected;
    var step := StepOf(interval);
    FirstPage(OneBar(p), interval, start, end, MAX_PAGES);
    assert Page(OneBar(p), step, start, end) == [];
    assert Next(OneBar(p), step, start, end) == start + PAGE_BARS * step;
  }

  /**
   Over ranges the page count suffices for, every source is fetched completely exactly when the bars lie on the
   grid of the start or the first position behind the first window is past the end.
   */
  lemma HistoryIsCompleteIff(interval: Interval, start: int, offset: int, end: int, cap: int)
    requires interval.OneMinute? || interval.FiveMinutes?
    requires 0 <= offset < StepOf(interval) && 1 <= cap <= PAGE_BARS && end - start < 32 * (cap * StepOf(interval))
    ensures AlwaysComplete(interval, start, offset, end, cap)
       <==> (offset == 0 || end < start + (PAGE_BARS - 1) * StepOf(interval) + offset)
  {
    hide StepOf, History, ByTime, Between, KeyedByTime, AllOnGrid, OnGrid, Honest, Generous, OneBar, Skipped;
    var step := StepOf(interval);
    if offset == 0 || end < start + (PAGE_BARS - 1) * step + offset {
      OriginOnGrid(start, step);
      forall fetch: Fetch, bars: Bars | KeyedByTime(bars) && AllOnGrid(bars, start + offset, step)
                                        && Honest(fetch, bars) && Generous(fetch, bars, cap, step)
        ensures ByTime(History(fetch, interval, start, end)) == Between(bars, start, end)
      {
        CompleteIffNothingSkipped(fetch, bars, interval, start, start + offset, end, cap);
        forall t | t in bars && start <= t <= end ensures !Skipped(fetch, interval, start, end, MAX_PAGES, t) {
          AlignedSkipsNothing(fetch, bars, start, offset, interval, end, start, MAX_PAGES, t);
        }
      }
    } else {
      var p := PricePoint(Symbol("BTC"), start + (PAGE_BARS - 1) * step + offset, 1.0, "", false, interval);
      OneBarIsHonest(p, cap, step);
      OneBarIsKeyed(p, start + offset, step, PAGE_BARS - 1);
      OffGridBarIsLost(p, interval, start, offset, end);
    }
  }

  lemma OneBarIsKeyed(p: PricePoint, origin: int, step: int, n: int)
    requires p.timestamp == origin + n * step
    ensures KeyedByTime(map[p.timestamp := p]) && AllOnGrid(map[p.timestamp := p], origin, step)
  {
  }

  /** A daily range within one window is complete wherever its bars lie, from a source that returns the whole window. */
  lemma DailyHistoryIs(fetch: Fetch, bars: Bars, start: int, end: int)
    requires KeyedByTime(bars) && Honest(fetch, bars) && Generous(fetch, bars, PAGE_BARS, DAY)
    requires end <= start + (PAGE_BARS - 1) * DAY
    ensures ByTime(History(fetch, OneDay, start, end)) == Between(bars, start, end)
  {
    hide ByTime, Collected, KeyedByTime, Honest, Generous, IsEarliest;
    var page := Page(fetch, DAY, start, end);
    PageFacts(fetch, bars, PAGE_BARS, DAY, start, end);
    PageContents(page, bars, start, end);
    FirstPage(fetch, OneDay, start, end, MAX_PAGES);
    SortedOutput(page);
    assert ByTime(page) == Between(bars, start, end);
  }

  // ----- the loop

  /** One turn. The check that a page moves the cursor is left out: CursorMoves shows that it never fails. */
  method OnePage(fetch: Fetch, interval: Interval, cursor: int, end: int, output: seq<PricePoint>)
    returns (next: int, grown: seq<PricePoint>, more: bool)
    requires !interval.Unsupported?
    ensures var step := StepOf(interval);
            && grown == output + Page(fetch, step, cursor, end)
            && (more <==>
                GoesOn(fetch, step, cursor, end) && (Page(fetch, step, cursor, end) == [] || !interval.OneDay?))
            && (more ==> next == Next(fetch, step, cursor, end))
  {
    hide StepOf, Within;
    var step := StepOf(interval);
    var pageEnd := Min(end, cursor + step * (PAGE_BARS - 1));
    var page := Within(fetch(cursor, pageEnd), cursor, pageEnd);
    if page == [] {
      return pageEnd + step, output, pageEnd < end;
    }
    if interval.OneDay? {
      return cursor, output + page, false;
    }
    next := LatestOf(page) + step;
    if next > pageEnd {
      next := pageEnd + step;
    }
    return next, output + page, next <= end;
  }

  lemma NoMorePages(fetch: Fetch, interval: Interval, cursor: int, end: int, output: seq<PricePoint>)
    requires !interval.Unsupported?
    ensures output + Collected(fetch, interval, cursor, end, 0) == output
  {
  }

  method FetchHistoryPages(fetch: Fetch, interval: Interval, start: int,
                           end: int) returns (result: Option<seq<PricePoint>>)
    ensures result == if interval.Unsupported? then None else Some(History(fetch, interval, start, end))
    ensures result.Some? ==> Increasing(result.value)
  {
    hide StepOf, Page, Next, GoesOn, Collected, Sorted, ByTime, Increasing;
    if interval.Unsupported? {
      return None;
    }
    var cursor, output: seq<PricePoint> := start, [];
    for k := 0 to MAX_PAGES
      invariant output + Collected(fetch, interval, cursor, end, MAX_PAGES - k)
             == Collected(fetch, interval, start, end, MAX_PAGES)
    {
      FirstPage(fetch, interval, cursor, end, MAX_PAGES - k);
      var more;
      cursor, output, more := OnePage(fetch, interval, cursor, end, output);
      if !more {
        assert output == Collected(fetch, interval, start, end, MAX_PAGES);
        break;
      }
    }
    NoMorePages(fetch, interval, cursor, end, output);
    SortedOutput(output);
    result := Some(Sorted(ByTime(output)));
  }
}
