/**
 The quote scheduler: a heap of due times and the polls in flight. The heap is a set of entries from which
 the least is taken; an entry's sequence number breaks ties in the order of entry.
 */
module Scheduler {
  import opened Basics
  import opened SymbolGraph

  const MAX_IN_FLIGHT := 32
  const SHORTEST_INTERVAL := 0.25

  datatype Entry = Entry(dueAt: real, sequence: nat, symbol: Symbol)

  predicate Before(a: Entry, b: Entry) {
    a.dueAt < b.dueAt || (a.dueAt == b.dueAt && a.sequence < b.sequence)
  }

  /** One poll task, known by the entry it was started from. */
  datatype Poll = Poll(entry: Entry)

  /** What a finished poll reports: when it was collected, and its next interval unless it failed. */
  datatype Report = Report(clock: real, interval: real)

  function Waiting(queue: set<Entry>): set<Symbol> {
    set e | e in queue :: e.symbol
  }

  function Polled(inflight: map<Poll, Symbol>): set<Symbol> {
    set p | p in inflight :: inflight[p]
  }

  /** Every scheduled symbol is in the heap or in flight, once in all. */
  ghost predicate Owned(queue: set<Entry>, inflight: map<Poll, Symbol>, symbols: set<Symbol>) {
    && Waiting(queue) !! Polled(inflight)
    && Waiting(queue) + Polled(inflight) == symbols
    && (forall a, b :: a in queue && b in queue && a.symbol == b.symbol ==> a == b)
    && (forall p, q :: p in inflight && q in inflight && inflight[p] == inflight[q] ==> p == q)
  }

  /** Sequence numbers are never used twice. */
  ghost predicate Numbered(queue: set<Entry>, polls: set<Poll>, sequence: nat) {
    && (forall e :: e in queue ==> e.sequence < sequence)
    && (forall p :: p in polls ==> p.entry.sequence < sequence)
    && (forall a, b :: a in queue && b in queue && a.sequence == b.sequence ==> a == b)
    && (forall e, p :: e in queue && p in polls ==> e.sequence != p.entry.sequence)
  }

  /** A heap key is the recorded next refresh of its symbol. */
  ghost predicate Keyed(queue: set<Entry>, due: map<Symbol, real>) {
    forall e :: e in queue ==> e.symbol in due && e.dueAt == due[e.symbol]
  }

  ghost predicate Conserved(queue: set<Entry>, inflight: map<Poll, Symbol>, due: map<Symbol, real>, sequence: nat) {
    Owned(queue, inflight, due.Keys) && Numbered(queue, inflight.Keys, sequence) && Keyed(queue, due)
      && |inflight| <= MAX_IN_FLIGHT
  }

  predicate IsLeast(queue: set<Entry>, least: Entry) {
    least in queue && forall e :: e in queue ==> e == least || Before(least, e)
  }

  /** The entry a heap pop takes. */
  method FindLeast(queue: set<Entry>) returns (least: Entry)
    requires queue != {} && forall a, b :: a in queue && b in queue && a.sequence == b.sequence ==> a == b
    ensures IsLeast(queue, least)
    ensures forall e :: e in queue ==>
      least.dueAt < e.dueAt || (least.dueAt == e.dueAt && least.sequence <= e.sequence)
  {
    least :| least in queue;
    var pending := queue - {least};
    while pending != {}
      invariant pending <= queue && least in queue - pending
      invariant forall e :: e in queue - pending ==> e == least || Before(least, e)
      decreases pending
    {
      var e :| e in pending;
      pending := pending - {e};
      assert e in queue && least in queue && e != least;
      assert e.sequence != least.sequence;
      var lower := if Before(e, least) then e else least;
      forall x | x in queue - pending ensures x == lower || Before(lower, x) {
        assert x == e || x == least || Before(least, x);
      }
      least := lower;
    }
  }

  lemma WaitingOwns(queue: set<Entry>, inflight: map<Poll, Symbol>, symbols: set<Symbol>, e: Entry)
    requires Owned(queue, inflight, symbols) && e in queue
    ensures e.symbol in symbols && e.symbol in Waiting(queue) && forall p :: p in inflight ==> inflight[p] != e.symbol
  {
    assert e.symbol in Waiting(queue);
    forall p | p in inflight ensures inflight[p] != e.symbol {
      assert inflight[p] in Polled(inflight);
    }
  }

  lemma PolledOwns(queue: set<Entry>, inflight: map<Poll, Symbol>, symbols: set<Symbol>, p: Poll)
    requires Owned(queue, inflight, symbols) && p in inflight
    ensures inflight[p] in symbols && forall e :: e in queue ==> e.symbol != inflight[p]
  {
    assert inflight[p] in Polled(inflight);
    forall e | e in queue ensures e.symbol != inflight[p] {
      assert e.symbol in Waiting(queue);
    }
  }

  lemma OwnedWhenStarted(queue: set<Entry>, inflight: map<Poll, Symbol>, symbols: set<Symbol>, e: Entry)
    requires Owned(queue, inflight, symbols) && e in queue && Poll(e) !in inflight
    ensures Owned(queue - {e}, inflight[Poll(e) := e.symbol], symbols)
  {
    WaitingOwns(queue, inflight, symbols, e);
    var started := inflight[Poll(e) := e.symbol];
    assert Polled(started) == Polled(inflight) + {e.symbol} by {
      assert started[Poll(e)] == e.symbol && forall p :: p in inflight ==> started[p] == inflight[p];
    }
    assert Waiting(queue - {e}) == Waiting(queue) - {e.symbol};
    hide Waiting, Polled;
  }

  lemma OwnedWhenFinished(queue: set<Entry>, inflight: map<Poll, Symbol>, symbols: set<Symbol>, p: Poll, entry: Entry)
    requires Owned(queue, inflight, symbols) && p in inflight && entry.symbol == inflight[p]
    ensures Owned(queue + {entry}, inflight - {p}, symbols)
  {
    PolledOwns(queue, inflight, symbols, p);
    var left := inflight - {p};
    assert Polled(left) == Polled(inflight) - {entry.symbol} by {
      assert forall q :: q in left ==> left[q] == inflight[q] && inflight[q] != entry.symbol;
      forall s | s in Polled(inflight) - {entry.symbol} ensures s in Polled(left) {
        var q :| q in inflight && inflight[q] == s;
        assert q in left;
      }
    }
    assert Waiting(queue + {entry}) == Waiting(queue) + {entry.symbol};
    hide Waiting, Polled;
  }

  lemma StartingKeeps(queue: set<Entry>, inflight: map<Poll, Symbol>, due: map<Symbol, real>, sequence: nat, e: Entry)
    requires Conserved(queue, inflight, due, sequence) && e in queue && |inflight| < MAX_IN_FLIGHT
    ensures Poll(e) !in inflight && Conserved(queue - {e}, inflight[Poll(e) := e.symbol], due, sequence)
  {
    hide Owned;
    assert Poll(e).entry.sequence == e.sequence;
    OwnedWhenStarted(queue, inflight, due.Keys, e);
    assert inflight[Poll(e) := e.symbol].Keys == inflight.Keys + {Poll(e)};
  }

  lemma FinishingKeeps(queue: set<Entry>, inflight: map<Poll, Symbol>, due: map<Symbol, real>, sequence: nat, p: Poll,
                       dueAt: real)
    requires Conserved(queue, inflight, due, sequence) && p in inflight
    ensures inflight[p] in due
    ensures Conserved(queue + {Entry(dueAt, sequence, inflight[p])}, inflight - {p}, due[inflight[p] := dueAt],
                      sequence + 1)
  {
    var symbol := inflight[p];
    var entry := Entry(dueAt, sequence, symbol);
    PolledOwns(queue, inflight, due.Keys, p);
    OwnedWhenFinished(queue, inflight, due.Keys, p, entry);
    assert due[symbol := dueAt].Keys == due.Keys;
    assert (inflight - {p}).Keys == inflight.Keys - {p} && |inflight - {p}| <= |inflight|;
    hide Owned;
    NumberedMore(queue, inflight.Keys, sequence, entry, inflight.Keys - {p});
    KeyedMore(queue, due, entry);
    hide Numbered, Keyed;
  }

  lemma NumberedMore(queue: set<Entry>, polls: set<Poll>, sequence: nat, entry: Entry, left: set<Poll>)
    requires Numbered(queue, polls, sequence) && entry.sequence == sequence && left <= polls
    ensures Numbered(queue + {entry}, left, sequence + 1)
  {
  }

  lemma KeyedMore(queue: set<Entry>, due: map<Symbol, real>, entry: Entry)
    requires Keyed(queue, due) && forall e :: e in queue ==> e.symbol != entry.symbol
    ensures Keyed(queue + {entry}, due[entry.symbol := entry.dueAt])
  {
  }

  lemma EnteringKeeps(queue: set<Entry>, inflight: map<Poll, Symbol>, due: map<Symbol, real>, sequence: nat,
                      symbol: Symbol, dueAt: real)
    requires Conserved(queue, inflight, due, sequence) && symbol !in due
    ensures Conserved(queue + {Entry(dueAt, sequence, symbol)}, inflight, due[symbol := dueAt], sequence + 1)
  {
    hide Owned, Numbered, Keyed;
    var entry := Entry(dueAt, sequence, symbol);
    forall e | e in queue ensures e.symbol != symbol {
      WaitingOwns(queue, inflight, due.Keys, e);
    }
    assert due[symbol := dueAt].Keys == due.Keys + {symbol};
    OwnedWhenEntered(queue, inflight, due.Keys, entry);
    NumberedMore(queue, inflight.Keys, sequence, entry, inflight.Keys);
    KeyedMore(queue, due, entry);
  }

  lemma OwnedWhenEntered(queue: set<Entry>, inflight: map<Poll, Symbol>, symbols: set<Symbol>, entry: Entry)
    requires Owned(queue, inflight, symbols) && entry.symbol !in symbols
    ensures Owned(queue + {entry}, inflight, symbols + {entry.symbol})
  {
    forall e | e in queue ensures e.symbol != entry.symbol {
      WaitingOwns(queue, inflight, symbols, e);
    }
    assert Waiting(queue + {entry}) == Waiting(queue) + {entry.symbol};
    hide Waiting, Polled;
  }

  lemma NothingScheduled()
    ensures Conserved({}, map[], map[], 0)
  {
  }

  function FirstDue(symbols: seq<Symbol>, routed: set<Symbol>, remembered: map<Symbol, real>,
                    now: real): (due: map<Symbol, real>)
    ensures due.Keys == set s | s in symbols && s in routed
  {
    map s | s in symbols && s in routed :: if s in remembered then remembered[s] else now
  }

  lemma NothingDue(routed: set<Symbol>, remembered: map<Symbol, real>, now: real)
    ensures FirstDue([], routed, remembered, now) == map[]
  {
  }

  lemma FirstDueMore(symbols: seq<Symbol>, symbol: Symbol, routed: set<Symbol>, remembered: map<Symbol, real>,
                     now: real)
    ensures FirstDue(symbols + [symbol], routed, remembered, now)
         == if symbol !in routed then FirstDue(symbols, routed, remembered, now)
            else FirstDue(symbols, routed, remembered, now)[symbol := if symbol in remembered then remembered[symbol]
                                                            else now]
  {
    var more := FirstDue(symbols + [symbol], routed, remembered, now);
    var less := FirstDue(symbols, routed, remembered, now);
    assert forall s :: s in symbols + [symbol] <==> s in symbols || s == symbol;
    forall s ensures (s in more <==> s in less || (s == symbol && symbol in routed))
      && (s in more && s != symbol ==> more[s] == less[s]) {
    }
  }

  function PollsOf(started: set<Entry>): map<Poll, Symbol> {
    map p: Poll | p in (set e | e in started :: Poll(e)) :: p.entry.symbol
  }

  lemma PollsOfMore(inflight: map<Poll, Symbol>, started: set<Entry>, e: Entry)
    ensures (inflight + PollsOf(started))[Poll(e) := e.symbol] == inflight + PollsOf(started + {e})
  {
    var polls := set x | x in started :: Poll(x);
    assert (set x | x in started + {e} :: Poll(x)) == polls + {Poll(e)};
    hide PollsOf;
    PollsOfIs(started);
    PollsOfIs(started + {e});
  }

  lemma PollsOfIs(started: set<Entry>)
    ensures PollsOf(started).Keys == (set x | x in started :: Poll(x)) && forall p ::
      p in PollsOf(started) ==> PollsOf(started)[p] == p.entry.symbol
  {
  }

  /** Started entries were due and come before everything that still waits. */
  ghost predicate StartedFirst(started: set<Entry>, queue: set<Entry>, now: real) {
    forall e :: e in started ==> e.dueAt <= now && forall waiting :: waiting in queue ==> Before(e, waiting)
  }

  lemma StartedFirstMore(started: set<Entry>, queue: set<Entry>, now: real, least: Entry)
    requires StartedFirst(started, queue, now) && IsLeast(queue, least) && least.dueAt <= now
    ensures StartedFirst(started + {least}, queue - {least}, now)
  {
  }

  /** The started entries left the heap for the map of polls; they were due and before everything that still waits. */
  ghost predicate Launched(queue: set<Entry>, inflight: map<Poll, Symbol>, left: set<Entry>, polls: map<Poll, Symbol>,
                           started: set<Entry>, now: real) {
    started <= queue && left == queue - started && polls == inflight + PollsOf(started)
      && StartedFirst(started, left, now)
  }

  lemma NothingLaunched(queue: set<Entry>, inflight: map<Poll, Symbol>, now: real)
    ensures Launched(queue, inflight, queue, inflight, {}, now)
  {
    assert inflight == inflight + PollsOf({});
  }

  lemma LaunchedMore(queue: set<Entry>, inflight: map<Poll, Symbol>, left: set<Entry>, polls: map<Poll, Symbol>,
                     started: set<Entry>, now: real,
                     least: Entry)
    requires Launched(queue, inflight, left, polls, started, now) && IsLeast(left, least) && least.dueAt <= now
    ensures Launched(queue, inflight, left - {least}, polls[Poll(least) := least.symbol], started + {least}, now)
  {
    StartedFirstMore(started, left, now, least);
    PollsOfMore(inflight, started, least);
    hide StartedFirst, PollsOf;
  }

  /** The finished polls' symbols are due again as reported, all others as before. */
  ghost predicate Rescheduled(before: map<Symbol, real>, after: map<Symbol, real>, inflight: map<Poll, Symbol>,
                              done: set<Poll>,
                              reports: map<Poll, Report>)
    requires done <= inflight.Keys && done <= reports.Keys
  {
    && after.Keys == before.Keys
    && (forall p :: p in done ==> inflight[p] in after && after[inflight[p]] == DueAt(reports[p]))
    && (forall s :: s in after && (forall p :: p in done ==> inflight[p] != s) ==> after[s] == before[s])
  }

  ghost predicate OncePolled(inflight: map<Poll, Symbol>) {
    forall p, q :: p in inflight && q in inflight && inflight[p] == inflight[q] ==> p == q
  }

  lemma RescheduledMore(before: map<Symbol, real>, after: map<Symbol, real>, inflight: map<Poll, Symbol>,
                        done: set<Poll>,
                        reports: map<Poll, Report>, p: Poll)
    requires done <= inflight.Keys && done <= reports.Keys && p in inflight && p in reports && p !in done
      && OncePolled(inflight)
    requires Rescheduled(before, after, inflight, done, reports) && inflight[p] in after
    ensures Rescheduled(before, after[inflight[p] := DueAt(reports[p])], inflight, done + {p}, reports)
  {
    var more := after[inflight[p] := DueAt(reports[p])];
    forall s | s in more && (forall q :: q in done + {p} ==> inflight[q] != s) ensures more[s] == before[s] {
      assert p in done + {p};
      forall q | q in done ensures inflight[q] != s {
        assert q in done + {p};
      }
    }
  }

  /**
   One turn of the loop: the clock when due polls are started, then the polls that have finished after the wait in
   the order in which they are looked at, their reports, and those of them that raise instead.
   */
  datatype Turn = Turn(now: real, order: seq<Poll>, reports: map<Poll, Report>, failing: set<Poll>)

  /** The place of the first poll in flight that raises, or the length. */
  function FirstFailing(order: seq<Poll>, failing: set<Poll>, flying: set<Poll>): (n: nat)
    ensures n <= |order| && forall i :: 0 <= i < n ==> !(order[i] in flying && order[i] in failing)
    ensures n < |order| ==> order[n] in flying && order[n] in failing
  {
    if order == [] || (order[0] in flying && order[0] in failing) then 0
      else 1 + FirstFailing(order[1..], failing, flying)
  }

  /** The polls in flight that are looked at before the `n`th and have a report. */
  function ReportedBefore(turn: Turn, n: nat, flying: set<Poll>): (done: set<Poll>)
    requires n <= |turn.order|
    ensures done <= flying && done <= turn.reports.Keys
    ensures forall p :: p in flying && p in turn.reports ==>
      (p in done <==> exists i :: 0 <= i < n && turn.order[i] == p)
  {
    set p | p in turn.order[..n] && p in flying && p in turn.reports
  }

  class QuoteScheduler {
    var queue: set<Entry>
    var inflight: map<Poll, Symbol>
    var nextRefreshAt: map<Symbol, real>
    var sequence: nat

    ghost predicate Valid()
      reads this
    {
      Conserved(queue, inflight, nextRefreshAt, sequence)
    }

    /** Enters every routed symbol once, at its remembered due time or now. */
    constructor (symbols: seq<Symbol>, routed: set<Symbol>, remembered: map<Symbol, real>, now: real)
      requires forall i, j :: 0 <= i < j < |symbols| ==> symbols[i] != symbols[j]
      ensures Valid() && inflight == map[]
      ensures nextRefreshAt == FirstDue(symbols, routed, remembered, now)
    {
      hide Conserved, FirstDue, Owned, Numbered, Keyed, Waiting, Polled;
      queue, inflight, nextRefreshAt, sequence := {}, map[], map[], 0;
      new;
      NothingScheduled();
      NothingDue(routed, remembered, now);
      for i := 0 to |symbols|
        invariant Valid() && inflight == map[]
        invariant nextRefreshAt == FirstDue(symbols[..i], routed, remembered, now)
      {
        var symbol := symbols[i];
        assert symbols[..i + 1] == symbols[..i] + [symbol];
        FirstDueMore(symbols[..i], symbol, routed, remembered, now);
        if symbol in routed {
          var dueAt := if symbol in remembered then remembered[symbol] else now;
          Enter(symbol, dueAt);
        }
      }
      assert symbols[..|symbols|] == symbols;
    }

    /** Starts due polls, earliest first, until nothing is due or all slots are taken. */
    method Launch(now: real) returns (ghost started: set<Entry>)
      requires Valid()
      modifies this`queue, this`inflight
      ensures Valid() && Launched(old(queue), old(inflight), queue, inflight, started, now)
      ensures forall e :: e in queue ==> e.dueAt > now || |inflight| == MAX_IN_FLIGHT
    {
      hide Conserved, Launched;
      SlotsAreBounded();
      NothingLaunched(queue, inflight, now);
      started := {};
      while queue != {} && |inflight| < MAX_IN_FLIGHT
        invariant |inflight| <= MAX_IN_FLIGHT
        invariant Valid() && Launched(old(queue), old(inflight), queue, inflight, started, now)
        decreases queue
      {
        var least := PopLeast();
        if least.dueAt > now {
          break;
        }
        LaunchedMore(old(queue), old(inflight), queue, inflight, started, now, least);
        Start(least);
        started := started + {least};
      }
    }

    method Enter(symbol: Symbol, dueAt: real)
      requires Valid() && inflight == map[] && symbol !in nextRefreshAt
      modifies this
      ensures Valid() && inflight == map[] && nextRefreshAt == old(nextRefreshAt)[symbol := dueAt]
    {
      hide Conserved;
      EnteringKeeps(queue, inflight, nextRefreshAt, sequence, symbol, dueAt);
      nextRefreshAt := nextRefreshAt[symbol := dueAt];
      queue := queue + {Entry(dueAt, sequence, symbol)};
      sequence := sequence + 1;
    }

    method Start(least: Entry)
      requires Valid() && least in queue && |inflight| < MAX_IN_FLIGHT
      modifies this`queue, this`inflight
      ensures Valid() && |inflight| <= MAX_IN_FLIGHT
      ensures queue == old(queue) - {least} && inflight == old(inflight)[Poll(least) := least.symbol]
    {
      StartingKeeps(queue, inflight, nextRefreshAt, sequence, least);
      hide Owned, Numbered, Keyed;
      queue := queue - {least};
      inflight := inflight[Poll(least) := least.symbol];
    }

    method Finish(p: Poll, dueAt: real)
      requires Valid() && p in inflight
      modifies this
      ensures Valid() && inflight == old(inflight) - {p}
        && nextRefreshAt == old(nextRefreshAt)[old(inflight)[p] := dueAt]
    {
      hide Conserved;
      FinishingKeeps(queue, inflight, nextRefreshAt, sequence, p, dueAt);
      var symbol := inflight[p];
      inflight := inflight - {p};
      nextRefreshAt := nextRefreshAt[symbol := dueAt];
      queue := queue + {Entry(dueAt, sequence, symbol)};
      sequence := sequence + 1;
    }

    lemma SlotsAreBounded()
      requires Valid()
      ensures |inflight| <= MAX_IN_FLIGHT
    {
    }

    lemma PolledOnce()
      requires Valid()
      ensures OncePolled(inflight)
    {
    }

    lemma PolledIsDue(p: Poll)
      requires Valid()
      ensures p in inflight ==> inflight[p] in nextRefreshAt
    {
      if p in inflight {
        PolledOwnsIts(p);
      }
    }

    lemma PolledOwnsIts(p: Poll)
      requires Valid() && p in inflight
      ensures inflight[p] in nextRefreshAt
    {
      PolledOwns(queue, inflight, nextRefreshAt.Keys, p);
    }

    method PopLeast() returns (least: Entry)
      requires Valid() && queue != {}
      ensures IsLeast(queue, least)
    {
      least := FindLeast(queue);
    }

    /** Collects finished polls: each symbol goes back into the heap, no sooner than a quarter second from now. */
    method Collect(done: set<Poll>, reports: map<Poll, Report>)
      requires Valid() && done <= inflight.Keys && done <= reports.Keys
      modifies this
      ensures Valid() && inflight == old(inflight) - done
      ensures Rescheduled(old(nextRefreshAt), nextRefreshAt, old(inflight), done, reports)
      ensures nextRefreshAt.Keys == old(nextRefreshAt.Keys)
    {
      hide Conserved, Rescheduled, OncePolled, DueAt;
      PolledOnce();
      NothingCollected(nextRefreshAt, inflight, done, reports);
      var pending := done;
      while pending != {}
        invariant Valid() && pending <= done
        invariant Collected(old(nextRefreshAt), old(inflight), nextRefreshAt, inflight, done, pending, reports)
        decreases pending
      {
        var p :| p in pending;
        PolledIsDue(p);
        CollectedMore(old(nextRefreshAt), old(inflight), nextRefreshAt, inflight, done, pending, reports, p);
        Finish(p, DueAt(reports[p]));
        pending := pending - {p};
      }
      assert done - {} == done;
      CollectedKeys(old(nextRefreshAt), old(inflight), nextRefreshAt, done, reports);
    }

    /**
     Collects finished polls up to the first one that raises. What has finished after it is not collected any more:
     it is cancelled with everything else in flight, and its symbol is not rescheduled.
     */
    method CollectUntilFailure(turn: Turn) returns (failed: Option<Poll>, cancelled: set<Poll>)
      requires Valid()
      modifies this
      ensures Valid() && nextRefreshAt.Keys == old(nextRefreshAt.Keys)
      ensures var n := FirstFailing(turn.order, turn.failing, old(inflight.Keys));
              var done := ReportedBefore(turn, n, old(inflight.Keys));
              && inflight == old(inflight) - done
              && Rescheduled(old(nextRefreshAt), nextRefreshAt, old(inflight), done, turn.reports)
              && failed == (if n < |turn.order| then Some(turn.order[n]) else None)
      ensures if failed == None then cancelled == {}
              else failed.value in inflight && cancelled == inflight.Keys - {failed.value}
    {
      hide Conserved, Rescheduled;
      var n := FirstFailing(turn.order, turn.failing, inflight.Keys);
      var done := ReportedBefore(turn, n, inflight.Keys);
      Collect(done, turn.reports);
      failed, cancelled := None, {};
      if n < |turn.order| {
        failed, cancelled := Some(turn.order[n]), inflight.Keys - {turn.order[n]};
      }
    }
  }

  /** A poll that finished after the one that failed is still in flight when the loop ends, and so it is cancelled. */
  lemma FinishedTooLate(turn: Turn, flying: set<Poll>, p: Poll)
    requires var n := FirstFailing(turn.order, turn.failing, flying);
             n < |turn.order| && p in flying && p !in turn.order[..n + 1]
    ensures var n := FirstFailing(turn.order, turn.failing, flying);
            p in flying - ReportedBefore(turn, n, flying) - {turn.order[n]}
  {
    var n := FirstFailing(turn.order, turn.failing, flying);
    assert turn.order[n] == turn.order[..n + 1][n];
    assert forall q :: q in turn.order[..n] ==> q in turn.order[..n + 1];
  }

  lemma CollectedKeys(due: map<Symbol, real>, inflight: map<Poll, Symbol>, later: map<Symbol, real>, done: set<Poll>,
                      reports: map<Poll, Report>)
    requires done <= inflight.Keys && done <= reports.Keys && Rescheduled(due, later, inflight, done, reports)
    ensures later.Keys == due.Keys
  {
  }

  /** The polls of `done` outside `pending` are collected. */
  ghost predicate Collected(due: map<Symbol, real>, inflight: map<Poll, Symbol>, later: map<Symbol, real>,
                            left: map<Poll, Symbol>,
                            done: set<Poll>, pending: set<Poll>, reports: map<Poll, Report>)
    requires done <= inflight.Keys && done <= reports.Keys
  {
    left == inflight - (done - pending) && Rescheduled(due, later, inflight, done - pending, reports)
  }

  lemma NothingCollected(due: map<Symbol, real>, inflight: map<Poll, Symbol>, done: set<Poll>,
                         reports: map<Poll, Report>)
    requires done <= inflight.Keys && done <= reports.Keys
    ensures Collected(due, inflight, due, inflight, done, done, reports)
  {
    assert done - done == {} && inflight - {} == inflight;
  }

  lemma CollectedMore(due: map<Symbol, real>, inflight: map<Poll, Symbol>, later: map<Symbol, real>,
                      left: map<Poll, Symbol>,
                      done: set<Poll>, pending: set<Poll>, reports: map<Poll, Report>, p: Poll)
    requires done <= inflight.Keys && done <= reports.Keys && p in pending && pending <= done && OncePolled(inflight)
    requires Collected(due, inflight, later, left, done, pending, reports)
    requires p in left ==> left[p] in later
    ensures p in left && left[p] == inflight[p]
    ensures Collected(due, inflight, later[inflight[p] := DueAt(reports[p])], left - {p}, done, pending - {p}, reports)
  {
    RescheduledMore(due, later, inflight, done - pending, reports, p);
    assert done - pending + {p} == done - (pending - {p});
    hide Rescheduled, OncePolled;
    assert left - {p} == inflight - (done - (pending - {p}));
  }

  /**
   Scheduled symbols are neither lost nor doubled, whatever finishes when; a failing poll ends the loop and cancels the
   others.
   */
  method RunScheduler(scheduler: QuoteScheduler, turns: seq<Turn>) returns (failed: Option<Poll>, cancelled: set<Poll>)
    requires scheduler.Valid()
    modifies scheduler
    ensures scheduler.Valid() && scheduler.nextRefreshAt.Keys == old(scheduler.nextRefreshAt.Keys)
    ensures if failed == None then cancelled == {}
            else failed.value in scheduler.inflight && cancelled == scheduler.inflight.Keys - {failed.value}
  {
    hide Conserved, Launched, Rescheduled, OncePolled, Collected;
    failed, cancelled := None, {};
    for i := 0 to |turns|
      invariant failed == None && cancelled == {}
      invariant scheduler.Valid() && scheduler.nextRefreshAt.Keys == old(scheduler.nextRefreshAt.Keys)
    {
      var _ := scheduler.Launch(turns[i].now);
      failed, cancelled := scheduler.CollectUntilFailure(turns[i]);
      if failed.Some? {
        return;
      }
    }
  }

  /** After the poll's own interval, or after a quarter of a second if that is longer. */
  function DueAt(report: Report): (dueAt: real)
    ensures dueAt >= report.clock + 0.25 && dueAt >= report.clock + report.interval
    ensures dueAt == report.clock + 0.25 || dueAt == report.clock + report.interval
  {
    report.clock + if report.interval > SHORTEST_INTERVAL then report.interval else SHORTEST_INTERVAL
  }
}
