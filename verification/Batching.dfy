/**
 Greedy batching of provider identifiers under a count limit and a limit on the joined length.
 */
module Batching {
  import opened Basics

  /** An identifier with the length it takes in a request. */
  datatype Item = Item(name: Name, width: nat)

  const COINGECKO_IDS: nat := 250
  const COINGECKO_CHARACTERS: nat := 3_500
  const BINANCE_STREAMS: nat := 250
  const BINANCE_CHARACTERS: nat := 8_000
  const BINANCE_CONNECTIONS: nat := 10

  function Widths(batch: seq<Item>): nat
    decreases |batch|
  {
    if batch == [] then 0 else Widths(batch[..|batch| - 1]) + batch[|batch| - 1].width
  }

  /** The length of a batch joined with one separator between neighbours. */
  function Joined(batch: seq<Item>): nat {
    Widths(batch) + if batch == [] then 0 else |batch| - 1
  }

  predicate Fits(batch: seq<Item>, count: nat, characters: nat) {
    |batch| <= count && Joined(batch) <= characters
  }

  /** Batching from the point where `current` is the open batch. */
  function Greedy(current: seq<Item>, rest: seq<Item>, count: nat, characters: nat): seq<seq<Item>>
    decreases |rest|
  {
    if rest == [] then if current == [] then [] else [current]
    else if current != [] && !Fits(current + [rest[0]], count, characters)
    then [current] + Greedy([rest[0]], rest[1..], count, characters)
    else Greedy(current + [rest[0]], rest[1..], count, characters)
  }

  function Flatten(batches: seq<seq<Item>>): seq<Item>
    decreases |batches|
  {
    if batches == [] then [] else batches[0] + Flatten(batches[1..])
  }

  ghost predicate IsPartition(batches: seq<seq<Item>>, items: seq<Item>, count: nat, characters: nat) {
    && Flatten(batches) == items
    && forall batch :: batch in batches ==> |batch| <= count && Joined(batch) <= characters
  }

  ghost predicate SinglesFit(items: seq<Item>, count: nat, characters: nat) {
    count > 0 && forall item :: item in items ==> item.width <= characters
  }

  lemma {:induction false} WidthsJoin(a: seq<Item>, b: seq<Item>)
    ensures Widths(a + b) == Widths(a) + Widths(b)
    decreases |b|
  {
    if b == [] {
      assert a + b == a;
    } else {
      assert (a + b)[..|a + b| - 1] == a + b[..|b| - 1];
      WidthsJoin(a, b[..|b| - 1]);
    }
  }

  /** Part of a fitting batch fits. */
  lemma PartFits(batch: seq<Item>, lo: nat, hi: nat, count: nat, characters: nat)
    requires Fits(batch, count, characters) && lo <= hi <= |batch|
    ensures Fits(batch[lo..hi], count, characters)
  {
    assert batch == batch[..lo] + batch[lo..hi] + batch[hi..];
    WidthsJoin(batch[..lo] + batch[lo..hi], batch[hi..]);
    WidthsJoin(batch[..lo], batch[lo..hi]);
  }

  lemma SliceFits(items: seq<Item>, a: nat, end: nat, b: nat, c: nat, count: nat, characters: nat)
    requires a <= b <= c <= end <= |items| && Fits(items[a..end], count, characters)
    ensures Fits(items[b..c], count, characters)
  {
    PartFits(items[a..end], b - a, c - a, count, characters);
    assert items[a..end][b - a..c - a] == items[b..c];
  }

  lemma JoinedMore(current: seq<Item>, item: Item)
    ensures Joined(current + [item]) == Joined(current) + item.width + if current == [] then 0 else 1
  {
    WidthsJoin(current, [item]);
    assert [item][..0] == [];
    assert Widths([item]) == item.width;
  }

  /** The texts with the separator between neighbours, as a request writes them. */
  function JoinedText(texts: seq<string>, separator: char): string
    decreases |texts|
  {
    if texts == [] then "" else if |texts| == 1 then texts[0]
    else JoinedText(texts[..|texts| - 1], separator) + [separator] + texts[|texts| - 1]
  }

  lemma {:induction false} JoinedIsLength(batch: seq<Item>, texts: seq<string>, separator: char)
    requires |texts| == |batch| && forall i :: 0 <= i < |batch| ==> |texts[i]| == batch[i].width
    ensures |JoinedText(texts, separator)| == Joined(batch)
    decreases |batch|
  {
    if |batch| > 1 {
      JoinedIsLength(batch[..|batch| - 1], texts[..|batch| - 1], separator);
    } else if |batch| == 1 {
      assert Widths(batch[..0]) == 0;
    }
  }

  /** The batches are the input in order, none is empty, and each respects both limits. */
  lemma {:induction false} GreedyIsPartition(current: seq<Item>, rest: seq<Item>, count: nat, characters: nat)
    requires SinglesFit(rest, count, characters) && Fits(current, count, characters)
    ensures IsPartition(Greedy(current, rest, count, characters), current + rest, count, characters)
    ensures forall batch :: batch in Greedy(current, rest, count, characters) ==> batch != []
    decreases |rest|
  {
    hide Joined, IsPartition;
    if rest == [] {
      PartitionEnds(current, count, characters);
      assert current + rest == current;
    } else {
      var single := [rest[0]];
      NothingJoined();
      JoinedMore([], rest[0]);
      assert [] + [rest[0]] == single && rest[0] in rest;
      if current != [] && !Fits(current + single, count, characters) {
        GreedyIsPartition(single, rest[1..], count, characters);
        PartitionMore(current, Greedy(single, rest[1..], count, characters), single + rest[1..], count, characters);
        assert current + rest == current + (single + rest[1..]);
      } else {
        assert current == [] ==> current + single == single;
        GreedyIsPartition(current + single, rest[1..], count, characters);
        assert current + rest == current + single + rest[1..];
      }
    }
  }

  lemma PartitionEnds(current: seq<Item>, count: nat, characters: nat)
    requires Fits(current, count, characters)
    ensures IsPartition(Greedy(current, [], count, characters), current, count, characters)
  {
    assert Flatten([current]) == current + Flatten([]);
  }

  lemma PartitionMore(first: seq<Item>, later: seq<seq<Item>>, items: seq<Item>, count: nat, characters: nat)
    requires IsPartition(later, items, count, characters) && Fits(first, count, characters)
    ensures IsPartition([first] + later, first + items, count, characters)
  {
    hide Joined;
    assert ([first] + later)[1..] == later;
  }

  lemma SomeGroup(items: seq<Item>, a: nat, groups: seq<seq<Item>>, count: nat, characters: nat)
    requires a <= |items| && IsPartition(groups, items[a..], count, characters)
    ensures a < |items| ==> groups != []
  {
  }

  lemma FirstGroup(items: seq<Item>, a: nat, groups: seq<seq<Item>>, count: nat, characters: nat)
    requires a < |items| && IsPartition(groups, items[a..], count, characters)
    ensures groups != [] && a + |groups[0]| <= |items| && groups[0] == items[a..a + |groups[0]|]
      && Fits(groups[0], count, characters)
    ensures IsPartition(groups[1..], items[a + |groups[0]|..], count, characters)
  {
    SomeGroup(items, a, groups, count, characters);
    hide Fits;
    var first, others := groups[0], Flatten(groups[1..]);
    assert items[a..][..|first|] == first && items[a..][|first|..] == others;
    assert items[a..][|first|..] == items[a + |first|..];
  }

  /**
   No way of cutting the input into fitting consecutive groups uses fewer of them. `groups` covers the
   input from `a`, and the open batch starts at `b`, no earlier.
   */
  lemma {:induction false} GreedyIsMinimal(items: seq<Item>, a: nat, b: nat, i: nat, groups: seq<seq<Item>>,
                                           count: nat, characters: nat)
    requires a <= b <= i <= |items| && (b == i ==> i == |items| || b == a)
    requires IsPartition(groups, items[a..], count, characters)
    ensures |Greedy(items[b..i], items[i..], count, characters)| <= |groups|
    decreases |items| - i, |groups|
  {
    hide Fits, IsPartition;
    var current, rest := items[b..i], items[i..];
    if rest == [] {
      SomeGroup(items, a, groups, count, characters);
      if current != [] {
        assert items[a..] != [];
      }
    } else {
      var longer := items[b..i + 1];
      assert items[i..i + 1] == [rest[0]];
      assert current + [rest[0]] == longer && rest[1..] == items[i + 1..];
      if current != [] && !Fits(longer, count, characters) {
        FirstGroup(items, a, groups, count, characters);
        var first := groups[0];
        var end := a + |first|;
        if end <= b {
          GreedyIsMinimal(items, end, b, i, groups[1..], count, characters);
        } else {
          if end > i {
            SliceFits(items, a, end, b, i + 1, count, characters);
          }
          GreedyIsMinimal(items, end, i, i + 1, groups[1..], count, characters);
        }
      } else {
        GreedyIsMinimal(items, a, b, i + 1, groups, count, characters);
      }
    }
  }

  lemma GreedyIsBest(items: seq<Item>, groups: seq<seq<Item>>, count: nat, characters: nat)
    requires IsPartition(groups, items, count, characters)
    ensures |Greedy([], items, count, characters)| <= |groups|
  {
    assert items[0..] == items && items[0..0] == [];
    GreedyIsMinimal(items, 0, 0, 0, groups, count, characters);
  }

  /**
   The batches are the input in order, none is empty, one of several items respects both limits, and none could
   also take the first item of the next.
   */
  ghost predicate IsGreedy(batches: seq<seq<Item>>, items: seq<Item>, count: nat, characters: nat) {
    && Flatten(batches) == items
    && (forall i :: 0 <= i < |batches| ==> batches[i] != [])
    && (forall i :: 0 <= i < |batches| && |batches[i]| > 1 ==>
          |batches[i]| <= count && Joined(batches[i]) <= characters)
    && forall i :: 0 < i < |batches| && batches[i] != [] ==>
         |batches[i - 1]| + 1 > count || Joined(batches[i - 1] + [batches[i][0]]) > characters
  }

  lemma {:induction false} GreedyStaysGreedy(current: seq<Item>, rest: seq<Item>, count: nat, characters: nat)
    requires |current| > 1 ==> Fits(current, count, characters)
    ensures var batches := Greedy(current, rest, count, characters);
            && IsGreedy(batches, current + rest, count, characters)
            && (current != [] ==> batches != [] && batches[0] != [] && batches[0][0] == current[0])
    decreases |rest|
  {
    hide Joined;
    if rest == [] {
      assert current + rest == current;
      assert Flatten([current]) == current + Flatten([]);
    } else {
      var single := [rest[0]];
      assert rest == single + rest[1..];
      if current != [] && !Fits(current + single, count, characters) {
        var later := Greedy(single, rest[1..], count, characters);
        GreedyStaysGreedy(single, rest[1..], count, characters);
        GreedyMore(current, later, rest, count, characters);
      } else {
        assert current == [] ==> current + single == single;
        GreedyStaysGreedy(current + single, rest[1..], count, characters);
        assert current + rest == current + single + rest[1..];
      }
    }
  }

  lemma GreedyMore(first: seq<Item>, later: seq<seq<Item>>, items: seq<Item>, count: nat, characters: nat)
    requires IsGreedy(later, items, count, characters)
    requires first != [] && (|first| > 1 ==> Fits(first, count, characters))
    requires later != [] && later[0] != [] && !Fits(first + [later[0][0]], count, characters)
    ensures IsGreedy([first] + later, first + items, count, characters)
  {
    hide Joined;
    var batches := [first] + later;
    assert batches[1..] == later;
    assert forall i :: 0 < i < |batches| ==> batches[i] == later[i - 1];
  }

  lemma {:induction false} OneGreedy(a: seq<seq<Item>>, b: seq<seq<Item>>, items: seq<Item>, count: nat,
                                     characters: nat)
    requires IsGreedy(a, items, count, characters) && IsGreedy(b, items, count, characters)
    ensures a == b
    decreases |items|
  {
    hide Joined;
    FlattenStarts(a);
    FlattenStarts(b);
    if items != [] {
      FirstIsFull(a, b, items, count, characters);
      FirstIsFull(b, a, items, count, characters);
      GreedyRest(a, items, count, characters);
      GreedyRest(b, items, count, characters);
      OneGreedy(a[1..], b[1..], items[|a[0]|..], count, characters);
      assert a == [a[0]] + a[1..] && b == [b[0]] + b[1..];
    }
  }

  lemma GreedyRest(batches: seq<seq<Item>>, items: seq<Item>, count: nat, characters: nat)
    requires IsGreedy(batches, items, count, characters) && batches != []
    ensures |batches[0]| <= |items| && batches[0] == items[..|batches[0]|]
    ensures IsGreedy(batches[1..], items[|batches[0]|..], count, characters)
  {
    hide Joined;
    assert items == batches[0] + Flatten(batches[1..]);
  }

  /** No other fitting first batch reaches further than the greedy one. */
  lemma FirstIsFull(a: seq<seq<Item>>, b: seq<seq<Item>>, items: seq<Item>, count: nat, characters: nat)
    requires IsGreedy(a, items, count, characters) && IsGreedy(b, items, count, characters)
    requires a != [] && b != []
    ensures |b[0]| <= |a[0]|
  {
    hide Joined;
    var n := |a[0]|;
    GreedyRest(a, items, count, characters);
    GreedyRest(b, items, count, characters);
    if n < |b[0]| {
      var others := a[1..];
      FlattenStarts(others);
      assert others[0] == a[1] && items[n..][0] == items[n];
      assert b[0][0..n + 1] == a[0] + [a[1][0]];
      PartFits(b[0], 0, n + 1, count, characters);
    }
  }

  lemma FlattenStarts(batches: seq<seq<Item>>)
    ensures batches != [] ==>
      |Flatten(batches)| >= |batches[0]| && (batches[0] != [] ==> Flatten(batches)[0] == batches[0][0])
  {
  }

  /** The greedy batches are the one way to cut the input in which every batch is as full as possible. */
  lemma GreedyIff(batches: seq<seq<Item>>, items: seq<Item>, count: nat, characters: nat)
    ensures batches == Greedy([], items, count, characters) <==> IsGreedy(batches, items, count, characters)
  {
    hide IsGreedy, Joined;
    assert [] + items == items;
    GreedyStaysGreedy([], items, count, characters);
    if IsGreedy(batches, items, count, characters) {
      OneGreedy(batches, Greedy([], items, count, characters), items, count, characters);
    }
  }

  // ----- the two loops

  lemma NothingJoined()
    ensures Joined([]) == 0 && forall count: nat, characters: nat :: Fits([], count, characters)
  {
  }

  lemma FitsMore(current: seq<Item>, item: Item, count: nat, characters: nat)
    ensures Fits(current + [item], count, characters) <==>
      |current| + 1 <= count && Joined(current) + item.width + (if current == [] then 0 else 1) <= characters
  {
    JoinedMore(current, item);
  }

  lemma GreedyTurn(closed: seq<seq<Item>>, current: seq<Item>, rest: seq<Item>, count: nat, characters: nat)
    requires rest != []
    ensures closed + Greedy(current, rest, count, characters) ==
      if current != [] && !Fits(current + [rest[0]], count, characters)
      then (closed + [current]) + Greedy([rest[0]], rest[1..], count, characters)
      else closed + Greedy(current + [rest[0]], rest[1..], count, characters)
  {
    hide Fits;
  }

  lemma GreedyEnd(current: seq<Item>, count: nat, characters: nat)
    ensures Greedy(current, [], count, characters) == if current == [] then [] else [current]
  {
  }

  /** Unique identifiers in request batches; refused exactly when one of them alone is too long. */
  method SimplePriceIdBatches(ids: seq<Item>) returns (batches: Option<seq<seq<Item>>>)
    ensures batches == None <==> exists id :: id in ids && id.width > COINGECKO_CHARACTERS
    ensures batches.Some? ==> batches.value == Greedy([], ids, COINGECKO_IDS, COINGECKO_CHARACTERS)
    ensures batches.Some? ==> IsGreedy(batches.value, ids, 250, 3_500)
  {
    hide Greedy, Joined, Fits, IsGreedy;
    var closed: seq<seq<Item>>, current: seq<Item>, characters: nat := [], [], 0;
    NothingJoined();
    for k := 0 to |ids|
      invariant forall id :: id in ids[..k] ==> id.width <= COINGECKO_CHARACTERS
      invariant characters == Joined(current)
      invariant closed + Greedy(current, ids[k..], COINGECKO_IDS, COINGECKO_CHARACTERS)
        == Greedy([], ids, COINGECKO_IDS, COINGECKO_CHARACTERS)
      invariant Fits(current, COINGECKO_IDS, COINGECKO_CHARACTERS)
    {
      var id := ids[k];
      assert ids[..k + 1] == ids[..k] + [id] && ids[k..][0] == id && ids[k..][1..] == ids[k + 1..];
      if id.width > COINGECKO_CHARACTERS {
        assert id in ids;
        return None;
      }
      var added := id.width + if current != [] then 1 else 0;
      GreedyTurn(closed, current, ids[k..], COINGECKO_IDS, COINGECKO_CHARACTERS);
      JoinedMore(current, id);
      JoinedMore([], id);
      FitsMore(current, id, COINGECKO_IDS, COINGECKO_CHARACTERS);
      FitsMore([], id, COINGECKO_IDS, COINGECKO_CHARACTERS);
      assert [] + [id] == [id];
      if current != [] && (|current| >= COINGECKO_IDS || characters + added > COINGECKO_CHARACTERS) {
        closed, current, characters, added := closed + [current], [], 0, id.width;
      }
      current := current + [id];
      characters := characters + added;
    }
    assert ids[..|ids|] == ids;
    GreedyEnd(current, COINGECKO_IDS, COINGECKO_CHARACTERS);
    if current != [] {
      closed := closed + [current];
    }
    GreedyIff(closed, ids, COINGECKO_IDS, COINGECKO_CHARACTERS);
    batches := Some(closed);
  }

  datatype Shards = Shards(batches: seq<seq<Item>>) | TooManyConnections

  /** Canonical symbols in WebSocket shards; a symbol whose stream name alone is too long gets a shard of its own. */
  method StreamConnectionBatches(streams: seq<Item>) returns (shards: Shards)
    ensures var best := Greedy([], streams, BINANCE_STREAMS, BINANCE_CHARACTERS);
            shards == if |best| > BINANCE_CONNECTIONS then TooManyConnections else Shards(best)
    ensures shards.Shards? ==> IsGreedy(shards.batches, streams, 250, 8_000) && |shards.batches| <= 10
  {
    hide Joined, IsGreedy;
    NothingJoined();
    var closed: seq<seq<Item>>, current: seq<Item>, characters: nat := [], [], 0;
    for k := 0 to |streams|
      invariant characters == Joined(current)
      invariant closed + Greedy(current, streams[k..], BINANCE_STREAMS, BINANCE_CHARACTERS)
        == Greedy([], streams, BINANCE_STREAMS, BINANCE_CHARACTERS)
    {
      var stream := streams[k];
      assert streams[k..][0] == stream && streams[k..][1..] == streams[k + 1..];
      var added := stream.width + if current != [] then 1 else 0;
      JoinedMore(current, stream);
      JoinedMore([], stream);
      assert [] + [stream] == [stream];
      if current != [] && (|current| >= BINANCE_STREAMS || characters + added > BINANCE_CHARACTERS) {
        closed, current, characters, added := closed + [current], [], 0, stream.width;
      }
      current := current + [stream];
      characters := characters + added;
    }
    if current != [] {
      closed := closed + [current];
    }
    GreedyIff(closed, streams, BINANCE_STREAMS, BINANCE_CHARACTERS);
    shards := if |closed| > BINANCE_CONNECTIONS then TooManyConnections else Shards(closed);
  }

  /** Sharding is refused exactly when no fitting partition stays within the connection limit. */
  lemma ShardLimitIff(streams: seq<Item>)
    requires SinglesFit(streams, BINANCE_STREAMS, BINANCE_CHARACTERS)
    ensures |Greedy([], streams, BINANCE_STREAMS, BINANCE_CHARACTERS)| <= BINANCE_CONNECTIONS
      <==> exists groups ::
        IsPartition(groups, streams, BINANCE_STREAMS, BINANCE_CHARACTERS) && |groups| <= BINANCE_CONNECTIONS
  {
    GreedyIsPartition([], streams, BINANCE_STREAMS, BINANCE_CHARACTERS);
    assert [] + streams == streams;
    if groups :| IsPartition(groups, streams, BINANCE_STREAMS, BINANCE_CHARACTERS) && |groups| <= BINANCE_CONNECTIONS {
      GreedyIsBest(streams, groups, BINANCE_STREAMS, BINANCE_CHARACTERS);
    }
  }
}
