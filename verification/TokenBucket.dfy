/**
 The in-memory rate limiter: one token bucket per identity in least-recently-used order, with
 idle buckets dropped and the number of identities bounded. Times are seconds as reals.
 */
module TokenBucket {
  datatype Limits = Limits(rate: real, capacity: real, maxIdentities: int, idleTtl: real)

  datatype Identity = Identity(key: string)

  datatype Bucket = Bucket(tokens: real, updatedAt: real)

  /** `Faulted` stands for the division by a zero rate. */
  datatype Decision = Admitted | Limited(retryAfter: int) | Faulted

  datatype Call = Call(identity: Identity, now: real)

  function Min(a: real, b: real): real { if a <= b then a else b }

  function Max(a: real, b: real): real { if a <= b then b else a }

  /** `int(x)`, which truncates toward zero. */
  function Truncate(x: real): int {
    if x >= 0.0 then x.Floor else -((-x).Floor)
  }

  function Refill(limits: Limits, bucket: Bucket, now: real): real {
    Min(limits.capacity, bucket.tokens + Max(0.0, now - bucket.updatedAt) * limits.rate)
  }

  function Judge(limits: Limits, level: real): Decision {
    if level >= 1.0 then Admitted
    else if limits.rate == 0.0 then Faulted
    else
      var seconds := Truncate((1.0 - level) / limits.rate) + 1;
      Limited(if seconds < 1 then 1 else seconds)
  }

  function AfterCall(level: real, now: real): Bucket {
    Bucket(if level >= 1.0 then level - 1.0 else level, now)
  }

  // ----- the reference limiter: one bucket per identity, kept for ever

  type Ledger = map<Identity, Bucket>

  function Level(limits: Limits, ledger: Ledger, identity: Identity, now: real): real {
    Refill(limits, if identity in ledger then ledger[identity] else Bucket(limits.capacity, now), now)
  }

  function LedgerAfter(limits: Limits, ledger: Ledger, call: Call): Ledger {
    ledger[call.identity := AfterCall(Level(limits, ledger, call.identity, call.now), call.now)]
  }

  function LedgerDecision(limits: Limits, ledger: Ledger, call: Call): Decision {
    Judge(limits, Level(limits, ledger, call.identity, call.now))
  }

  function LedgerRun(limits: Limits, ledger: Ledger, calls: seq<Call>): Ledger
    decreases |calls|
  {
    if calls == [] then ledger else LedgerRun(limits, LedgerAfter(limits, ledger, calls[0]), calls[1..])
  }

  function LedgerDecisions(limits: Limits, ledger: Ledger, calls: seq<Call>): seq<Decision>
    decreases |calls|
  {
    if calls == [] then []
    else
      [LedgerDecision(limits, ledger, calls[0])]
      + LedgerDecisions(limits, LedgerAfter(limits, ledger, calls[0]), calls[1..])
  }

  // ----- the bounded limiter

  datatype LimiterState = LimiterState(order: seq<Identity>, buckets: map<Identity, Bucket>)

  ghost predicate Indexed(st: LimiterState) {
    && Distinct(st.order)
    && (forall id :: id in st.order <==> id in st.buckets)
  }

  /** Drops idle identities from the least recently used end. */
  function DropIdle(st: LimiterState, staleBefore: real): LimiterState
    decreases |st.order|
  {
    if st.order != [] && st.order[0] in st.buckets && st.buckets[st.order[0]].updatedAt < staleBefore
    then DropIdle(LimiterState(st.order[1..], st.buckets - {st.order[0]}), staleBefore)
    else st
  }

  /** Makes room for a new identity by dropping the least recently used one. */
  function MakeRoom(limits: Limits, st: LimiterState, identity: Identity): LimiterState {
    if identity !in st.buckets && |st.buckets| >= limits.maxIdentities && st.order != []
    then LimiterState(st.order[1..], st.buckets - {st.order[0]})
    else st
  }

  function Without(order: seq<Identity>, identity: Identity): seq<Identity> {
    if order == [] then []
    else if order[0] == identity then Without(order[1..], identity)
    else [order[0]] + Without(order[1..], identity)
  }

  function Prepared(limits: Limits, st: LimiterState, call: Call): LimiterState {
    MakeRoom(limits, DropIdle(st, call.now - limits.idleTtl), call.identity)
  }

  function StateAfter(limits: Limits, st: LimiterState, call: Call): LimiterState {
    var ready := Prepared(limits, st, call);
    LimiterState(Without(ready.order, call.identity) + [call.identity], LedgerAfter(limits, ready.buckets, call))
  }

  function StateDecision(limits: Limits, st: LimiterState, call: Call): Decision {
    LedgerDecision(limits, Prepared(limits, st, call).buckets, call)
  }

  function StateDecisions(limits: Limits, st: LimiterState, calls: seq<Call>): seq<Decision>
    decreases |calls|
  {
    if calls == [] then []
    else [StateDecision(limits, st, calls[0])] + StateDecisions(limits, StateAfter(limits, st, calls[0]), calls[1..])
  }

  const EMPTY := LimiterState([], map[])

  lemma {:induction false} DropIdleIsIndexed(st: LimiterState, staleBefore: real)
    requires Indexed(st)
    ensures Indexed(DropIdle(st, staleBefore))
    decreases |st.order|
  {
    if st.order != [] && st.buckets[st.order[0]].updatedAt < staleBefore {
      DropFirstIsIndexed(st);
      DropIdleIsIndexed(LimiterState(st.order[1..], st.buckets - {st.order[0]}), staleBefore);
    }
  }

  lemma DropFirstIsIndexed(st: LimiterState)
    requires Indexed(st) && st.order != []
    ensures Indexed(LimiterState(st.order[1..], st.buckets - {st.order[0]}))
  {
    forall id ensures id in st.order[1..] <==> id in st.buckets - {st.order[0]} {
      if id in st.order && id != st.order[0] {
        var i :| 0 <= i < |st.order| && st.order[i] == id;
        assert st.order[1..][i - 1] == id;
      }
    }
  }

  ghost predicate Distinct(order: seq<Identity>) {
    forall i, j :: 0 <= i < j < |order| ==> order[i] != order[j]
  }

  lemma {:induction false} WithoutContents(order: seq<Identity>, identity: Identity)
    requires Distinct(order)
    ensures Distinct(Without(order, identity))
    ensures forall id :: id in Without(order, identity) <==> id in order && id != identity
  {
    if order != [] {
      WithoutContents(order[1..], identity);
      assert forall id :: id in order <==> id == order[0] || id in order[1..];
      assert order[0] !in order[1..];
    }
  }

  class TokenBucketLimiter {
    const limits: Limits
    var order: seq<Identity>
    var buckets: map<Identity, Bucket>

    ghost function State(): LimiterState
      reads this
    {
      LimiterState(order, buckets)
    }

    ghost predicate Valid()
      reads this
    {
      Indexed(State()) && limits.maxIdentities > 0 && limits.idleTtl > 0.0 && |buckets| <= limits.maxIdentities
    }

    /** The bounds are refused unless positive; `ratePerMinute` and `capacity` are taken as they come. */
    constructor (ratePerMinute: int, capacity: int, maxIdentities: int, idleTtlSeconds: real)
      requires maxIdentities > 0 && idleTtlSeconds > 0.0
      ensures Valid() && State() == EMPTY
      ensures limits == Limits(ratePerMinute as real / 60.0, capacity as real, maxIdentities, idleTtlSeconds)
    {
      limits := Limits(ratePerMinute as real / 60.0, capacity as real, maxIdentities, idleTtlSeconds);
      order, buckets := [], map[];
    }

    /** Pops idle identities, oldest first, up to the first one still fresh. */
    method EvictIdle(staleBefore: real)
      requires Valid()
      modifies this
      ensures Valid() && State() == DropIdle(old(State()), staleBefore)
    {
      while order != []
        invariant Valid() && DropIdle(State(), staleBefore) == DropIdle(old(State()), staleBefore)
        decreases |order|
      {
        var oldest := order[0];
        assert oldest in order;
        if buckets[oldest].updatedAt >= staleBefore {
          break;
        }
        DropFirstIsIndexed(State());
        Fewer(buckets, oldest);
        order, buckets := order[1..], buckets - {oldest};
      }
    }

    /** Pops the least recently used identity when a new one would exceed the bound. */
    method EvictForRoom(identity: Identity)
      requires Valid()
      modifies this
      ensures Valid() && State() == MakeRoom(limits, old(State()), identity)
      ensures identity in buckets || |buckets| < limits.maxIdentities
    {
      if identity !in buckets && |buckets| >= limits.maxIdentities {
        SomeIdentity(State());
        DropFirstIsIndexed(State());
        assert order[0] in order;
        Fewer(buckets, order[0]);
        order, buckets := order[1..], buckets - {order[0]};
      }
    }

    /** Finds the bucket of an identity and makes it the most recently used, creating a full one if needed. */
    method Touch(identity: Identity, now: real)
      requires Valid()
      modifies this
      ensures Valid()
      ensures var ready := MakeRoom(limits, old(State()), identity);
              && order == Without(ready.order, identity) + [identity]
              && buckets == ready.buckets[identity := if identity in ready.buckets then ready.buckets[identity]
                                                      else Bucket(limits.capacity, now)]
    {
      hide Indexed, MakeRoom;
      EvictForRoom(identity);
      TouchedIsIndexed(State(), identity,
                       if identity in buckets then buckets[identity] else Bucket(limits.capacity, now));
      if identity !in buckets {
        AbsentFromOrder(State(), identity);
        buckets := buckets[identity := Bucket(limits.capacity, now)];
        order := order + [identity];
      } else {
        assert buckets == buckets[identity := buckets[identity]];
        order := Without(order, identity) + [identity];
      }
    }

    /** One request: refill by the elapsed time, then take a token or say how long to wait. */
    method Consume(identity: Identity, now: real) returns (decision: Decision)
      requires Valid()
      modifies this
      ensures Valid()
      ensures State() == StateAfter(limits, old(State()), Call(identity, now))
      ensures decision == StateDecision(limits, old(State()), Call(identity, now))
    {
      hide Refill, Judge, AfterCall, DropIdle, MakeRoom, Without, Distinct;
      EvictIdle(now - limits.idleTtl);
      ghost var ready := Prepared(limits, old(State()), Call(identity, now));
      Touch(identity, now);
      var tokens := Refill(limits, buckets[identity], now);
      decision := Judge(limits, tokens);
      ghost var touched := buckets;
      buckets := buckets[identity := AfterCall(tokens, now)];
      assert buckets == ready.buckets[identity := AfterCall(tokens, now)];
      SameKeys(touched, identity, AfterCall(tokens, now));
    }
  }

  lemma AbsentFromOrder(st: LimiterState, identity: Identity)
    requires Indexed(st) && identity !in st.buckets
    ensures Without(st.order, identity) == st.order
  {
    AbsentIsUnchanged(st.order, identity);
  }

  lemma SizeAfterPut(buckets: map<Identity, Bucket>, identity: Identity, bucket: Bucket)
    ensures |buckets[identity := bucket]| == |buckets| + if identity in buckets then 0 else 1
  {
    var updated := buckets[identity := bucket];
    if identity in buckets {
      assert updated.Keys == buckets.Keys;
    } else {
      assert updated.Keys == buckets.Keys + {identity};
    }
    assert |updated| == |updated.Keys| && |buckets| == |buckets.Keys|;
  }

  lemma DistinctSnoc(order: seq<Identity>, identity: Identity)
    requires Distinct(order) && identity !in order
    ensures Distinct(order + [identity])
  {
  }

  lemma TouchedIsIndexed(st: LimiterState, identity: Identity, bucket: Bucket)
    requires Indexed(st)
    ensures Indexed(LimiterState(Without(st.order, identity) + [identity], st.buckets[identity := bucket]))
    ensures |st.buckets[identity := bucket]| == |st.buckets| + if identity in st.buckets then 0 else 1
  {
    hide Distinct;
    SizeAfterPut(st.buckets, identity, bucket);
    WithoutContents(st.order, identity);
    var rest := Without(st.order, identity);
    DistinctSnoc(rest, identity);
    assert forall id :: id in rest + [identity] <==> id in rest || id == identity;
  }

  lemma SameKeys(buckets: map<Identity, Bucket>, id: Identity, bucket: Bucket)
    requires id in buckets
    ensures buckets[id := bucket].Keys == buckets.Keys && |buckets[id := bucket]| == |buckets|
  {
    assert buckets[id := bucket].Keys == buckets.Keys;
    assert |buckets[id := bucket]| == |buckets[id := bucket].Keys|;
  }

  lemma Fewer(buckets: map<Identity, Bucket>, id: Identity)
    requires id in buckets
    ensures |buckets - {id}| == |buckets| - 1
  {
    assert (buckets - {id}).Keys == buckets.Keys - {id};
  }

  lemma SomeIdentity(st: LimiterState)
    requires Indexed(st) && |st.buckets| > 0
    ensures st.order != []
  {
    assert st.buckets.Keys != {};
    var id :| id in st.buckets;
    assert id in st.order;
  }

  lemma {:induction false} AbsentIsUnchanged(order: seq<Identity>, identity: Identity)
    requires identity !in order
    ensures Without(order, identity) == order
  {
    if order != [] {
      AbsentIsUnchanged(order[1..], identity);
    }
  }

  // ----- refilling

  lemma ProductIsMonotone(a: real, b: real, rate: real)
    requires a <= b && rate >= 0.0
    ensures a * rate <= b * rate
  {
    assert (b - a) * rate >= 0.0;
  }

  lemma ProductSplits(a: real, b: real, rate: real)
    ensures (a + b) * rate == a * rate + b * rate
  {
  }

  /** Refilling in two steps is refilling once. */
  lemma RefillTwice(limits: Limits, bucket: Bucket, middle: real, now: real)
    requires limits.rate >= 0.0 && bucket.updatedAt <= middle <= now
    ensures Refill(limits, Bucket(Refill(limits, bucket, middle), middle), now) == Refill(limits, bucket, now)
  {
    ProductSplits(middle - bucket.updatedAt, now - middle, limits.rate);
    ProductIsMonotone(0.0, now - middle, limits.rate);
  }

  lemma LevelIsCapped(limits: Limits, ledger: Ledger, identity: Identity, now: real)
    ensures Level(limits, ledger, identity, now) <= limits.capacity
  {
  }

  /** No bucket was touched after `now`. */
  ghost predicate Past(ledger: Ledger, now: real) {
    forall id :: id in ledger ==> ledger[id].updatedAt <= now
  }

  lemma LevelGrows(limits: Limits, ledger: Ledger, identity: Identity, start: real, now: real)
    requires limits.rate >= 0.0 && Past(ledger, start) && start <= now
    ensures Level(limits, ledger, identity, now)
      == Min(limits.capacity, Level(limits, ledger, identity, start) + (now - start) * limits.rate)
  {
    hide Refill;
    if identity in ledger {
      RefillGrows(limits, ledger[identity], start, now);
    } else {
      FullStaysFull(limits, start, start);
      FullStaysFull(limits, now, now);
      ProductIsMonotone(0.0, now - start, limits.rate);
    }
  }

  lemma RefillGrows(limits: Limits, bucket: Bucket, start: real, now: real)
    requires limits.rate >= 0.0 && bucket.updatedAt <= start <= now
    ensures Refill(limits, bucket, now)
      == Min(limits.capacity, Refill(limits, bucket, start) + (now - start) * limits.rate)
  {
    var early, late := (start - bucket.updatedAt) * limits.rate, (now - start) * limits.rate;
    ProductIsMonotone(0.0, now - start, limits.rate);
    ProductSplits(start - bucket.updatedAt, now - start, limits.rate);
    assert (now - bucket.updatedAt) * limits.rate == early + late by {
      assert now - bucket.updatedAt == (start - bucket.updatedAt) + (now - start);
    }
    CappedTwice(limits.capacity, bucket.tokens, early, late);
  }

  lemma CappedTwice(capacity: real, tokens: real, early: real, late: real)
    requires late >= 0.0
    ensures Min(capacity, tokens + (early + late)) == Min(capacity, Min(capacity, tokens + early) + late)
  {
  }

  lemma LevelAfterCall(limits: Limits, ledger: Ledger, call: Call, identity: Identity)
    ensures Level(limits, LedgerAfter(limits, ledger, call), identity, call.now) ==
      if identity == call.identity && LedgerDecision(limits, ledger, call).Admitted?
      then Level(limits, ledger, identity, call.now) - 1.0
      else Level(limits, ledger, identity, call.now)
  {
  }

  // ----- the rate bound

  ghost predicate InOrder(calls: seq<Call>, start: real) {
    && (calls != [] ==> start <= calls[0].now)
    && forall i, j :: 0 <= i < j < |calls| ==> calls[i].now <= calls[j].now
  }

  function EndOf(calls: seq<Call>, start: real): real {
    if calls == [] then start else calls[|calls| - 1].now
  }

  function AdmittedCount(limits: Limits, ledger: Ledger, calls: seq<Call>, identity: Identity): nat
    decreases |calls|
  {
    if calls == [] then 0
    else
      (if calls[0].identity == identity && LedgerDecision(limits, ledger, calls[0]).Admitted? then 1 else 0)
      + AdmittedCount(limits, LedgerAfter(limits, ledger, calls[0]), calls[1..], identity)
  }

  lemma InOrderTail(calls: seq<Call>, start: real)
    requires InOrder(calls, start) && calls != []
    ensures InOrder(calls[1..], calls[0].now) && EndOf(calls, start) == EndOf(calls[1..], calls[0].now)
    ensures start <= calls[0].now <= EndOf(calls, start)
  {
  }

  lemma PastAfterCall(limits: Limits, ledger: Ledger, call: Call, start: real)
    requires Past(ledger, start) && start <= call.now
    ensures Past(LedgerAfter(limits, ledger, call), call.now)
  {
  }

  /** One call's share of the potential argument: what it takes, it takes from the level. */
  lemma CallWithinLevel(limits: Limits, ledger: Ledger, call: Call, identity: Identity, start: real, end: real)
    requires limits.rate >= 0.0 && Past(ledger, start) && start <= call.now <= end
    ensures var taken := call.identity == identity && LedgerDecision(limits, ledger, call).Admitted?;
            (if taken then 1.0 else 0.0)
              + Max(0.0, Level(limits, LedgerAfter(limits, ledger, call), identity, call.now))
                + (end - call.now) * limits.rate
            <= Max(0.0, Level(limits, ledger, identity, start)) + (end - start) * limits.rate
  {
    hide Level, LedgerAfter, LedgerDecision, Past;
    LevelAfterCall(limits, ledger, call, identity);
    LevelGrows(limits, ledger, identity, start, call.now);
    AdmittedNeedsToken(limits, ledger, call);
    ProductSplits(call.now - start, end - call.now, limits.rate);
    ProductIsMonotone(0.0, call.now - start, limits.rate);
  }

  lemma {:induction false} AdmittedWithinLevel(limits: Limits, ledger: Ledger, calls: seq<Call>, identity: Identity,
                                               start: real)
    requires limits.rate >= 0.0 && Past(ledger, start) && InOrder(calls, start)
    ensures AdmittedCount(limits, ledger, calls, identity) as real
         <= Max(0.0, Level(limits, ledger, identity, start)) + (EndOf(calls, start) - start) * limits.rate
    decreases |calls|
  {
    hide Level, LedgerAfter, LedgerDecision, Past, InOrder;
    if calls != [] {
      InOrderTail(calls, start);
      PastAfterCall(limits, ledger, calls[0], start);
      AdmittedWithinLevel(limits, LedgerAfter(limits, ledger, calls[0]), calls[1..], identity, calls[0].now);
      CallWithinLevel(limits, ledger, calls[0], identity, start, EndOf(calls, start));
    }
  }

  lemma AdmittedNeedsToken(limits: Limits, ledger: Ledger, call: Call)
    ensures LedgerDecision(limits, ledger, call).Admitted? <==> Level(limits, ledger, call.identity, call.now) >= 1.0
  {
  }

  /** Any stretch of calls admits at most the capacity plus what its duration refills. */
  lemma RateBound(limits: Limits, ledger: Ledger, calls: seq<Call>, identity: Identity, start: real)
    requires limits.rate >= 0.0 && limits.capacity >= 0.0 && Past(ledger, start) && InOrder(calls, start)
    ensures AdmittedCount(limits, ledger, calls, identity) as real
         <= limits.capacity + (EndOf(calls, start) - start) * limits.rate
  {
    AdmittedWithinLevel(limits, ledger, calls, identity, start);
    LevelIsCapped(limits, ledger, identity, start);
  }

  // ----- rejected calls cost nothing

  /** From `start` on the two ledgers grant the same levels. */
  ghost predicate SameLevels(limits: Limits, a: Ledger, b: Ledger, start: real) {
    forall id, now :: now >= start ==> Level(limits, a, id, now) == Level(limits, b, id, now)
  }

  lemma SameLevelsAfterCall(limits: Limits, a: Ledger, b: Ledger, call: Call, start: real)
    requires limits.rate >= 0.0 && Past(a, start) && Past(b, start) && start <= call.now
    requires SameLevels(limits, a, b, start)
    ensures LedgerDecision(limits, a, call) == LedgerDecision(limits, b, call)
    ensures SameLevels(limits, LedgerAfter(limits, a, call), LedgerAfter(limits, b, call), call.now)
  {
    hide Refill;
    forall id, now | now >= call.now
      ensures Level(limits, LedgerAfter(limits, a, call), id, now)
        == Level(limits, LedgerAfter(limits, b, call), id, now)
    {
      assert Level(limits, a, id, now) == Level(limits, b, id, now);
      assert Level(limits, a, call.identity, call.now) == Level(limits, b, call.identity, call.now);
      if id != call.identity {
        UntouchedLevel(limits, a, call, id, now);
        UntouchedLevel(limits, b, call, id, now);
      }
    }
  }

  lemma UntouchedLevel(limits: Limits, ledger: Ledger, call: Call, id: Identity, now: real)
    requires id != call.identity
    ensures Level(limits, LedgerAfter(limits, ledger, call), id, now) == Level(limits, ledger, id, now)
  {
  }

  lemma {:induction false} SameLevelsSameDecisions(limits: Limits, a: Ledger, b: Ledger, calls: seq<Call>, start: real)
    requires limits.rate >= 0.0 && Past(a, start) && Past(b, start) && InOrder(calls, start)
    requires SameLevels(limits, a, b, start)
    ensures LedgerDecisions(limits, a, calls) == LedgerDecisions(limits, b, calls)
    decreases |calls|
  {
    hide Level, SameLevels, LedgerAfter, LedgerDecision, Past, InOrder;
    if calls != [] {
      InOrderTail(calls, start);
      SameLevelsAfterCall(limits, a, b, calls[0], start);
      PastAfterCall(limits, a, calls[0], start);
      PastAfterCall(limits, b, calls[0], start);
      SameLevelsSameDecisions(limits, LedgerAfter(limits, a, calls[0]), LedgerAfter(limits, b, calls[0]), calls[1..],
                              calls[0].now);
    }
  }

  lemma RejectedKeepsLevels(limits: Limits, ledger: Ledger, call: Call, start: real)
    requires limits.rate >= 0.0 && Past(ledger, start) && start <= call.now
    requires !LedgerDecision(limits, ledger, call).Admitted?
    ensures SameLevels(limits, LedgerAfter(limits, ledger, call), ledger, call.now)
  {
    forall id, now | now >= call.now
      ensures Level(limits, LedgerAfter(limits, ledger, call), id, now) == Level(limits, ledger, id, now)
    {
      if id == call.identity {
        RejectedKeepsLevel(limits, ledger, call, now);
      } else {
        UntouchedLevel(limits, ledger, call, id, now);
      }
    }
  }

  lemma RejectedKeepsLevel(limits: Limits, ledger: Ledger, call: Call, now: real)
    requires limits.rate >= 0.0 && Past(ledger, call.now) && now >= call.now
    requires !LedgerDecision(limits, ledger, call).Admitted?
    ensures Level(limits, LedgerAfter(limits, ledger, call), call.identity, now)
      == Level(limits, ledger, call.identity, now)
  {
    hide Refill;
    AdmittedNeedsToken(limits, ledger, call);
    if call.identity in ledger {
      RefillTwice(limits, ledger[call.identity], call.now, now);
    } else {
      FullStaysFull(limits, call.now, now);
      FullStaysFull(limits, now, now);
      RefillTwice(limits, Bucket(limits.capacity, call.now), call.now, now);
    }
  }

  lemma FullStaysFull(limits: Limits, since: real, now: real)
    requires limits.rate >= 0.0 && since <= now
    ensures Refill(limits, Bucket(limits.capacity, since), now) == limits.capacity
  {
    ProductIsMonotone(0.0, now - since, limits.rate);
  }

  /** Leaving out a rejected call changes no later decision, retry times included. */
  lemma RejectedCallsAreFree(limits: Limits, ledger: Ledger, rejected: Call, later: seq<Call>, start: real)
    requires limits.rate >= 0.0 && Past(ledger, start) && start <= rejected.now && InOrder(later, rejected.now)
    requires !LedgerDecision(limits, ledger, rejected).Admitted?
    ensures LedgerDecisions(limits, LedgerAfter(limits, ledger, rejected), later)
      == LedgerDecisions(limits, ledger, later)
  {
    hide SameLevels, Level, LedgerAfter;
    RejectedKeepsLevels(limits, ledger, rejected, start);
    PastAfterCall(limits, ledger, rejected, start);
    StillPast(ledger, start, rejected.now);
    SameLevelsSameDecisions(limits, LedgerAfter(limits, ledger, rejected), ledger, later, rejected.now);
  }

  lemma StillPast(ledger: Ledger, start: real, now: real)
    requires Past(ledger, start) && start <= now
    ensures Past(ledger, now)
  {
  }

  // ----- waiting as told

  lemma {:induction false} LevelWithoutAdmission(limits: Limits, ledger: Ledger, calls: seq<Call>, identity: Identity,
                                                 start: real, now: real)
    requires limits.rate >= 0.0 && Past(ledger, start) && InOrder(calls, start) && EndOf(calls, start) <= now
    requires AdmittedCount(limits, ledger, calls, identity) == 0
    ensures Level(limits, LedgerRun(limits, ledger, calls), identity, now) == Level(limits, ledger, identity, now)
    decreases |calls|
  {
    hide Level, LedgerAfter, LedgerDecision, Past, InOrder;
    if calls != [] {
      var call := calls[0];
      InOrderTail(calls, start);
      PastAfterCall(limits, ledger, call, start);
      StillPast(ledger, start, call.now);
      LevelWithoutAdmission(limits, LedgerAfter(limits, ledger, call), calls[1..], identity, call.now, now);
      if call.identity == identity {
        RejectedKeepsLevel(limits, ledger, call, now);
      } else {
        UntouchedLevel(limits, ledger, call, identity, now);
      }
    }
  }

  lemma WaitRefillsOneToken(limits: Limits, level: real, wait: real)
    requires limits.rate > 0.0 && level < 1.0 && Judge(limits, level).Limited?
    requires wait >= Judge(limits, level).retryAfter as real
    ensures level + wait * limits.rate >= 1.0
  {
    var needed := (1.0 - level) / limits.rate;
    assert needed >= 0.0;
    assert wait >= needed;
    ProductIsMonotone(needed, wait, limits.rate);
    assert needed * limits.rate == 1.0 - level;
  }

  /** The stated wait is the time to the next whole token, rounded up to the next whole second. */
  lemma WaitIsTight(limits: Limits, level: real)
    requires limits.rate > 0.0 && 0.0 <= level < 1.0
    ensures Judge(limits, level).Limited?
    ensures var wait := Judge(limits, level).retryAfter as real;
            (1.0 - level) / limits.rate < wait <= (1.0 - level) / limits.rate + 1.0
  {
    assert (1.0 - level) / limits.rate > 0.0;
  }

  /**
   After a rejection, with no admission of the identity in between, a retry that waited as long as
   it was told succeeds if and only if the bucket can hold a token at all.
   */
  lemma RetryAfterIsEnough(limits: Limits, ledger: Ledger, rejected: Call, between: seq<Call>, start: real, now: real)
    requires limits.rate > 0.0 && Past(ledger, start) && start <= rejected.now
    requires LedgerDecision(limits, ledger, rejected).Limited?
    requires var after := LedgerAfter(limits, ledger, rejected);
             InOrder(between, rejected.now) && AdmittedCount(limits, after, between, rejected.identity) == 0
    requires EndOf(between, rejected.now) <= now
    requires rejected.now + LedgerDecision(limits, ledger, rejected).retryAfter as real <= now
    ensures var after := LedgerRun(limits, LedgerAfter(limits, ledger, rejected), between);
            LedgerDecision(limits, after, Call(rejected.identity, now)).Admitted? <==> limits.capacity >= 1.0
  {
    hide Level, LedgerAfter, Past, InOrder, Judge, AdmittedCount, EndOf;
    var id := rejected.identity;
    var level := Level(limits, ledger, id, rejected.now);
    PastAfterCall(limits, ledger, rejected, start);
    StillPast(ledger, start, rejected.now);
    AtLeastOneSecond(limits, level);
    LevelWithoutAdmission(limits, LedgerAfter(limits, ledger, rejected), between, id, rejected.now, now);
    RejectedKeepsLevel(limits, ledger, rejected, now);
    LevelGrows(limits, ledger, id, rejected.now, now);
    WaitRefillsOneToken(limits, level, now - rejected.now);
    AdmittedNeedsToken(limits, LedgerRun(limits, LedgerAfter(limits, ledger, rejected), between), Call(id, now));
  }

  lemma AtLeastOneSecond(limits: Limits, level: real)
    ensures Judge(limits, level).Limited? ==> level < 1.0 && Judge(limits, level).retryAfter >= 1
  {
  }

  // ----- the bounded limiter decides like the reference limiter

  ghost predicate OldestFirst(st: LimiterState) {
    forall i, j :: 0 <= i < j < |st.order| && st.order[i] in st.buckets && st.order[j] in st.buckets ==>
      st.buckets[st.order[i]].updatedAt <= st.buckets[st.order[j]].updatedAt
  }

  /** The bounded limiter holds the reference buckets except for idle ones. */
  ghost predicate Tracks(limits: Limits, st: LimiterState, ledger: Ledger, now: real) {
    && Indexed(st) && OldestFirst(st) && Past(ledger, now)
    && (forall id :: id in st.buckets ==> id in ledger && ledger[id] == st.buckets[id])
    && (forall id :: id in ledger && id !in st.buckets ==> ledger[id].updatedAt < now - limits.idleTtl)
    && (forall id :: id in ledger ==> ledger[id].tokens >= 0.0)
  }

  lemma DropFirstTracks(limits: Limits, st: LimiterState, ledger: Ledger, now: real)
    requires Tracks(limits, st, ledger, now) && st.order != []
    requires st.buckets[st.order[0]].updatedAt < now - limits.idleTtl
    ensures Tracks(limits, LimiterState(st.order[1..], st.buckets - {st.order[0]}), ledger, now)
  {
    DropFirstIsIndexed(st);
  }

  lemma {:induction false} DropIdleTracks(limits: Limits, st: LimiterState, ledger: Ledger, now: real)
    requires Tracks(limits, st, ledger, now)
    ensures Tracks(limits, DropIdle(st, now - limits.idleTtl), ledger, now)
    decreases |st.order|
  {
    hide Tracks;
    if st.order != [] && st.order[0] in st.buckets && st.buckets[st.order[0]].updatedAt < now - limits.idleTtl {
      DropFirstTracks(limits, st, ledger, now);
      DropIdleTracks(limits, LimiterState(st.order[1..], st.buckets - {st.order[0]}), ledger, now);
    }
  }

  lemma TracksLater(limits: Limits, st: LimiterState, ledger: Ledger, start: real, now: real)
    requires Tracks(limits, st, ledger, start) && start <= now
    ensures Tracks(limits, st, ledger, now)
  {
  }

  /** An idle bucket has refilled completely by the time it is dropped. */
  lemma TrackedLevel(limits: Limits, st: LimiterState, ledger: Ledger, identity: Identity, now: real)
    requires limits.rate > 0.0 && limits.idleTtl * limits.rate >= limits.capacity
    requires Tracks(limits, st, ledger, now)
    ensures Level(limits, st.buckets, identity, now) == Level(limits, ledger, identity, now)
  {
    if identity in ledger && identity !in st.buckets {
      ProductIsMonotone(limits.idleTtl, now - ledger[identity].updatedAt, limits.rate);
    }
  }

  lemma {:induction false} WithoutStaysSorted(st: LimiterState, identity: Identity)
    requires OldestFirst(st)
    ensures OldestFirst(LimiterState(Without(st.order, identity), st.buckets))
    decreases |st.order|
  {
    if st.order != [] {
      var rest := LimiterState(st.order[1..], st.buckets);
      WithoutStaysSorted(rest, identity);
      if st.order[0] != identity {
        forall j | 0 <= j < |Without(rest.order, identity)|
          ensures Without(rest.order, identity)[j] in st.order[1..]
        {
          WithoutIsPart(rest.order, identity, Without(rest.order, identity)[j]);
        }
      }
    }
  }

  lemma {:induction false} WithoutIsPart(order: seq<Identity>, identity: Identity, id: Identity)
    ensures id in Without(order, identity) ==> id in order
  {
    if order != [] {
      WithoutIsPart(order[1..], identity, id);
    }
  }

  // ----- who is forgotten

  /** The recorded identities are in the order of their last request, none of which lies after `now`. */
  ghost predicate InUseOrder(st: LimiterState, now: real) {
    Indexed(st) && OldestFirst(st) && forall id :: id in st.buckets ==> st.buckets[id].updatedAt <= now
  }

  /** The identities heard from within the idle time before `now`. */
  ghost function Recent(limits: Limits, st: LimiterState, now: real): set<Identity> {
    set id | id in st.buckets && st.buckets[id].updatedAt >= now - limits.idleTtl
  }

  /** Of the identities in `among`, `id` was heard from the longest time ago. */
  ghost predicate IsLeastRecent(order: seq<Identity>, among: set<Identity>, id: Identity) {
    exists i :: 0 <= i < |order| && order[i] == id && id in among && forall j :: 0 <= j < i ==> order[j] !in among
  }

  /** Idle identities form a front part of the order, so dropping from the front drops exactly those. */
  lemma {:induction false} DropIdleKeepsRecent(limits: Limits, st: LimiterState, now: real)
    requires InUseOrder(st, now)
    ensures var left := DropIdle(st, now - limits.idleTtl);
            && InUseOrder(left, now) && left.buckets.Keys == Recent(limits, st, now)
            && (forall id :: id in left.buckets ==> id in st.buckets && left.buckets[id] == st.buckets[id])
            && (left.order != [] ==> IsLeastRecent(st.order, Recent(limits, st, now), left.order[0]))
    decreases |st.order|
  {
    hide InUseOrder, Recent, IsLeastRecent;
    if st.order != [] && st.order[0] in st.buckets && st.buckets[st.order[0]].updatedAt < now - limits.idleTtl {
      var rest := LimiterState(st.order[1..], st.buckets - {st.order[0]});
      DropFirstKeepsRecent(limits, st, now);
      DropIdleKeepsRecent(limits, rest, now);
      var left := DropIdle(rest, now - limits.idleTtl);
      if left.order != [] {
        LeastRecentOfRest(st.order, Recent(limits, st, now), left.order[0]);
      }
    } else {
      EveryoneRecent(limits, st, now);
    }
  }

  lemma DropFirstKeepsRecent(limits: Limits, st: LimiterState, now: real)
    requires InUseOrder(st, now) && st.order != []
    ensures var rest := LimiterState(st.order[1..], st.buckets - {st.order[0]});
            && InUseOrder(rest, now) && st.order[0] in st.buckets
            && (st.buckets[st.order[0]].updatedAt < now - limits.idleTtl ==>
                  Recent(limits, rest, now) == Recent(limits, st, now) && st.order[0] !in Recent(limits, st, now))
  {
    hide Distinct;
    DropFirstIsIndexed(st);
    assert st.order[0] in st.order;
  }

  lemma LeastRecentOfRest(order: seq<Identity>, among: set<Identity>, id: Identity)
    requires order != [] && order[0] !in among && IsLeastRecent(order[1..], among, id)
    ensures IsLeastRecent(order, among, id)
  {
    var i :| 0 <= i < |order[1..]| && order[1..][i] == id && forall j :: 0 <= j < i ==> order[1..][j] !in among;
    assert order[i + 1] == id;
    assert forall j :: 0 < j < i + 1 ==> order[j] == order[1..][j - 1];
  }

  lemma EveryoneRecent(limits: Limits, st: LimiterState, now: real)
    requires InUseOrder(st, now)
    requires st.order != [] && st.order[0] in st.buckets ==>
               st.buckets[st.order[0]].updatedAt >= now - limits.idleTtl
    ensures st.buckets.Keys == Recent(limits, st, now)
    ensures st.order != [] ==> IsLeastRecent(st.order, Recent(limits, st, now), st.order[0])
  {
    forall id | id in st.buckets ensures id in Recent(limits, st, now) {
      assert id in st.order;
      var i :| 0 <= i < |st.order| && st.order[i] == id;
    }
    if st.order != [] {
      assert st.order[0] in st.buckets;
    }
  }

  /**
   Whom a request makes the limiter forget: those idle for longer than the idle time and, when the caller is not
   among the others and they fill the limiter, the one of them heard from the longest time ago. Nobody else's
   bucket changes.
   */
  lemma ForgottenIff(limits: Limits, st: LimiterState, call: Call, id: Identity)
    requires InUseOrder(st, call.now) && id in st.buckets && id != call.identity
    ensures var recent := Recent(limits, st, call.now);
            var after := StateAfter(limits, st, call);
            && (id !in after.buckets <==>
                  || id !in recent
                  || (call.identity !in recent && |recent| >= limits.maxIdentities
                      && IsLeastRecent(st.order, recent, id)))
            && (id in after.buckets ==> after.buckets[id] == st.buckets[id])
  {
    hide DropIdle, IsLeastRecent, OldestFirst, Distinct, Without, Level, AfterCall, Recent;
    DropIdleKeepsRecent(limits, st, call.now);
    var left := DropIdle(st, call.now - limits.idleTtl);
    assert |left.buckets| == |left.buckets.Keys|;
    if id in left.buckets {
      assert id in left.order;
      OneLeastRecent(st.order, Recent(limits, st, call.now), id, left.order[0]);
    }
  }

  lemma OneLeastRecent(order: seq<Identity>, among: set<Identity>, a: Identity, b: Identity)
    requires IsLeastRecent(order, among, b)
    ensures IsLeastRecent(order, among, a) <==> a == b
  {
  }

  /** The order of last requests is kept by every request in time order, evictions included. */
  lemma StaysInUseOrder(limits: Limits, st: LimiterState, call: Call)
    requires InUseOrder(st, call.now)
    ensures InUseOrder(StateAfter(limits, st, call), call.now)
    ensures call.identity in StateAfter(limits, st, call).buckets
  {
    hide InUseOrder, DropIdle, Level, AfterCall;
    DropIdleKeepsRecent(limits, st, call.now);
    var left := DropIdle(st, call.now - limits.idleTtl);
    if left.order != [] {
      DropFirstKeepsRecent(limits, left, call.now);
    }
    var ready := MakeRoom(limits, left, call.identity);
    var level := Level(limits, ready.buckets, call.identity, call.now);
    AfterCallIsNow(level, call.now);
    TouchedStaysInUseOrder(ready, call.identity, AfterCall(level, call.now), call.now);
  }

  lemma AfterCallIsNow(level: real, now: real)
    ensures AfterCall(level, now).updatedAt == now
  {
  }

  lemma TouchedStaysInUseOrder(st: LimiterState, identity: Identity, bucket: Bucket, now: real)
    requires InUseOrder(st, now) && bucket.updatedAt == now
    ensures InUseOrder(LimiterState(Without(st.order, identity) + [identity], st.buckets[identity := bucket]), now)
  {
    hide Indexed, OldestFirst, Without;
    TouchedIsIndexed(st, identity, bucket);
    TouchedIsSorted(st, identity, bucket);
  }

  function StateRun(limits: Limits, st: LimiterState, calls: seq<Call>): LimiterState
    decreases |calls|
  {
    if calls == [] then st else StateRun(limits, StateAfter(limits, st, calls[0]), calls[1..])
  }

  /** After any run in time order the recorded identities are in the order of their last request. */
  lemma {:induction false} RunsKeepUseOrder(limits: Limits, st: LimiterState, calls: seq<Call>, start: real)
    requires InUseOrder(st, start) && InOrder(calls, start)
    ensures InUseOrder(StateRun(limits, st, calls), EndOf(calls, start))
    decreases |calls|
  {
    if calls != [] {
      StaysInUseOrder(limits, st, calls[0]);
      assert InOrder(calls[1..], calls[0].now);
      RunsKeepUseOrder(limits, StateAfter(limits, st, calls[0]), calls[1..], calls[0].now);
    }
  }

  /** No identity has to be evicted to make room for the call. */
  ghost predicate HasRoom(limits: Limits, st: LimiterState, call: Call) {
    var ready := DropIdle(st, call.now - limits.idleTtl);
    call.identity in ready.buckets || |ready.buckets| < limits.maxIdentities
  }

  lemma TracksAfterCall(limits: Limits, st: LimiterState, ledger: Ledger, call: Call, start: real)
    requires limits.rate > 0.0 && limits.idleTtl * limits.rate >= limits.capacity >= 0.0 && limits.idleTtl > 0.0
    requires Tracks(limits, st, ledger, start) && start <= call.now && HasRoom(limits, st, call)
    ensures StateDecision(limits, st, call) == LedgerDecision(limits, ledger, call)
    ensures Tracks(limits, StateAfter(limits, st, call), LedgerAfter(limits, ledger, call), call.now)
  {
    hide Tracks, DropIdle, Level, Without, AfterCall;
    TracksLater(limits, st, ledger, start, call.now);
    DropIdleTracks(limits, st, ledger, call.now);
    var ready := DropIdle(st, call.now - limits.idleTtl);
    TrackedLevel(limits, ready, ledger, call.identity, call.now);
    LevelIsNatural(limits, ledger, call.identity, call.now, ready);
    TracksAfterTouch(limits, ready, ledger, call, AfterCall(Level(limits, ledger, call.identity, call.now), call.now));
    AfterCallIsNatural(Level(limits, ledger, call.identity, call.now), call.now);
  }

  lemma AfterCallIsNatural(level: real, now: real)
    requires level >= 0.0
    ensures AfterCall(level, now).tokens >= 0.0 && AfterCall(level, now).updatedAt == now
  {
  }

  lemma LevelIsNatural(limits: Limits, ledger: Ledger, identity: Identity, now: real, st: LimiterState)
    requires limits.rate > 0.0 && limits.capacity >= 0.0 && Tracks(limits, st, ledger, now)
    ensures Level(limits, ledger, identity, now) >= 0.0
    ensures AfterCall(Level(limits, ledger, identity, now), now).tokens >= 0.0
    ensures AfterCall(Level(limits, ledger, identity, now), now).updatedAt == now
  {
    if identity in ledger {
      ProductIsMonotone(0.0, now - ledger[identity].updatedAt, limits.rate);
    }
  }

  lemma TracksAfterTouch(limits: Limits, st: LimiterState, ledger: Ledger, call: Call, bucket: Bucket)
    requires Tracks(limits, st, ledger, call.now) && limits.idleTtl > 0.0
    requires bucket.tokens >= 0.0 && bucket.updatedAt == call.now
    ensures Tracks(limits,
                   LimiterState(Without(st.order, call.identity) + [call.identity],
                                st.buckets[call.identity := bucket]),
                   ledger[call.identity := bucket], call.now)
  {
    hide Indexed, OldestFirst, Without;
    TouchedIsIndexed(st, call.identity, bucket);
    TouchedIsSorted(st, call.identity, bucket);
  }

  lemma TouchedIsSorted(st: LimiterState, identity: Identity, bucket: Bucket)
    requires Indexed(st) && OldestFirst(st) && forall id ::
      id in st.buckets ==> st.buckets[id].updatedAt <= bucket.updatedAt
    ensures OldestFirst(LimiterState(Without(st.order, identity) + [identity], st.buckets[identity := bucket]))
  {
    hide Distinct, Without;
    WithoutStaysSorted(st, identity);
    WithoutContents(st.order, identity);
    var rest := Without(st.order, identity);
    assert forall i :: 0 <= i < |rest| ==> rest[i] in rest;
  }

  ghost predicate AlwaysRoom(limits: Limits, st: LimiterState, calls: seq<Call>)
    decreases |calls|
  {
    calls == [] || (HasRoom(limits, st, calls[0]) && AlwaysRoom(limits, StateAfter(limits, st, calls[0]), calls[1..]))
  }

  /**
   On every run in time order in which no identity is evicted for room, the bounded limiter decides
   exactly like one that keeps every bucket for ever, provided a bucket refills within the idle time.
   */
  lemma {:induction false} BoundedDecidesLikeLedger(limits: Limits, st: LimiterState, ledger: Ledger, calls: seq<Call>,
                                                    start: real)
    requires limits.rate > 0.0 && limits.idleTtl * limits.rate >= limits.capacity >= 0.0 && limits.idleTtl > 0.0
    requires Tracks(limits, st, ledger, start) && InOrder(calls, start) && AlwaysRoom(limits, st, calls)
    ensures StateDecisions(limits, st, calls) == LedgerDecisions(limits, ledger, calls)
    decreases |calls|
  {
    hide Tracks, InOrder, HasRoom, StateAfter, StateDecision, LedgerAfter, LedgerDecision;
    if calls != [] {
      InOrderTail(calls, start);
      TracksAfterCall(limits, st, ledger, calls[0], start);
      BoundedDecidesLikeLedger(limits, StateAfter(limits, st, calls[0]), LedgerAfter(limits, ledger, calls[0]),
                               calls[1..], calls[0].now);
    }
  }

  function CountAdmitted(calls: seq<Call>, decisions: seq<Decision>, identity: Identity): nat
    requires |calls| == |decisions|
  {
    if calls == [] then 0
    else (if calls[0].identity == identity && decisions[0].Admitted? then 1 else 0)
         + CountAdmitted(calls[1..], decisions[1..], identity)
  }

  lemma {:induction false} CountOfLedger(limits: Limits, ledger: Ledger, calls: seq<Call>, identity: Identity)
    ensures |LedgerDecisions(limits, ledger, calls)| == |calls|
    ensures CountAdmitted(calls, LedgerDecisions(limits, ledger, calls), identity)
      == AdmittedCount(limits, ledger, calls, identity)
    decreases |calls|
  {
    hide LedgerDecision, LedgerAfter;
    if calls != [] {
      CountOfLedger(limits, LedgerAfter(limits, ledger, calls[0]), calls[1..], identity);
      assert LedgerDecisions(limits, ledger, calls)[1..]
        == LedgerDecisions(limits, LedgerAfter(limits, ledger, calls[0]), calls[1..]);
    }
  }

  /** The rate bound for the bounded limiter itself, over any stretch of a run. */
  lemma BoundedRateBound(limits: Limits, st: LimiterState, ledger: Ledger, calls: seq<Call>, identity: Identity,
                         start: real)
    requires limits.rate > 0.0 && limits.idleTtl * limits.rate >= limits.capacity >= 0.0 && limits.idleTtl > 0.0
    requires Tracks(limits, st, ledger, start) && InOrder(calls, start) && AlwaysRoom(limits, st, calls)
    ensures |StateDecisions(limits, st, calls)| == |calls|
    ensures CountAdmitted(calls, StateDecisions(limits, st, calls), identity) as real
         <= limits.capacity + (EndOf(calls, start) - start) * limits.rate
  {
    hide InOrder, AlwaysRoom, Indexed, OldestFirst;
    BoundedDecidesLikeLedger(limits, st, ledger, calls, start);
    CountOfLedger(limits, ledger, calls, identity);
    RateBound(limits, ledger, calls, identity, start);
  }

  lemma EmptyTracks(limits: Limits, start: real)
    ensures Tracks(limits, EMPTY, map[], start)
  {
  }

  /** The same from a new limiter, whose runs over few identities always have room. */
  lemma NewLimiterRateBound(limits: Limits, calls: seq<Call>, identity: Identity, start: real)
    requires limits.rate > 0.0 && limits.idleTtl * limits.rate >= limits.capacity >= 0.0 && limits.idleTtl > 0.0
    requires InOrder(calls, start) && |(set call | call in calls :: call.identity)| <= limits.maxIdentities
    ensures |StateDecisions(limits, EMPTY, calls)| == |calls|
    ensures CountAdmitted(calls, StateDecisions(limits, EMPTY, calls), identity) as real
         <= limits.capacity + (EndOf(calls, start) - start) * limits.rate
  {
    hide InOrder, AlwaysRoom, Indexed, Tracks;
    EmptyTracks(limits, start);
    EmptyIsIndexed();
    FewIdentitiesAlwaysRoom(limits, EMPTY, calls, set call | call in calls :: call.identity);
    BoundedRateBound(limits, EMPTY, map[], calls, identity, start);
  }

  lemma FewIdentitiesStay(limits: Limits, st: LimiterState, call: Call, identities: set<Identity>)
    requires Indexed(st) && st.buckets.Keys <= identities && |identities| <= limits.maxIdentities
      && call.identity in identities
    ensures HasRoom(limits, st, call)
    ensures Indexed(StateAfter(limits, st, call)) && StateAfter(limits, st, call).buckets.Keys <= identities
  {
    hide Indexed, DropIdle, AfterCall, Level;
    var ready := DropIdle(st, call.now - limits.idleTtl);
    DropIdleShrinks(st, call.now - limits.idleTtl);
    DropIdleIsIndexed(st, call.now - limits.idleTtl);
    if call.identity !in ready.buckets {
      ProperSubset(ready.buckets.Keys, identities, call.identity);
    }
    TouchedIsIndexed(ready, call.identity, AfterCall(Level(limits, ready.buckets, call.identity, call.now), call.now));
  }

  /** Enough room for the distinct identities of a run is room throughout. */
  lemma {:induction false} FewIdentitiesAlwaysRoom(limits: Limits, st: LimiterState, calls: seq<Call>,
                                                   identities: set<Identity>)
    requires Indexed(st) && st.buckets.Keys <= identities && |identities| <= limits.maxIdentities
    requires forall call :: call in calls ==> call.identity in identities
    ensures AlwaysRoom(limits, st, calls)
    decreases |calls|
  {
    hide Indexed, StateAfter, HasRoom;
    if calls != [] {
      var call := calls[0];
      FewIdentitiesStay(limits, st, call, identities);
      FewIdentitiesAlwaysRoom(limits, StateAfter(limits, st, call), calls[1..], identities);
    }
  }

  lemma ProperSubset(a: set<Identity>, b: set<Identity>, x: Identity)
    requires a <= b && x in b && x !in a
    ensures |a| < |b|
  {
    assert b == a + (b - a) && x in b - a;
  }

  lemma {:induction false} DropIdleShrinks(st: LimiterState, staleBefore: real)
    ensures DropIdle(st, staleBefore).buckets.Keys <= st.buckets.Keys
    decreases |st.order|
  {
    if st.order != [] && st.order[0] in st.buckets && st.buckets[st.order[0]].updatedAt < staleBefore {
      DropIdleShrinks(LimiterState(st.order[1..], st.buckets - {st.order[0]}), staleBefore);
    }
  }

  // ----- exactly when dropping idle buckets changes nothing

  /** On every run in time order with room for its identities, a new limiter decides like one that drops no bucket. */
  ghost predicate AgreesFromEmpty(limits: Limits) {
    forall calls, start :: InOrder(calls, start) && AlwaysRoom(limits, EMPTY, calls) ==>
      StateDecisions(limits, EMPTY, calls) == LedgerDecisions(limits, map[], calls)
  }

  /** A limiter that knows one identity. */
  function One(identity: Identity, tokens: real, updatedAt: real): LimiterState {
    LimiterState([identity], map[identity := Bucket(tokens, updatedAt)])
  }

  /** `n` calls of one identity at one instant. */
  function Burst(call: Call, n: nat): seq<Call> {
    if n == 0 then [] else [call] + Burst(call, n - 1)
  }

  function AllAdmitted(n: nat): seq<Decision> {
    if n == 0 then [] else [Admitted] + AllAdmitted(n - 1)
  }

  lemma {:induction false} BurstIs(call: Call, n: nat)
    ensures |Burst(call, n)| == n && forall i :: 0 <= i < n ==> Burst(call, n)[i] == call
  {
    if n > 0 {
      BurstIs(call, n - 1);
    }
  }

  lemma SpendOne(limits: Limits, identity: Identity, tokens: real, now: real)
    requires limits.idleTtl > 0.0 && 1.0 <= tokens <= limits.capacity
    ensures StateDecision(limits, One(identity, tokens, now), Call(identity, now)) == Admitted
    ensures StateAfter(limits, One(identity, tokens, now), Call(identity, now)) == One(identity, tokens - 1.0, now)
    ensures LedgerDecision(limits, map[identity := Bucket(tokens, now)], Call(identity, now)) == Admitted
    ensures LedgerAfter(limits, map[identity := Bucket(tokens, now)], Call(identity, now))
      == map[identity := Bucket(tokens - 1.0, now)]
  {
    assert [identity][1..] == [] && Without([identity], identity) == [];
    var st := One(identity, tokens, now);
    assert Prepared(limits, st, Call(identity, now)) == st;
    assert Level(limits, st.buckets, identity, now) == tokens;
    assert LedgerAfter(limits, st.buckets, Call(identity, now)) == map[identity := Bucket(tokens - 1.0, now)];
  }

  lemma EmptyAfterIdle(limits: Limits, st: LimiterState, identity: Identity, at: real, now: real)
    requires st == EMPTY || (st == One(identity, 0.0, at) && at < now - limits.idleTtl)
    ensures DropIdle(st, now - limits.idleTtl) == EMPTY
  {
    if st != EMPTY {
      assert st.order[1..] == [] && st.buckets - {identity} == map[];
    }
  }

  /** From nothing, and from a bucket idle for too long, a first call finds a full bucket. */
  lemma FirstCallFindsFull(limits: Limits, st: LimiterState, identity: Identity, at: real, now: real)
    requires st == EMPTY || st == One(identity, 0.0, at)
    requires st == EMPTY || at < now - limits.idleTtl
    requires limits.maxIdentities >= 1 && limits.capacity >= 1.0
    ensures StateDecision(limits, st, Call(identity, now)) == Admitted
    ensures StateAfter(limits, st, Call(identity, now)) == One(identity, limits.capacity - 1.0, now)
  {
    hide DropIdle;
    EmptyAfterIdle(limits, st, identity, at, now);
    assert Prepared(limits, st, Call(identity, now)) == EMPTY;
    assert Without([], identity) == [];
    NewLedgerIsFull(limits, identity, now);
  }

  lemma NewLedgerIsFull(limits: Limits, identity: Identity, now: real)
    requires limits.capacity >= 1.0
    ensures LedgerDecision(limits, map[], Call(identity, now)) == Admitted
    ensures LedgerAfter(limits, map[], Call(identity, now)) == map[identity := Bucket(limits.capacity - 1.0, now)]
  {
  }

  lemma BurstSplits(call: Call, n: nat, rest: seq<Call>)
    requires n > 0
    ensures (Burst(call, n) + rest)[0] == call && (Burst(call, n) + rest)[1..] == Burst(call, n - 1) + rest
    ensures Burst(call, n) + rest != []
  {
  }

  /** The first call of a burst, then the others. */
  lemma BurstDecisions(limits: Limits, st: LimiterState, ledger: Ledger, call: Call, n: nat, rest: seq<Call>)
    requires n > 0
    ensures StateDecisions(limits, st, Burst(call, n) + rest)
         == [StateDecision(limits, st, call)]
           + StateDecisions(limits, StateAfter(limits, st, call), Burst(call, n - 1) + rest)
    ensures LedgerDecisions(limits, ledger, Burst(call, n) + rest)
         == [LedgerDecision(limits, ledger, call)]
           + LedgerDecisions(limits, LedgerAfter(limits, ledger, call), Burst(call, n - 1) + rest)
  {
    hide StateDecision, StateAfter, LedgerDecision, LedgerAfter, Burst;
    BurstSplits(call, n, rest);
  }

  lemma OneMoreAdmitted(n: nat, rest: seq<Decision>)
    requires n > 0
    ensures [Admitted] + (AllAdmitted(n - 1) + rest) == AllAdmitted(n) + rest
  {
  }

  /** `n` tokens admit `n` calls at once, and nothing is left, for the limiter and for the ledger. */
  lemma {:induction false} SpendAll(limits: Limits, identity: Identity, n: nat, now: real, rest: seq<Call>)
    requires limits.idleTtl > 0.0 && n as real <= limits.capacity
    ensures StateDecisions(limits, One(identity, n as real, now), Burst(Call(identity, now), n) + rest)
         == AllAdmitted(n) + StateDecisions(limits, One(identity, 0.0, now), rest)
    ensures LedgerDecisions(limits, map[identity := Bucket(n as real, now)], Burst(Call(identity, now), n) + rest)
         == AllAdmitted(n) + LedgerDecisions(limits, map[identity := Bucket(0.0, now)], rest)
  {
    hide StateDecision, StateAfter, StateDecisions, LedgerDecision, LedgerAfter, LedgerDecisions, One;
    var call := Call(identity, now);
    if n == 0 {
      assert Burst(call, 0) + rest == rest;
      assert AllAdmitted(0) + StateDecisions(limits, One(identity, 0.0, now), rest)
        == StateDecisions(limits, One(identity, 0.0, now), rest);
    } else {
      BurstDecisions(limits, One(identity, n as real, now), map[identity := Bucket(n as real, now)], call, n, rest);
      SpendOne(limits, identity, n as real, now);
      SpendAll(limits, identity, n - 1, now, rest);
      assert n as real - 1.0 == (n - 1) as real;
      OneMoreAdmitted(n, StateDecisions(limits, One(identity, 0.0, now), rest));
      OneMoreAdmitted(n, LedgerDecisions(limits, map[identity := Bucket(0.0, now)], rest));
    }
  }

  /** The first burst of a new limiter, which the ledger sees the same way. */
  lemma FirstBurst(limits: Limits, identity: Identity, n: nat, now: real, rest: seq<Call>)
    requires limits.idleTtl > 0.0 && limits.maxIdentities >= 1 && n >= 1 && limits.capacity == n as real
    ensures StateDecisions(limits, EMPTY, Burst(Call(identity, now), n) + rest)
         == AllAdmitted(n) + StateDecisions(limits, One(identity, 0.0, now), rest)
    ensures LedgerDecisions(limits, map[], Burst(Call(identity, now), n) + rest)
         == AllAdmitted(n) + LedgerDecisions(limits, map[identity := Bucket(0.0, now)], rest)
  {
    hide StateDecision, StateAfter, StateDecisions, LedgerDecision, LedgerAfter, LedgerDecisions, One, Burst,
         AllAdmitted;
    BurstDecisions(limits, EMPTY, map[], Call(identity, now), n, rest);
    FirstCallFindsFull(limits, EMPTY, identity, now, now);
    NewLedgerIsFull(limits, identity, now);
    SpendAll(limits, identity, n - 1, now, rest);
    assert n as real - 1.0 == (n - 1) as real;
    OneMoreAdmitted(n, StateDecisions(limits, One(identity, 0.0, now), rest));
    OneMoreAdmitted(n, LedgerDecisions(limits, map[identity := Bucket(0.0, now)], rest));
  }

  /** A second burst after the idle time finds a full bucket again. */
  lemma BurstAfterIdle(limits: Limits, identity: Identity, n: nat, at: real, now: real)
    requires limits.idleTtl > 0.0 && limits.maxIdentities >= 1 && n >= 1 && limits.capacity == n as real
    requires at < now - limits.idleTtl
    ensures StateDecisions(limits, One(identity, 0.0, at), Burst(Call(identity, now), n)) == AllAdmitted(n)
  {
    hide StateDecision, StateAfter, StateDecisions, LedgerDecision, LedgerAfter, LedgerDecisions, One;
    var call := Call(identity, now);
    FirstCallFindsFull(limits, One(identity, 0.0, at), identity, at, now);
    BurstDecisions(limits, One(identity, 0.0, at), map[], call, n, []);
    SpendAll(limits, identity, n - 1, now, []);
    assert n as real - 1.0 == (n - 1) as real;
    NoMoreDecisions(limits, One(identity, 0.0, now));
    OneMoreAdmitted(n, []);
    assert Burst(call, n) + [] == Burst(call, n) && AllAdmitted(n) + [] == AllAdmitted(n);
  }

  lemma NoMoreDecisions(limits: Limits, st: LimiterState)
    ensures StateDecisions(limits, st, []) == []
  {
  }

  lemma LevelDrops(limits: Limits, ledger: Ledger, call: Call)
    requires limits.capacity >= 0.0 && LedgerDecision(limits, ledger, call) == Admitted
    ensures Level(limits, LedgerAfter(limits, ledger, call), call.identity, call.now)
         == Level(limits, ledger, call.identity, call.now) - 1.0
  {
  }

  /** A ledger that holds less than `n` tokens does not admit `n` calls at once. */
  lemma {:induction false} NotAllAdmitted(limits: Limits, ledger: Ledger, call: Call, n: nat)
    requires limits.capacity >= 0.0 && n >= 1 && Level(limits, ledger, call.identity, call.now) < n as real
    ensures LedgerDecisions(limits, ledger, Burst(call, n)) != AllAdmitted(n)
    decreases n
  {
    hide Level, LedgerAfter, LedgerDecision;
    var decisions := LedgerDecisions(limits, ledger, Burst(call, n));
    assert Burst(call, n)[0] == call && Burst(call, n)[1..] == Burst(call, n - 1);
    assert decisions[0] == LedgerDecision(limits, ledger, call) && AllAdmitted(n)[0] == Admitted;
    if LedgerDecision(limits, ledger, call) == Admitted {
      LevelDrops(limits, ledger, call);
      AdmittedNeedsToken(limits, ledger, call);
      NotAllAdmitted(limits, LedgerAfter(limits, ledger, call), call, n - 1);
      assert AllAdmitted(n)[1..] == AllAdmitted(n - 1);
      assert decisions[1..] == LedgerDecisions(limits, LedgerAfter(limits, ledger, call), Burst(call, n - 1));
    }
  }

  lemma TwoBurstsInOrder(identity: Identity, n: nat, now: real)
    requires now >= 0.0
    ensures InOrder(Burst(Call(identity, 0.0), n) + Burst(Call(identity, now), n), 0.0)
    ensures forall call :: call in Burst(Call(identity, 0.0), n) + Burst(Call(identity, now), n) ==>
      call.identity == identity
  {
    hide Burst;
    BurstIs(Call(identity, 0.0), n);
    BurstIs(Call(identity, now), n);
  }

  /** An instant after the idle time at which a bucket is not full yet, when there is one. */
  function Between(limits: Limits): (now: real)
    requires limits.rate > 0.0 && limits.idleTtl > 0.0 && limits.idleTtl * limits.rate < limits.capacity
    ensures limits.idleTtl < now && now * limits.rate < limits.capacity
  {
    var full := limits.capacity / limits.rate;
    assert full * limits.rate == limits.capacity;
    assert limits.idleTtl < full by {
      if full <= limits.idleTtl {
        ProductIsMonotone(full, limits.idleTtl, limits.rate);
      }
    }
    var now := (limits.idleTtl + full) / 2.0;
    assert (full - now) * limits.rate > 0.0;
    assert (full - now) * limits.rate == full * limits.rate - now * limits.rate;
    now
  }

  /**
   Two bursts, the second after the idle time but before the bucket is full: the limiter admits both, the ledger cannot.
   */
  lemma ShortIdleTimeGivesTokensAway(limits: Limits, identity: Identity, n: nat)
    requires limits.rate > 0.0 && limits.idleTtl > 0.0 && limits.maxIdentities >= 1 && n >= 1
      && limits.capacity == n as real
    requires limits.idleTtl * limits.rate < limits.capacity
    ensures !AgreesFromEmpty(limits)
  {
    hide StateDecisions, LedgerDecisions, InOrder, AlwaysRoom, One, Burst, AllAdmitted, Indexed, Level;
    var now := Between(limits);
    var first, second := Burst(Call(identity, 0.0), n), Burst(Call(identity, now), n);
    var calls := first + second;
    TwoBurstsInOrder(identity, n, now);
    EmptyIsIndexed();
    FewIdentitiesAlwaysRoom(limits, EMPTY, calls, {identity});
    FirstBurst(limits, identity, n, 0.0, second);
    BurstAfterIdle(limits, identity, n, 0.0, now);
    SpentLevel(limits, identity, now);
    NotAllAdmitted(limits, map[identity := Bucket(0.0, 0.0)], Call(identity, now), n);
    SamePrefix(AllAdmitted(n), StateDecisions(limits, One(identity, 0.0, 0.0), second),
               LedgerDecisions(limits, map[identity := Bucket(0.0, 0.0)], second));
    assert StateDecisions(limits, EMPTY, calls) != LedgerDecisions(limits, map[], calls);
  }

  lemma SamePrefix(prefix: seq<Decision>, a: seq<Decision>, b: seq<Decision>)
    ensures prefix + a == prefix + b ==> a == b
  {
    assert (prefix + a)[|prefix|..] == a && (prefix + b)[|prefix|..] == b;
  }

  lemma SpentLevel(limits: Limits, identity: Identity, now: real)
    requires now >= 0.0
    ensures Level(limits, map[identity := Bucket(0.0, 0.0)], identity, now) <= now * limits.rate
  {
  }

  lemma EmptyIsIndexed()
    ensures Indexed(EMPTY)
  {
  }

  /** Dropping idle buckets changes no decision exactly when a bucket refills within the idle time. */
  lemma DecidesLikeLedgerIff(limits: Limits, n: nat)
    requires limits.rate > 0.0 && limits.idleTtl > 0.0 && limits.maxIdentities >= 1 && n >= 1
      && limits.capacity == n as real
    ensures AgreesFromEmpty(limits) <==> limits.idleTtl * limits.rate >= limits.capacity
  {
    hide StateDecisions, LedgerDecisions, InOrder, AlwaysRoom, Tracks;
    if limits.idleTtl * limits.rate >= limits.capacity {
      forall calls, start | InOrder(calls, start) && AlwaysRoom(limits, EMPTY, calls)
        ensures StateDecisions(limits, EMPTY, calls) == LedgerDecisions(limits, map[], calls)
      {
        EmptyTracks(limits, start);
        BoundedDecidesLikeLedger(limits, EMPTY, map[], calls, start);
      }
    } else {
      ShortIdleTimeGivesTokensAway(limits, Identity(""), n);
    }
  }

  const DEFAULT_IDENTITIES := 10_000
  const DEFAULT_IDLE := 600.0

  /** With the default bounds, which both limiters of the API have: a burst of at most ten minutes' requests. */
  lemma DefaultLimiterIff(ratePerMinute: nat, burst: nat)
    requires ratePerMinute >= 1 && burst >= 1
    ensures AgreesFromEmpty(Limits(ratePerMinute as real / 60.0, burst as real, DEFAULT_IDENTITIES, DEFAULT_IDLE))
       <==> burst <= 10 * ratePerMinute
  {
    hide AgreesFromEmpty;
    DecidesLikeLedgerIff(Limits(ratePerMinute as real / 60.0, burst as real, DEFAULT_IDENTITIES, DEFAULT_IDLE), burst);
    assert 600.0 * (ratePerMinute as real / 60.0) == 10.0 * ratePerMinute as real;
  }
}
