/**
 Credit admission of a candidate route plan against the active one: demand the active plan already has may
 stay above a configured limit, but nothing above the limit may be new or grow.
 */
module CreditBudget {
  import opened Basics

  datatype Scope = Scope(name: string)

  /** What makes two committed lines the same upstream demand; `demand` stands for capability, symbol and bases. */
  datatype Identity = Identity(provider: Name, demand: nat, scopes: set<Scope>)

  datatype CreditLine = CreditLine(identity: Identity, creditsPerDay: real, committed: bool)

  type Plan = seq<CreditLine>

  /** The lines counted for a provider, or for one quota scope of it. */
  predicate Counts(id: Identity, provider: Name, scope: Option<Scope>) {
    id.provider == provider && (scope.Some? ==> scope.value in id.scopes)
  }

  /** The committed demand of one identity. */
  function Demand(plan: Plan, id: Identity): real
    decreases |plan|
  {
    if plan == [] then 0.0
    else
      var last := plan[|plan| - 1];
      Demand(plan[..|plan| - 1], id) + (if last.committed && last.identity == id then last.creditsPerDay else 0.0)
  }

  /** The plan's committed total, as the plan compiler adds it up line by line. */
  function Committed(plan: Plan, provider: Name, scope: Option<Scope>): real
    decreases |plan|
  {
    if plan == [] then 0.0
    else
      var last := plan[|plan| - 1];
      Committed(plan[..|plan| - 1], provider, scope)
      + (if last.committed && Counts(last.identity, provider, scope) then last.creditsPerDay else 0.0)
  }

  predicate NonNegative(plan: Plan) {
    forall line :: line in plan ==> line.creditsPerDay >= 0.0
  }

  function Identities(plan: Plan): set<Identity> {
    set line | line in plan && line.committed :: line.identity
  }

  function Least(a: real, b: real): real {
    if a <= b then a else b
  }

  /** Demand both plans have in common. */
  function Common(active: Plan, candidate: Plan, id: Identity): real {
    Least(Demand(active, id), Demand(candidate, id))
  }

  ghost function DemandOf(plan: Plan): Identity -> real {
    id => Demand(plan, id)
  }

  ghost function CommonOf(active: Plan, candidate: Plan): Identity -> real {
    id => Common(active, candidate, id)
  }

  // ----- sums over identities

  ghost function Pick(ids: set<Identity>): (id: Identity)
    requires ids != {}
    ensures id in ids
  {
    var id :| id in ids; id
  }

  ghost function Sum(ids: set<Identity>, f: Identity -> real): real
    decreases |ids|
  {
    if ids == {} then 0.0
    else f(Pick(ids)) + Sum(ids - {Pick(ids)}, f)
  }

  lemma {:induction false} SumWithout(ids: set<Identity>, f: Identity -> real, id: Identity)
    requires id in ids
    ensures Sum(ids, f) == f(id) + Sum(ids - {id}, f)
    decreases |ids|
  {
    var first := Pick(ids);
    if first != id {
      SumWithout(ids - {first}, f, id);
      SumWithout(ids - {id}, f, first);
      assert ids - {first} - {id} == ids - {id} - {first};
    }
  }

  lemma {:induction false} SumOrder(ids: set<Identity>, f: Identity -> real, g: Identity -> real)
    requires forall id :: id in ids ==> f(id) <= g(id)
    ensures Sum(ids, f) <= Sum(ids, g)
    ensures Sum(ids, f) == Sum(ids, g) <==> forall id :: id in ids ==> f(id) == g(id)
    decreases |ids|
  {
    if ids != {} {
      var id :| id in ids;
      SumWithout(ids, f, id);
      SumWithout(ids, g, id);
      SumOrder(ids - {id}, f, g);
    }
  }

  lemma {:induction false} SumSame(ids: set<Identity>, f: Identity -> real, g: Identity -> real)
    requires forall id :: id in ids ==> f(id) == g(id)
    ensures Sum(ids, f) == Sum(ids, g)
  {
    SumOrder(ids, f, g);
  }

  /** Identities without demand do not change a sum. */
  lemma {:induction false} SumGrow(ids: set<Identity>, more: set<Identity>, f: Identity -> real)
    requires ids <= more && forall id :: id in more - ids ==> f(id) == 0.0
    ensures Sum(ids, f) == Sum(more, f)
    decreases |more|
  {
    var extra := more - ids;
    if extra == {} {
      assert more == ids;
    } else {
      var id := Pick(extra);
      SumWithout(more, f, id);
      SumGrow(ids, more - {id}, f);
    }
  }

  function Counted(ids: set<Identity>, provider: Name, scope: Option<Scope>): set<Identity> {
    set id | id in ids && Counts(id, provider, scope)
  }

  lemma {:induction false} NoDemand(plan: Plan, id: Identity)
    requires id !in Identities(plan)
    ensures Demand(plan, id) == 0.0
    decreases |plan|
  {
    if plan != [] {
      var last := plan[|plan| - 1];
      assert last in plan;
      NoDemand(plan[..|plan| - 1], id);
    }
  }

  lemma {:induction false} DemandNonNegative(plan: Plan, id: Identity)
    requires NonNegative(plan)
    ensures Demand(plan, id) >= 0.0
    decreases |plan|
  {
    if plan != [] {
      assert plan[|plan| - 1] in plan;
      DemandNonNegative(plan[..|plan| - 1], id);
    }
  }

  /** A committed total is the sum of the demands of its identities. */
  lemma {:induction false} CommittedIsSum(plan: Plan, provider: Name, scope: Option<Scope>, ids: set<Identity>)
    requires Counted(Identities(plan), provider, scope) <= ids && forall id :: id in ids ==> Counts(id, provider, scope)
    ensures Committed(plan, provider, scope) == Sum(ids, DemandOf(plan))
    decreases |plan|
  {
    if plan == [] {
      SumGrow({}, ids, DemandOf([]));
    } else {
      var last, rest := plan[|plan| - 1], plan[..|plan| - 1];
      assert plan == rest + [last];
      CommittedIsSum(rest, provider, scope, ids);
      if last.committed && Counts(last.identity, provider, scope) {
        assert last.identity in Identities(plan);
        var id := last.identity;
        SumWithout(ids, DemandOf(plan), id);
        SumWithout(ids, DemandOf(rest), id);
        SumSame(ids - {id}, DemandOf(plan), DemandOf(rest));
      } else {
        SumSame(ids, DemandOf(plan), DemandOf(rest));
      }
    }
  }

  /** What a candidate may keep above a limit: the common part of each identity both plans have. */
  ghost function Retained(active: Plan, candidate: Plan, provider: Name, scope: Option<Scope>): real {
    Sum(Counted(Identities(active) * Identities(candidate), provider, scope), CommonOf(active, candidate))
  }

  /** No identity asks for more than the active plan already has. */
  ghost predicate NothingGrows(active: Plan, candidate: Plan, provider: Name, scope: Option<Scope>) {
    forall id :: id in Identities(candidate) && Counts(id, provider, scope) ==>
      Demand(candidate, id) <= Demand(active, id)
  }

  ghost predicate Admitted(active: Plan, candidate: Plan, provider: Name, scope: Option<Scope>, limit: real) {
    var retained := Retained(active, candidate, provider, scope);
    Committed(candidate, provider, scope) <= if limit >= retained then limit else retained
  }

  /** The retained credits over all the candidate's identities. */
  lemma RetainedOverCandidate(active: Plan, candidate: Plan, provider: Name, scope: Option<Scope>)
    requires NonNegative(active) && NonNegative(candidate)
    ensures Retained(active, candidate, provider, scope)
         == Sum(Counted(Identities(candidate), provider, scope), CommonOf(active, candidate))
  {
    var ids := Counted(Identities(candidate), provider, scope);
    var both := Counted(Identities(active) * Identities(candidate), provider, scope);
    forall id | id in ids - both ensures Common(active, candidate, id) == 0.0 {
      NoDemand(active, id);
      DemandNonNegative(candidate, id);
    }
    SumGrow(both, ids, CommonOf(active, candidate));
  }

  /**
   Retained credits never exceed what either plan commits, and reach the candidate's total exactly when nothing grows.
   */
  lemma RetainedBounds(active: Plan, candidate: Plan, provider: Name, scope: Option<Scope>)
    requires NonNegative(active) && NonNegative(candidate)
    ensures Retained(active, candidate, provider, scope) <= Committed(active, provider, scope)
    ensures Retained(active, candidate, provider, scope) <= Committed(candidate, provider, scope)
    ensures Retained(active, candidate, provider, scope) == Committed(candidate, provider, scope)
      <==> NothingGrows(active, candidate, provider, scope)
  {
    hide Demand, Committed, Sum, Identities;
    var ids := Counted(Identities(candidate), provider, scope);
    var mine := Counted(Identities(active), provider, scope);
    var both := Counted(Identities(active) * Identities(candidate), provider, scope);
    RetainedOverCandidate(active, candidate, provider, scope);
    CommittedIsSum(candidate, provider, scope, ids);
    SumOrder(ids, CommonOf(active, candidate), DemandOf(candidate));
    CommittedIsSum(active, provider, scope, mine);
    forall id | id in mine - both ensures Common(active, candidate, id) == 0.0 {
      NoDemand(candidate, id);
      DemandNonNegative(active, id);
    }
    SumGrow(both, mine, CommonOf(active, candidate));
    SumOrder(mine, CommonOf(active, candidate), DemandOf(active));
    assert forall id :: id in ids <==> id in Identities(candidate) && Counts(id, provider, scope);
    assert forall id :: CommonOf(active, candidate)(id) == DemandOf(candidate)(id) <==>
      Demand(candidate, id) <= Demand(active, id);
  }

  /** A provider's demand is admitted exactly when it fits the limit or none of its identities grows. */
  lemma AdmittedIff(active: Plan, candidate: Plan, provider: Name, scope: Option<Scope>, limit: real)
    requires NonNegative(active) && NonNegative(candidate)
    ensures Admitted(active, candidate, provider, scope, limit)
      <==> Committed(candidate, provider, scope) <= limit || NothingGrows(active, candidate, provider, scope)
  {
    hide Retained, Committed, NothingGrows;
    RetainedBounds(active, candidate, provider, scope);
  }

  /** Over any sequence of admitted plans the commitment stays within the limit or what there was at the start. */
  lemma {:induction false} CommitmentStaysBounded(plans: seq<Plan>, provider: Name, scope: Option<Scope>, limit: real)
    requires plans != [] && forall plan :: plan in plans ==> NonNegative(plan)
    requires forall i, j :: 0 <= i && j == i + 1 < |plans| ==> Admitted(plans[i], plans[j], provider, scope, limit)
    ensures var first := Committed(plans[0], provider, scope);
            Committed(plans[|plans| - 1], provider, scope) <= if limit >= first then limit else first
    decreases |plans|
  {
    hide Retained, Committed;
    if |plans| > 1 {
      var n := |plans|;
      var before := plans[..n - 1];
      CommitmentStaysBounded(before, provider, scope, limit);
      RetainedBounds(plans[n - 2], plans[n - 1], provider, scope);
    }
  }

  // ----- the admission loops

  function Get<K>(totals: map<K, real>, key: K): real {
    if key in totals then totals[key] else 0.0
  }

  /** Committed lines added up by identity. */
  method Aggregate(plan: Plan) returns (lines: map<Identity, real>)
    ensures lines.Keys == Identities(plan)
    ensures forall id :: id in lines ==> lines[id] == Demand(plan, id)
  {
    lines := map[];
    for i := 0 to |plan|
      invariant lines.Keys == Identities(plan[..i])
      invariant forall id :: Get(lines, id) == Demand(plan[..i], id)
    {
      assert plan[..i + 1] == plan[..i] + [plan[i]] && plan[..i + 1][..i] == plan[..i];
      if !plan[i].committed {
        continue;
      }
      lines := lines[plan[i].identity := Get(lines, plan[i].identity) + plan[i].creditsPerDay];
    }
    assert plan[..|plan|] == plan;
  }

  method AddToScopes(totals: map<(Name, Scope), real>, provider: Name, scopes: set<Scope>,
                     credits: real) returns (more: map<(Name, Scope), real>)
    ensures forall key ::
      Get(more, key) == Get(totals, key) + if key.0 == provider && key.1 in scopes then credits else 0.0
  {
    more := totals;
    var pending := scopes;
    while pending != {}
      invariant pending <= scopes
      invariant forall key ::
        Get(more, key) == Get(totals, key) + if key.0 == provider && key.1 in scopes - pending then credits else 0.0
      decreases pending
    {
      var scope :| scope in pending;
      more := more[(provider, scope) := Get(more, (provider, scope)) + credits];
      pending := pending - {scope};
    }
  }

  /** Credits eligible for grandfathering, per provider and per quota scope. */
  method RetainedCommittedCredits(active: Plan, candidate: Plan) returns (retained: map<Name, real>,
                                  byScope: map<(Name, Scope), real>)
    ensures forall provider :: Get(retained, provider) == Retained(active, candidate, provider, None)
    ensures forall provider, scope ::
      Get(byScope, (provider, scope)) == Retained(active, candidate, provider, Some(scope))
  {
    hide Demand, Sum, Identities;
    var activeLines := Aggregate(active);
    var candidateLines := Aggregate(candidate);
    retained, byScope := map[], map[];
    var pending := activeLines.Keys;
    ghost var f := CommonOf(active, candidate);
    ghost var done: set<Identity> := {};
    NothingCounted(f);
    while pending != {}
      invariant done == (activeLines.Keys - pending) * candidateLines.Keys && pending <= activeLines.Keys
      invariant forall provider :: Get(retained, provider) == Sum(Counted(done, provider, None), f)
      invariant forall provider, scope ::
        Get(byScope, (provider, scope)) == Sum(Counted(done, provider, Some(scope)), f)
      decreases pending
    {
      var id :| id in pending;
      pending := pending - {id};
      if id in candidateLines {
        var common := Least(activeLines[id], candidateLines[id]);
        retained := retained[id.provider := Get(retained, id.provider) + common];
        byScope := AddToScopes(byScope, id.provider, id.scopes, common);
        CountOneMore(done, id, f);
        done := done + {id};
      }
    }
    assert done == Identities(active) * Identities(candidate);
  }

  lemma NothingCounted(f: Identity -> real)
    ensures forall provider, scope :: Sum(Counted({}, provider, scope), f) == 0.0
  {
  }

  lemma CountOneMore(done: set<Identity>, id: Identity, f: Identity -> real)
    requires id !in done
    ensures forall provider, scope ::
      Sum(Counted(done + {id}, provider, scope), f)
        == Sum(Counted(done, provider, scope), f) + if Counts(id, provider, scope) then f(id) else 0.0
  {
    forall provider, scope
      ensures Sum(Counted(done + {id}, provider, scope), f)
        == Sum(Counted(done, provider, scope), f) + if Counts(id, provider, scope) then f(id) else 0.0
    {
      if Counts(id, provider, scope) {
        SumWithout(Counted(done + {id}, provider, scope), f, id);
        assert Counted(done + {id}, provider, scope) - {id} == Counted(done, provider, scope);
      } else {
        assert Counted(done + {id}, provider, scope) == Counted(done, provider, scope);
      }
    }
  }

  const TWELVE_DATA := Name("twelve_data")
  const GENERAL := Scope("general")

  /** What the operator grants each provider. */
  datatype Settings = Settings(
    twelveDaily: int, twelveReserve: int, alphaDaily: int, coingeckoMonthly: int, finnhubPerMinute: int)

  /** Credits a day; a month is counted as 31 days, so that every rolling calendar month is safe. */
  function CreditLimits(settings: Settings): (limits: map<Name, real>)
    ensures limits.Keys == {TWELVE_DATA, Name("alpha_vantage"), Name("coingecko"), Name("finnhub")}
    ensures limits[Name("finnhub")] == 24.0 * 60.0 * settings.finnhubPerMinute as real
    ensures var monthly := settings.coingeckoMonthly as real;
            31.0 * limits[Name("coingecko")] <= monthly < 31.0 * (limits[Name("coingecko")] + 1.0)
  {
    map[TWELVE_DATA := settings.twelveDaily as real,
        Name("alpha_vantage") := settings.alphaDaily as real,
        Name("coingecko") := (settings.coingeckoMonthly / 31) as real,
        Name("finnhub") := (settings.finnhubPerMinute * 1_440) as real]
  }

  /** The part of the daily credits that the reserve leaves to everything but foreign exchange; never nothing. */
  function GeneralLimit(settings: Settings): (limit: real)
    ensures settings.twelveDaily >= 1 ==> limit >= 1.0
    ensures settings.twelveReserve >= 0 ==> limit <= settings.twelveDaily as real
    ensures settings.twelveReserve < settings.twelveDaily ==>
      limit + settings.twelveReserve as real == settings.twelveDaily as real
    ensures 1 <= settings.twelveDaily <= settings.twelveReserve ==> limit == 1.0
  {
    var daily, reserve := settings.twelveDaily, settings.twelveReserve;
    var spare := if daily - 1 > 0 then daily - 1 else 0;
    (daily - if reserve < spare then reserve else spare) as real
  }

  datatype Violation = Violation(provider: Name, scope: Option<Scope>, proposed: real, limit: real, effective: real)

  /** A candidate is refused exactly when some configured limit, or the general one, does not admit it. */
  method IncrementalBudgetErrors(settings: Settings, active: Plan, candidate: Plan) returns (errors: seq<Violation>)
    ensures var limits := CreditLimits(settings);
      errors == [] <==>
        && (forall provider :: provider in limits ==> Admitted(active, candidate, provider, None, limits[provider]))
        && Admitted(active, candidate, TWELVE_DATA, Some(GENERAL), GeneralLimit(settings))
    ensures forall e :: e in errors ==>
      && e.proposed == Committed(candidate, e.provider, e.scope) && e.proposed > e.effective
      && e.effective >= Retained(active, candidate, e.provider, e.scope) && e.effective >= e.limit
  {
    hide Retained, Committed, CreditLimits, GeneralLimit;
    var limits, general := CreditLimits(settings), GeneralLimit(settings);
    var retained, byScope := RetainedCommittedCredits(active, candidate);
    errors := [];
    var pending := limits.Keys;
    while pending != {}
      invariant pending <= limits.Keys
      invariant errors == [] <==>
        forall provider :: provider in limits.Keys - pending ==>
        Admitted(active, candidate, provider, None, limits[provider])
      invariant forall e :: e in errors ==>
        && e.proposed == Committed(candidate, e.provider, e.scope) && e.proposed > e.effective
        && e.effective >= Retained(active, candidate, e.provider, e.scope) && e.effective >= e.limit
      decreases pending
    {
      var provider :| provider in pending;
      pending := pending - {provider};
      var limit, kept := limits[provider], Get(retained, provider);
      var effective := if limit >= kept then limit else kept;
      var proposed := Committed(candidate, provider, None);
      if proposed > effective {
        errors := errors + [Violation(provider, None, proposed, limit, effective)];
      }
    }
    var keptGeneral := Get(byScope, (TWELVE_DATA, GENERAL));
    var effectiveGeneral := if general >= keptGeneral then general else keptGeneral;
    var proposedGeneral := Committed(candidate, TWELVE_DATA, Some(GENERAL));
    if proposedGeneral > effectiveGeneral {
      errors := errors + [Violation(TWELVE_DATA, Some(GENERAL), proposedGeneral, general, effectiveGeneral)];
    }
  }
}
