/**
 The market data coordinator: component tasks, scheduling state, and the in-place handover of a
 running collector to a candidate graph with its rollback and finalisation.
 */
module Coordinator {
  import opened Basics
  import opened SymbolGraph
  import opened Reconciliation

  datatype InstrumentSpec = InstrumentSpec(
    quotePollSeconds: real, staleAfterSeconds: real, marketCalendar: nat, assetClass: nat,
    dividendStrategy: Option<nat>, yieldStrategy: Option<nat>, historyEnabled: bool)

  datatype Registry = Registry(symbols: seq<Symbol>, specs: map<Symbol, InstrumentSpec>)

  datatype HistoryPolicy = HistoryPolicy(pollSeconds: Option<real>, backfillDays: Option<nat>)

  datatype Feed = Feed(provider: Name, name: string)

  datatype TaskKey = Generation(name: string) | Stream(provider: Name)

  const GENERATION_TASKS: set<TaskKey> := {
    Generation("publish"), Generation("quote-scheduler"), Generation("metadata"),
    Generation("history"), Generation("quota-metrics"), Generation("maintenance")}

  /** One asyncio task: the component it runs and the batch that started it. */
  datatype Task = Task(key: TaskKey, serial: nat)

  /** A stream component with its subscription. */
  datatype LiveStream = LiveStream(task: Task, symbols: seq<Symbol>)

  datatype StreamTask = StreamTask(provider: Instance, symbols: seq<Symbol>)

  /** Everything a handover replaces and a rollback restores. */
  datatype CollectorTarget = CollectorTarget(
    registry: Registry, generationId: Option<nat>, graph: ProviderGraph,
    historyPolicies: map<Symbol, HistoryPolicy>, checkpoints: map<Feed, map<Symbol, real>>,
    streamObservedAt: map<(Instance, Symbol), real>, quoteNextRefreshAt: map<Symbol, real>,
    metadataNextRefreshAt: map<Symbol, real>, historyNextRegularRefreshAt: map<Symbol, real>,
    historyNextEmptyRefreshAt: real)

  /** The symbols an adapter streams: those it declares and heads the quote chain of. */
  function StreamSymbols(declared: map<Instance, set<Symbol>>, symbols: seq<Symbol>, routes: Routes,
                         provider: Instance): seq<Symbol> {
    if symbols == [] || provider !in declared then []
    else
      var key := RouteKey(symbols[0], Quote);
      (if symbols[0] in declared[provider] && key in routes && routes[key] != [] && routes[key][0] == provider
       then [symbols[0]] else [])
      + StreamSymbols(declared, symbols[1..], routes, provider)
  }

  /** An adapter streams exactly the requested symbols it declares and whose quote chain it heads. */
  lemma {:induction false} StreamsWhatItHeads(declared: map<Instance, set<Symbol>>, symbols: seq<Symbol>,
                                              routes: Routes,
                                              provider: Instance, s: Symbol)
    ensures s in StreamSymbols(declared, symbols, routes, provider)
      <==> s in symbols && provider in declared && s in declared[provider]
           && Chain(routes, s, Quote) != [] && Chain(routes, s, Quote)[0] == provider
  {
    if symbols != [] && provider in declared {
      StreamsWhatItHeads(declared, symbols[1..], routes, provider, s);
    }
  }

  /** No symbol is subscribed on two adapters. */
  lemma OneStreamPerSymbol(declared: map<Instance, set<Symbol>>, symbols: seq<Symbol>, providers: map<Name, Instance>,
                           routes: Routes,
                           a: Name, b: Name, s: Symbol)
    requires Injective(providers)
    requires var wanted := WantedSubscriptions(declared, symbols, providers, routes);
             a in wanted && b in wanted && s in wanted[a] && s in wanted[b]
    ensures a == b
  {
    StreamsWhatItHeads(declared, symbols, routes, providers[a], s);
    StreamsWhatItHeads(declared, symbols, routes, providers[b], s);
    hide StreamSymbols;
  }

  function Chain(routes: Routes, symbol: Symbol, capability: Capability): seq<Instance> {
    var key := RouteKey(symbol, capability);
    if key in routes then routes[key] else []
  }

  /** Both registries have the symbol, with equal inputs to its quote schedule. */
  predicate SameQuoteInputs(a: Registry, b: Registry, s: Symbol) {
    && s in a.specs && s in b.specs
    && a.specs[s].quotePollSeconds == b.specs[s].quotePollSeconds
    && a.specs[s].staleAfterSeconds == b.specs[s].staleAfterSeconds
    && a.specs[s].marketCalendar == b.specs[s].marketCalendar
    && a.specs[s].assetClass == b.specs[s].assetClass
  }

  predicate SameMetadataInputs(a: Registry, b: Registry, s: Symbol) {
    && s in a.specs && s in b.specs
    && a.specs[s].dividendStrategy == b.specs[s].dividendStrategy
    && a.specs[s].yieldStrategy == b.specs[s].yieldStrategy
  }

  function PolicyOf(policies: map<Symbol, HistoryPolicy>, s: Symbol): Option<HistoryPolicy> {
    if s in policies then Some(policies[s]) else None
  }

  predicate SameHistoryInputs(a: Registry, aPolicies: map<Symbol, HistoryPolicy>, b: Registry,
                              bPolicies: map<Symbol, HistoryPolicy>, s: Symbol) {
    && s in a.specs && s in b.specs
    && a.specs[s].historyEnabled == b.specs[s].historyEnabled
    && a.specs[s].assetClass == b.specs[s].assetClass
    && PolicyOf(aPolicies, s) == PolicyOf(bPolicies, s)
  }

  /** Symbols whose quote scheduling inputs and live quote route are unchanged. */
  function PreservedQuotes(a: Registry, aRoutes: Routes, b: Registry, bRoutes: Routes): set<Symbol> {
    set s | s in a.specs && SameQuoteInputs(a, b, s) && Chain(aRoutes, s, Quote) == Chain(bRoutes, s, Quote)
  }

  function PreservedMetadata(a: Registry, aRoutes: Routes, b: Registry, bRoutes: Routes): set<Symbol> {
    set s | s in a.specs && SameMetadataInputs(a, b, s)
            && Chain(aRoutes, s, Dividend) == Chain(bRoutes, s, Dividend)
            && Chain(aRoutes, s, Yield) == Chain(bRoutes, s, Yield)
  }

  function PreservedHistory(a: Registry, aRoutes: Routes, aPolicies: map<Symbol, HistoryPolicy>,
                            b: Registry, bRoutes: Routes, bPolicies: map<Symbol, HistoryPolicy>): set<Symbol>
  {
    set s | s in a.specs && SameHistoryInputs(a, aPolicies, b, bPolicies, s)
      && Chain(aRoutes, s, History) == Chain(bRoutes, s, History)
  }

  function Keep(due: map<Symbol, real>, symbols: set<Symbol>): map<Symbol, real> {
    map s | s in due && s in symbols :: due[s]
  }

  /** The rollback token of one handover. */
  class CollectorReconciliation {
    const candidate: Coordinator
    const previous: CollectorTarget
    const previousStreams: map<Name, StreamTask>
    const retained: map<Name, LiveStream>
    const transfers: seq<Transfer>
    var failed: bool
    var finalized: bool

    constructor (candidate: Coordinator, previous: CollectorTarget, previousStreams: map<Name, StreamTask>,
                 retained: map<Name, LiveStream>, transfers: seq<Transfer>)
      ensures this.candidate == candidate && this.previous == previous && this.previousStreams == previousStreams
      ensures this.retained == retained && this.transfers == transfers && !failed && !finalized
    {
      this.candidate, this.previous, this.previousStreams := candidate, previous, previousStreams;
      this.retained, this.transfers := retained, transfers;
      failed, finalized := false, false;
    }
  }

  /** Everything a collector holds apart from the contents of its graph. */
  datatype CollectorState = CollectorState(
    target: CollectorTarget, componentTasks: map<TaskKey, Task>, streamTaskSymbols: map<Name, seq<Symbol>>,
    finished: set<Task>, cancelled: set<Task>, serial: nat, prepared: bool, running: bool, closed: bool,
    ownsGraph: bool)

  /** How a handover can go wrong after the old components were cancelled. */
  datatype HandoverFault = NoFault | StoppedWhilePreparing | CancelledWhilePreparing | ComponentFailed

  class Coordinator {
    const declared: map<Instance, set<Symbol>>
    var registry: Registry
    var generationId: Option<nat>
    var graph: ProviderGraph
    var ownsGraph: bool
    var historyPolicies: map<Symbol, HistoryPolicy>
    var checkpoints: map<Feed, map<Symbol, real>>
    var streamObservedAt: map<(Instance, Symbol), real>
    var quoteNextRefreshAt: map<Symbol, real>
    var metadataNextRefreshAt: map<Symbol, real>
    var historyNextRegularRefreshAt: map<Symbol, real>
    var historyNextEmptyRefreshAt: real
    var componentTasks: map<TaskKey, Task>
    var streamTaskSymbols: map<Name, seq<Symbol>>
    var finished: set<Task>
    var cancelled: set<Task>
    var serial: nat
    var prepared: bool
    var running: bool
    var closed: bool

    constructor (declared: map<Instance, set<Symbol>>, registry: Registry, generationId: Option<nat>,
                 graph: ProviderGraph, historyPolicies: map<Symbol, HistoryPolicy>)
      ensures Valid() && !running && !closed && ownsGraph && RunningStreams() == map[]
      ensures Target()
        == CollectorTarget(registry, generationId, graph, historyPolicies, map[], map[], map[], map[], map[], 0.0)
    {
      this.declared, this.registry, this.generationId := declared, registry, generationId;
      this.graph, this.historyPolicies, ownsGraph := graph, historyPolicies, true;
      checkpoints, streamObservedAt := map[], map[];
      quoteNextRefreshAt, metadataNextRefreshAt, historyNextRegularRefreshAt, historyNextEmptyRefreshAt :=
        map[], map[], map[], 0.0;
      componentTasks, streamTaskSymbols, finished, cancelled, serial := map[], map[], {}, {}, 0;
      prepared, running, closed := false, false, false;
    }

    function Target(): CollectorTarget
      reads this`registry, this`generationId, this`graph, this`historyPolicies, this`checkpoints, this`streamObservedAt,
            this`quoteNextRefreshAt, this`metadataNextRefreshAt, this`historyNextRegularRefreshAt,
            this`historyNextEmptyRefreshAt
    {
      CollectorTarget(registry, generationId, graph, historyPolicies, checkpoints, streamObservedAt,
                      quoteNextRefreshAt, metadataNextRefreshAt, historyNextRegularRefreshAt, historyNextEmptyRefreshAt)
    }

    ghost predicate Valid()
      reads this`componentTasks, this`streamTaskSymbols, this`finished, this`cancelled, this`serial
    {
      ValidTasks(componentTasks, streamTaskSymbols, finished, cancelled, serial)
    }

    function State(): CollectorState
      reads this
    {
      CollectorState(Target(), componentTasks, streamTaskSymbols, finished, cancelled, serial, prepared, running,
                     closed, ownsGraph)
    }

    /** What only starting and stopping change. */
    function Standing(): (bool, bool, bool)
      reads this`prepared, this`closed, this`ownsGraph
    {
      (prepared, closed, ownsGraph)
    }

    /** What every activation needs of the live collector and keeps: a closed one is not running. */
    ghost predicate Sound()
      reads this, graph
    {
      SoundIn(State(), graph.providers)
    }

    lemma SoundMeans()
      ensures Sound() <==> Valid() && StreamsKnown() && Injective(graph.providers) && (closed ==> !running)
    {
      hide LiveIn, ValidTasks, Injective;
    }

    /** The streams whose task has not ended. */
    function LiveStreams(): map<Name, LiveStream>
      reads this`componentTasks, this`streamTaskSymbols, this`finished
    {
      LiveIn(componentTasks, streamTaskSymbols, finished)
    }

    /** The live streams, each with its adapter and subscription. */
    function RunningStreams(): map<Name, StreamTask>
      reads this`componentTasks, this`streamTaskSymbols, this`finished, this`graph, graph
    {
      map name | name in LiveStreams() && name in graph.providers ::
        StreamTask(graph.providers[name], LiveStreams()[name].symbols)
    }

    // --- component tasks

    method CancelComponentTasks(keys: set<TaskKey>)
      requires Valid()
      modifies this`componentTasks, this`streamTaskSymbols, this`cancelled
      ensures Valid()
      ensures componentTasks == old(componentTasks) - keys
      ensures LiveStreams() == LiveWithout(old(LiveStreams()), keys)
      ensures cancelled == old(cancelled) + TasksOf(old(componentTasks), keys)
      ensures forall task :: task in cancelled <==>
        task in old(cancelled) || exists key ::
          key in keys && key in old(componentTasks) && old(componentTasks)[key] == task
    {
      hide LiveIn, ValidTasks, LiveWithout, TasksOf, StreamNames;
      TasksOfMeans(componentTasks, keys);
      CancelledTasksAreGone(componentTasks, streamTaskSymbols, finished, cancelled, serial, keys);
      LiveAfterCancel(componentTasks, streamTaskSymbols, finished, keys);
      assert componentTasks - keys == componentTasks - (componentTasks.Keys * keys);
      var selected := componentTasks.Keys * keys;
      cancelled := cancelled + TasksOf(componentTasks, keys);
      streamTaskSymbols := streamTaskSymbols - StreamNames(selected);
      componentTasks := componentTasks - selected;
    }

    /** Starts one task for each key; streams record their subscriptions. */
    method StartComponents(keys: set<TaskKey>, subscriptions: map<Name, seq<Symbol>>)
      requires Valid() && forall name :: name in subscriptions <==> Stream(name) in keys
      requires forall name :: name in subscriptions ==> subscriptions[name] != []
      modifies this`componentTasks, this`streamTaskSymbols, this`serial
      ensures Valid() && serial == old(serial) + 1
      ensures componentTasks == old(componentTasks) + NewTasks(keys, serial)
      ensures LiveStreams() == old(LiveStreams()) + Started(subscriptions, serial)
    {
      hide LiveIn, NewTasks, ValidTasks;
      StartedTasksAreNew(componentTasks, streamTaskSymbols, finished, cancelled, keys, subscriptions, serial);
      LiveAfterStart(componentTasks, streamTaskSymbols, finished, cancelled, keys, subscriptions, serial);
      serial := serial + 1;
      componentTasks := StartTasks(componentTasks, keys, serial);
      streamTaskSymbols := streamTaskSymbols + subscriptions;
    }

    // --- handover

    /** Live streams belong to adapters of the current graph. */
    ghost predicate StreamsKnown()
      reads this, graph
    {
      LiveStreams().Keys <= graph.providers.Keys
    }

    /** The adapters both graphs have under a reusable name, except those bound to the old router. */
    method TransferableProviderPairs(candidate: Coordinator, reusable: seq<Name>) returns (pairs: seq<Transfer>)
      ensures DistinctNames(pairs) && Holding(graph.providers, pairs) && ReadOff(candidate.graph.providers, pairs)
      ensures forall name :: Named(pairs, name) <==>
        name in reusable && name in graph.providers && name in candidate.graph.providers
          && graph.providers[name] !in graph.routerBound
    {
      pairs := [];
      for k := 0 to |reusable|
        invariant DistinctNames(pairs) && Holding(graph.providers, pairs) && ReadOff(candidate.graph.providers, pairs)
        invariant forall name :: Named(pairs, name) <==>
          name in reusable[..k] && name in graph.providers && name in candidate.graph.providers
            && graph.providers[name] !in graph.routerBound
      {
        var name := reusable[k];
        assert reusable[..k + 1] == reusable[..k] + [name];
        if name in reusable[..k] || name !in graph.providers || name !in candidate.graph.providers
           || graph.providers[name] in graph.routerBound {
          continue;
        }
        assert !Named(pairs, name);
        pairs := pairs + [Transfer(name, graph.providers[name], candidate.graph.providers[name])];
      }
      assert reusable[..|reusable|] == reusable;
    }

    predicate CanReconcile(candidate: Coordinator, transfers: seq<Transfer>)
      reads this, candidate
    {
      running && !closed && candidate.prepared && !candidate.closed && transfers != []
    }

    /** Some reusable adapter can move over between two open collectors. */
    predicate CanHandTo(candidate: Coordinator, reusable: seq<Name>)
      reads this, graph, candidate, candidate.graph
    {
      && running && !closed && candidate.prepared && !candidate.closed
      && exists name ::
           name in reusable && name in graph.providers && name in candidate.graph.providers
             && graph.providers[name] !in graph.routerBound
    }

    /**
     A token's record is consistent: its streams ran on adapters of the old graph, and the retained are among them.
     */
    static ghost predicate Recorded(token: CollectorReconciliation)
      reads token.previous.graph
    {
      && Separate(token.transfers)
      && RunsOn(token.previousStreams, token.previous.graph.providers)
      && (forall name :: name in token.retained ==>
            name in token.previousStreams && token.retained[name].symbols == token.previousStreams[name].symbols)
    }

    /** What a token promises about the collector that still runs under it. */
    ghost predicate Holds(token: CollectorReconciliation)
      reads this, token.previous.graph
    {
      && Recorded(token)
      && token.candidate != this
      && (running ==>
          forall name :: name in token.retained ==>
          name in LiveStreams() && LiveStreams()[name] == token.retained[name])
    }

    /** Cancels the generation tasks and every stream that is not retained. */
    method Quiesce(retained: set<Name>)
      requires Valid()
      modifies this`componentTasks, this`streamTaskSymbols, this`cancelled
      ensures Valid()
      ensures LiveStreams() == Only(old(LiveStreams()), retained)
    {
      hide GENERATION_TASKS;
      NoStreamKeys();
      var streams := set key | key in componentTasks && key.Stream? && key.provider !in retained;
      CancelComponentTasks(GENERATION_TASKS + streams);
    }

    /** Starts the generation tasks and the given streams. */
    method StartGeneration(streams: map<Name, seq<Symbol>>)
      requires Valid() && forall name :: name in streams ==> streams[name] != []
      modifies this`componentTasks, this`streamTaskSymbols, this`serial
      ensures Valid() && serial == old(serial) + 1
      ensures LiveStreams() == old(LiveStreams()) + Started(streams, serial)
      ensures GENERATION_TASKS <= componentTasks.Keys
    {
      hide GENERATION_TASKS, Started;
      NoStreamKeys();
      StartComponents(GENERATION_TASKS + StreamKeys(streams.Keys), streams);
    }

    lemma LiveIsCurrent()
      requires Valid()
      ensures forall name :: name in LiveStreams() ==> LiveStreams()[name].task !in cancelled
    {
    }

    /** Stops the new generation and puts the old target and the candidate's own adapters back. */
    method PutBack(token: CollectorReconciliation)
      requires Valid() && Holds(token) && token.candidate.graph != token.previous.graph && !token.finalized
      modifies this, token.candidate`ownsGraph, token.candidate.graph
      ensures Valid() && StreamsKnown() && running == old(running) && finished == old(finished)
        && Standing() == old(Standing())
      ensures Target() == token.previous && graph == token.previous.graph && token.candidate.ownsGraph
      ensures token.candidate.graph.routes == MovedRoutes(old(token.candidate.graph.routes), token.transfers, false)
      ensures token.candidate.graph.providers
        == MovedProviders(old(token.candidate.graph.providers), token.transfers, false)
      ensures LiveStreams() == Only(old(LiveStreams()), token.retained.Keys)
    {
      hide MovedRoutes, MovedProviders, Separate, ValidTasks, ReadOff, LiveIn;
      Quiesce(token.retained.Keys);
      ReplaceTransferredProviders(token.candidate.graph, token.transfers, false);
      token.candidate.ownsGraph := true;
      Retarget(token.previous);
    }

    /** Restores the exact collector target a token represents. */
    method RollbackReconciliation(token: CollectorReconciliation) returns (ok: bool)
      requires !token.finalized ==> Valid() && Holds(token) && token.candidate.graph != token.previous.graph
      modifies this, token.candidate`ownsGraph, token.candidate.graph
      ensures ok == (!token.finalized && old(running))
      ensures token.finalized ==> unchanged(this) && unchanged(token.candidate) && unchanged(token.candidate.graph)
      ensures !token.finalized ==> Valid() && StreamsKnown()
      ensures running == old(running) && finished == old(finished) && Standing() == old(Standing())
      ensures !token.finalized ==>
        && Target() == token.previous && token.candidate.ownsGraph
        && token.candidate.graph.routes == MovedRoutes(old(token.candidate.graph.routes), token.transfers, false)
        && token.candidate.graph.providers
             == MovedProviders(old(token.candidate.graph.providers), token.transfers, false)
      ensures ok ==> RunningStreams() == token.previousStreams && StreamsKnown()
      ensures !token.finalized && old(running) ==> forall name :: name in token.retained ==>
        name in LiveStreams() && LiveStreams()[name] == token.retained[name] && token.retained[name].task !in cancelled
    {
      hide MovedRoutes, MovedProviders, Separate, ValidTasks, ReadOff, LiveIn, Started, Restart;
      if token.finalized {
        return false;
      }
      PutBack(token);
      if !running {
        return false;
      }
      assert LiveStreams() == token.retained;
      StreamsRestored(token.previousStreams, token.retained, graph.providers, serial + 1);
      RestartHasSymbols(token.previousStreams, token.retained.Keys);
      StartGeneration(Restart(token.previousStreams, token.retained.Keys));
      LiveIsCurrent();
      ok := true;
    }

    /** Puts the live adapters into the candidate graph, records the token and cancels what must not go on. */
    method BeginHandover(candidate: Coordinator, transfers: seq<Transfer>) returns (token: CollectorReconciliation)
      requires Valid() && StreamsKnown() && running && candidate != this && candidate.graph != graph
        && Separate(transfers)
      modifies this`componentTasks, this`streamTaskSymbols, this`cancelled, candidate.graph
      ensures Valid() && Holds(token)
      ensures fresh(token) && !token.finalized && !token.failed && token.candidate == candidate
        && token.transfers == transfers
      ensures token.previous == old(Target()) && token.previousStreams == old(RunningStreams())
      ensures candidate.graph.routes == MovedRoutes(old(candidate.graph.routes), transfers, true)
      ensures candidate.graph.providers == MovedProviders(old(candidate.graph.providers), transfers, true)
      ensures token.retained == RetainedStreams(old(LiveStreams()), old(RunningStreams()), transfers, declared,
                                                candidate.registry.symbols, candidate.graph.providers,
                                                candidate.graph.routes)
      ensures LiveStreams() == token.retained
    {
      hide MovedRoutes, MovedProviders, Separate, RetainedStreams, GENERATION_TASKS, LiveIn, ValidTasks, StreamKeys,
           LiveWithout, Only, Started, StreamSymbols, WantedSubscriptions, Unaffected, HandedTarget, Routed, Owns,
           Named;
      RunningIsLive();
      var live, previousStreams := LiveStreams(), RunningStreams();
      ReplaceTransferredProviders(candidate.graph, transfers, true);
      var retained := RetainedStreams(live, previousStreams, transfers, declared,
                                      candidate.registry.symbols, candidate.graph.providers, candidate.graph.routes);
      RetainedIsLive(live, previousStreams, transfers, declared,
                     candidate.registry.symbols, candidate.graph.providers, candidate.graph.routes);
      token := new CollectorReconciliation(candidate, Target(), previousStreams, retained, transfers);
      KeptAlive(live, previousStreams, retained);
      CancelComponentTasks(GENERATION_TASKS + StreamKeys(previousStreams.Keys - retained.Keys));
    }

    lemma LiveStreamsHaveSymbols()
      requires Valid()
      ensures forall name :: name in LiveStreams() ==> LiveStreams()[name].symbols != []
    {
    }

    lemma RunningIsLive()
      requires Valid() && StreamsKnown()
      ensures RunningStreams().Keys == LiveStreams().Keys
      ensures RunsOn(RunningStreams(), graph.providers)
      ensures forall name :: name in LiveStreams() ==> RunningStreams()[name].symbols == LiveStreams()[name].symbols
    {
      LiveStreamsHaveSymbols();
      hide LiveIn, ValidTasks;
    }

    /** Installs the candidate target in one synchronous block. */
    method Install(token: CollectorReconciliation, registry: Registry, generationId: Option<nat>)
      requires token.candidate.graph != graph && token.candidate != this
      modifies this`registry, this`generationId, this`graph, this`historyPolicies, this`checkpoints,
               this`streamObservedAt,
               this`quoteNextRefreshAt, this`metadataNextRefreshAt, this`historyNextRegularRefreshAt,
               this`historyNextEmptyRefreshAt,
               token.candidate`ownsGraph
      ensures Target()
        == old(HandedTarget(Target(), token.candidate.Target(), registry, generationId,
                            PreviousInstances(token.transfers)))
      ensures !token.candidate.ownsGraph && graph == token.candidate.graph
    {
      var target := HandedTarget(Target(), token.candidate.Target(), registry, generationId,
                                 PreviousInstances(token.transfers));
      assert target.graph == token.candidate.graph;
      hide HandedTarget, PreviousInstances;
      Retarget(target);
      token.candidate.ownsGraph := false;
    }

    /** Starts the new generation's components around the retained streams. */
    method StartAround(retained: map<Name, LiveStream>, symbols: seq<Symbol>)
      requires Valid() && LiveStreams() == retained
      modifies this`componentTasks, this`streamTaskSymbols, this`serial
      ensures Valid()
      ensures LiveStreams() == retained
        + Started(WantedSubscriptions(declared, symbols, graph.providers, graph.routes) - retained.Keys, serial)
      ensures forall name :: name in retained ==> name in LiveStreams() && LiveStreams()[name] == retained[name]
    {
      hide StreamSymbols, ValidTasks, LiveIn;
      var wanted := WantedSubscriptions(declared, symbols, graph.providers, graph.routes) - retained.Keys;
      RetainedStayLive(retained, WantedSubscriptions(declared, symbols, graph.providers, graph.routes), serial + 1);
      assert forall name :: name in wanted ==> wanted[name] != [];
      hide WantedSubscriptions, Started;
      StartGeneration(wanted);
    }

    /** The candidate graph was built apart from the live one, each adapter under one name. */
    ghost predicate Independent(candidate: Coordinator)
      reads this`graph, graph, candidate`graph, candidate.graph
    {
      && candidate != this && candidate.graph != graph
      && Injective(graph.providers) && Injective(candidate.graph.providers)
      && Apart(graph.providers, graph.routes, candidate.graph.providers, candidate.graph.routes)
    }

    /**
     Retargets a running collector. No token means it was refused or taken back: target, running streams
     and both graphs are what they were. A token means the whole new target is in place. Either way the
     unaffected streams keep their tasks.
     */
    method ReconcileGeneration(candidate: Coordinator, registry: Registry, generationId: Option<nat>,
                               reusable: seq<Name>,
                               fault: HandoverFault)
      returns (token: CollectorReconciliation?, ghost transfers: seq<Transfer>)
      requires Valid() && StreamsKnown() && Independent(candidate)
      modifies this, candidate`ownsGraph, candidate.graph
      ensures Valid() && StreamsKnown() && Standing() == old(Standing())
      ensures forall name :: Named(transfers, name) <==>
        name in reusable && name in old(graph.providers) && name in old(candidate.graph.providers)
        && old(graph.providers)[name] !in old(graph).routerBound
      ensures Holding(old(graph.providers), transfers) && ReadOff(old(candidate.graph.providers), transfers)
      ensures token == null <==> !old(CanReconcile(candidate, transfers)) || fault != NoFault
      ensures running == (old(running) && (old(CanReconcile(candidate, transfers)) ==> fault != StoppedWhilePreparing))
      ensures token == null ==>
        && Target() == old(Target()) && (old(candidate.ownsGraph) ==> candidate.ownsGraph)
        && candidate.graph.routes == old(candidate.graph.routes)
        && candidate.graph.providers == old(candidate.graph.providers)
        && (running ==> RunningStreams() == old(RunningStreams()))
      ensures token != null ==>
        && fresh(token) && Holds(token) && !token.finalized && !token.failed && token.candidate == candidate
        && token.transfers == transfers
        && token.previous == old(Target()) && token.previousStreams == old(RunningStreams())
        && candidate.graph.routes == MovedRoutes(old(candidate.graph.routes), transfers, true)
        && candidate.graph.providers == MovedProviders(old(candidate.graph.providers), transfers, true)
        && Target() == HandedTarget(old(Target()), candidate.Target(), registry, generationId,
                                    PreviousInstances(transfers))
        && !candidate.ownsGraph && graph == candidate.graph
      ensures token != null ==>
        token.retained == RetainedStreams(old(LiveStreams()), old(RunningStreams()), transfers, declared,
                                          candidate.registry.symbols,
                                          candidate.graph.providers, candidate.graph.routes)
      ensures token != null ==>
        && this.registry == registry && this.generationId == generationId
        && historyPolicies == old(candidate.historyPolicies)
        && historyNextEmptyRefreshAt == old(this.historyNextEmptyRefreshAt)
      ensures token != null && registry.symbols == candidate.registry.symbols ==>
        RunningStreams() == WantedStreams(declared, registry.symbols, graph.providers, graph.routes)
      ensures running ==> Untouched(
        RetainedStreams(old(LiveStreams()), old(RunningStreams()), transfers, declared, candidate.registry.symbols,
                        MovedProviders(old(candidate.graph.providers), transfers, true),
                        MovedRoutes(old(candidate.graph.routes), transfers, true)),
        LiveStreams(), cancelled)
    {
      hide MovedRoutes, MovedProviders, Separate, RetainedStreams, LiveIn, ValidTasks, Injective, Apart, DistinctNames,
           IsPrevious, IsReplacement,
           Holding, ReadOff, WantedStreams, WantedSubscriptions, Started, HandedTarget, Named, Owns, Unaffected,
           Untouched;
      var pairs := TransferableProviderPairs(candidate, reusable);
      transfers := pairs;
      LiveUntouched(pairs, candidate.registry.symbols, MovedProviders(candidate.graph.providers, pairs, true),
                    MovedRoutes(candidate.graph.routes, pairs, true));
      if !CanReconcile(candidate, pairs) {
        return null, transfers;
      }
      PairsAreSeparate(graph.providers, graph.routes, candidate.graph.providers, candidate.graph.routes, pairs);
      TransfersJoin(graph.providers, graph.routes, candidate.graph.providers, candidate.graph.routes, pairs);
      RunningIsLive();
      ghost var live, previous := LiveStreams(), RunningStreams();
      assert forall name :: name in live && name in previous ==>
        live[name].symbols == previous[name].symbols && live[name].symbols != [];
      token := Hand(candidate, registry, generationId, pairs, fault);
      if token != null {
        HandedFields(old(Target()), candidate.Target(), registry, generationId, PreviousInstances(pairs));
        KeysAreProviders(live, previous, pairs, declared, candidate.registry.symbols, registry.symbols,
                         graph.providers, graph.routes, serial);
      }
      if token != null && registry.symbols == candidate.registry.symbols {
        WantedIsRunning(live, previous, pairs, declared, registry.symbols, graph.providers, graph.routes, serial);
      }
    }

    lemma LiveUntouched(transfers: seq<Transfer>, symbols: seq<Symbol>, providers: map<Name, Instance>, routes: Routes)
      requires Valid()
      ensures Untouched(RetainedStreams(LiveStreams(), RunningStreams(), transfers, declared, symbols, providers,
                                        routes),
                        LiveStreams(), cancelled)
    {
      LiveIsCurrent();
      hide LiveIn, ValidTasks, Named, Unaffected;
    }

    /** Everything up to the start of the new generation's components. */
    method TakeOver(candidate: Coordinator, registry: Registry, generationId: Option<nat>, transfers: seq<Transfer>)
      returns (token: CollectorReconciliation)
      requires Valid() && StreamsKnown() && running && candidate != this && candidate.graph != graph
        && Separate(transfers)
      modifies this, candidate`ownsGraph, candidate.graph
      ensures Valid() && running && finished == old(finished) && Standing() == old(Standing())
      ensures fresh(token) && Holds(token) && !token.finalized && !token.failed && token.candidate == candidate
        && token.transfers == transfers
      ensures token.previous == old(Target()) && token.previousStreams == old(RunningStreams())
      ensures candidate.graph.routes == MovedRoutes(old(candidate.graph.routes), transfers, true)
      ensures candidate.graph.providers == MovedProviders(old(candidate.graph.providers), transfers, true)
      ensures Target()
        == HandedTarget(old(Target()), candidate.Target(), registry, generationId, PreviousInstances(transfers))
      ensures !candidate.ownsGraph && graph == candidate.graph
      ensures token.retained == RetainedStreams(old(LiveStreams()), old(RunningStreams()), transfers, declared,
                                                candidate.registry.symbols, candidate.graph.providers,
                                                candidate.graph.routes)
      ensures LiveStreams() == token.retained
    {
      hide MovedRoutes, MovedProviders, Separate, RetainedStreams, GENERATION_TASKS, LiveIn, ValidTasks, RunsOn,
           HandedTarget, PreviousInstances, Named, Unaffected, RunningStreams, Standing, Recorded;
      token := BeginHandover(candidate, transfers);
      Install(token, registry, generationId);
    }

    /** A handover in which nothing goes wrong. */
    method HandOn(candidate: Coordinator, registry: Registry, generationId: Option<nat>, transfers: seq<Transfer>)
      returns (token: CollectorReconciliation)
      requires Valid() && StreamsKnown() && running && candidate != this && candidate.graph != graph
        && Separate(transfers)
      modifies this, candidate`ownsGraph, candidate.graph
      ensures Valid() && running && finished == old(finished) && Standing() == old(Standing())
      ensures fresh(token) && Holds(token) && !token.finalized && !token.failed && token.candidate == candidate
        && token.transfers == transfers
      ensures token.previous == old(Target()) && token.previousStreams == old(RunningStreams())
      ensures candidate.graph.routes == MovedRoutes(old(candidate.graph.routes), transfers, true)
      ensures candidate.graph.providers == MovedProviders(old(candidate.graph.providers), transfers, true)
      ensures Target()
        == HandedTarget(old(Target()), candidate.Target(), registry, generationId, PreviousInstances(transfers))
      ensures !candidate.ownsGraph && graph == candidate.graph
      ensures token.retained == RetainedStreams(old(LiveStreams()), old(RunningStreams()), transfers, declared,
                                                candidate.registry.symbols, candidate.graph.providers,
                                                candidate.graph.routes)
      ensures LiveStreams() == token.retained
        + Started(WantedSubscriptions(declared, registry.symbols, graph.providers, graph.routes) - token.retained.Keys,
                  serial)
    {
      hide MovedRoutes, MovedProviders, Separate, RetainedStreams, GENERATION_TASKS, LiveIn, ValidTasks, RunsOn,
           Started, WantedSubscriptions,
           HandedTarget, Named, Unaffected, RunningStreams, Standing;
      token := TakeOver(candidate, registry, generationId, transfers);
      StartAround(token.retained, registry.symbols);
    }

    /** The collector stopped, or the caller was cancelled, while the old components wound down. */
    method BreakOff(candidate: Coordinator, transfers: seq<Transfer>, fault: HandoverFault)
      requires Valid() && StreamsKnown() && running && candidate != this && candidate.graph != graph
      requires Separate(transfers) && ReadOff(candidate.graph.providers, transfers)
      requires forall x :: IsPrevious(x, transfers) ==> !Owns(candidate.graph.providers, candidate.graph.routes, x)
      modifies this, candidate`ownsGraph, candidate.graph
      ensures Valid() && running == (fault != StoppedWhilePreparing) && Target() == old(Target()) && candidate.ownsGraph
      ensures StreamsKnown() && Standing() == old(Standing())
      ensures candidate.graph.routes == old(candidate.graph.routes)
        && candidate.graph.providers == old(candidate.graph.providers)
      ensures running ==> RunningStreams() == old(RunningStreams()) && StreamsKnown()
      ensures running ==> Untouched(
        RetainedStreams(old(LiveStreams()), old(RunningStreams()), transfers, declared, candidate.registry.symbols,
                        MovedProviders(old(candidate.graph.providers), transfers, true),
                        MovedRoutes(old(candidate.graph.routes), transfers, true)),
        LiveStreams(), cancelled)
    {
      hide MovedRoutes, MovedProviders, Separate, RetainedStreams, GENERATION_TASKS, LiveIn, ValidTasks, ReadOff,
           IsPrevious, Owns, Named, Unaffected;
      CandidateThereAndBack(graph.providers, graph.routes, candidate.graph.providers, candidate.graph.routes,
                            transfers);
      var token := BeginHandover(candidate, transfers);
      if fault == StoppedWhilePreparing {
        running := false;
      }
      var _ := RollbackReconciliation(token);
    }

    /** A component of the new generation failed before the caller had its token: everything is taken back. */
    method HandBack(candidate: Coordinator, registry: Registry, generationId: Option<nat>, transfers: seq<Transfer>)
      requires Valid() && StreamsKnown() && running && candidate != this && candidate.graph != graph
      requires Separate(transfers) && ReadOff(candidate.graph.providers, transfers)
      requires forall x :: IsPrevious(x, transfers) ==> !Owns(candidate.graph.providers, candidate.graph.routes, x)
      modifies this, candidate`ownsGraph, candidate.graph
      ensures Valid() && running && Target() == old(Target()) && candidate.ownsGraph
      ensures StreamsKnown() && Standing() == old(Standing())
      ensures candidate.graph.routes == old(candidate.graph.routes)
        && candidate.graph.providers == old(candidate.graph.providers)
      ensures RunningStreams() == old(RunningStreams())
      ensures Untouched(
        RetainedStreams(old(LiveStreams()), old(RunningStreams()), transfers, declared, candidate.registry.symbols,
                        MovedProviders(old(candidate.graph.providers), transfers, true),
                        MovedRoutes(old(candidate.graph.routes), transfers, true)),
        LiveStreams(), cancelled)
    {
      hide MovedRoutes, MovedProviders, Separate, RetainedStreams, GENERATION_TASKS, LiveIn, ValidTasks, ReadOff,
           RunsOn, Started, IsPrevious, WantedStreams, WantedSubscriptions, HandedTarget, Owns, Named, Unaffected,
           RunningStreams;
      CandidateThereAndBack(graph.providers, graph.routes, candidate.graph.providers, candidate.graph.routes,
                            transfers);
      var token := HandOn(candidate, registry, generationId, transfers);
      token.failed := true;
      var _ := RollbackReconciliation(token);
    }

    /** The handover itself: begin, install, and take back when something fails. */
    method Hand(candidate: Coordinator, registry: Registry, generationId: Option<nat>, transfers: seq<Transfer>,
                fault: HandoverFault)
      returns (token: CollectorReconciliation?)
      requires Valid() && StreamsKnown() && running && candidate != this && candidate.graph != graph
      requires Separate(transfers) && ReadOff(candidate.graph.providers, transfers)
      requires forall x :: IsPrevious(x, transfers) ==> !Owns(candidate.graph.providers, candidate.graph.routes, x)
      modifies this, candidate`ownsGraph, candidate.graph
      ensures Valid() && (token == null <==> fault != NoFault) && running == (fault != StoppedWhilePreparing)
      ensures Standing() == old(Standing()) && (token == null ==> StreamsKnown())
      ensures token == null ==>
        && Target() == old(Target()) && candidate.ownsGraph
        && candidate.graph.routes == old(candidate.graph.routes)
        && candidate.graph.providers == old(candidate.graph.providers)
        && (running ==> RunningStreams() == old(RunningStreams()) && StreamsKnown())
      ensures token != null ==>
        && fresh(token) && Holds(token) && !token.finalized && !token.failed && token.candidate == candidate
        && token.transfers == transfers
        && token.previous == old(Target()) && token.previousStreams == old(RunningStreams())
        && candidate.graph.routes == MovedRoutes(old(candidate.graph.routes), transfers, true)
        && candidate.graph.providers == MovedProviders(old(candidate.graph.providers), transfers, true)
        && Target() == HandedTarget(old(Target()), candidate.Target(), registry, generationId,
                                    PreviousInstances(transfers))
        && !candidate.ownsGraph && graph == candidate.graph
      ensures token != null ==>
        && token.retained == RetainedStreams(old(LiveStreams()), old(RunningStreams()), transfers, declared,
                                             candidate.registry.symbols, candidate.graph.providers,
                                             candidate.graph.routes)
        && LiveStreams() == token.retained
             + Started(WantedSubscriptions(declared, registry.symbols, graph.providers,
                                           graph.routes) - token.retained.Keys, serial)
      ensures running ==> Untouched(
        RetainedStreams(old(LiveStreams()), old(RunningStreams()), transfers, declared, candidate.registry.symbols,
                        MovedProviders(old(candidate.graph.providers), transfers, true),
                        MovedRoutes(old(candidate.graph.routes), transfers, true)),
        LiveStreams(), cancelled)
    {
      hide MovedRoutes, MovedProviders, Separate, RetainedStreams, GENERATION_TASKS, LiveIn, ValidTasks, ReadOff,
           RunsOn, Started, IsPrevious, WantedStreams, WantedSubscriptions, HandedTarget, Owns, Named, Unaffected,
           Standing, RunningStreams;
      if fault == StoppedWhilePreparing || fault == CancelledWhilePreparing {
        BreakOff(candidate, transfers, fault);
        return null;
      }
      if fault == ComponentFailed {
        HandBack(candidate, registry, generationId, transfers);
        return null;
      }
      token := HandOn(candidate, registry, generationId, transfers);
      RetainedAreUntouched(token);
    }

    /** What is retained runs on in the old tasks. */
    lemma RetainedAreUntouched(token: CollectorReconciliation)
      requires Valid() && Holds(token) && running
      ensures Untouched(token.retained, LiveStreams(), cancelled)
    {
      LiveIsCurrent();
      hide LiveIn, ValidTasks;
    }

    /**
     What the activation does when it reconciled and a later step failed: whatever the new generation did
     to the schedules in between, the collector ends as it began.
     */
    method ReconcileAndRollBack(candidate: Coordinator, registry: Registry, generationId: Option<nat>,
                                reusable: seq<Name>, progress: CollectorTarget)
      returns (ok: bool)
      requires Valid() && StreamsKnown() && Independent(candidate)
      modifies this, candidate`ownsGraph, candidate.graph
      ensures Valid() && StreamsKnown() && Target() == old(Target()) && running == old(running)
        && Standing() == old(Standing())
      ensures candidate.graph.routes == old(candidate.graph.routes)
        && candidate.graph.providers == old(candidate.graph.providers)
      ensures running ==> RunningStreams() == old(RunningStreams())
    {
      hide LiveIn, ValidTasks, Injective, Holding, ReadOff, WantedStreams, WantedSubscriptions, HandedTarget, Named,
           Untouched, RetainedStreams,
           Separate, MovedRoutes, MovedProviders, IsPrevious, IsReplacement, Apart, Owns, Standing, RunningStreams;
      var token, transfers := ReconcileGeneration(candidate, registry, generationId, reusable, NoFault);
      ok := token != null;
      if ok {
        TransfersJoin(old(graph.providers), old(graph.routes), old(candidate.graph.providers),
                      old(candidate.graph.routes), transfers);
        CandidateThereAndBack(old(graph.providers), old(graph.routes), old(candidate.graph.providers),
                              old(candidate.graph.routes), transfers);
        ProgressAndRollBack(token, progress);
      }
    }

    /** The new generation moves its schedules on before everything is taken back. */
    method ProgressAndRollBack(token: CollectorReconciliation, progress: CollectorTarget)
      requires Valid() && Holds(token) && token.candidate.graph != token.previous.graph && !token.finalized && running
      modifies this, token.candidate`ownsGraph, token.candidate.graph
      ensures Valid() && StreamsKnown() && running && Standing() == old(Standing())
      ensures Target() == token.previous && RunningStreams() == token.previousStreams
      ensures token.candidate.graph.routes == MovedRoutes(old(token.candidate.graph.routes), token.transfers, false)
      ensures token.candidate.graph.providers
        == MovedProviders(old(token.candidate.graph.providers), token.transfers, false)
    {
      hide MovedRoutes, MovedProviders, Separate, ValidTasks, LiveIn, Standing, RunsOn;
      Retarget(progress);
      var _ := RollbackReconciliation(token);
    }

    /** A metadata-only change: the running collector takes the registry and hands back what it had. */
    method AdoptGeneration(registry: Registry,
                           generationId: Option<nat>) returns (previous: Option<(Registry, Option<nat>)>)
      modifies this`registry, this`generationId
      ensures previous == if running && !closed then Some((old(this.registry), old(this.generationId))) else None
      ensures Target() == if previous == None then old(Target())
        else old(Target()).(registry := registry, generationId := generationId)
    {
      if !running || closed {
        return None;
      }
      previous := Some((this.registry, this.generationId));
      this.registry, this.generationId := registry, generationId;
    }

    /** Opens a prepared collector. */
    method Start() returns (ok: bool)
      modifies this`running
      ensures ok == (prepared && !closed) && running == (ok || old(running))
    {
      ok := prepared && !closed;
      if ok {
        running := true;
      }
    }

    /** Shuts a collector down and closes its graph when it owns it. */
    method Stop() returns (released: seq<Instance>)
      modifies this`running, this`closed
      ensures closed && running == (old(closed) && old(running))
      ensures forall x :: x in released <==> !old(closed) && ownsGraph && Routed(graph.routes, x)
    {
      released := [];
      if !closed {
        running := false;
        if ownsGraph {
          released := graph.Close({});
        }
        closed := true;
      }
    }

    /** The health check before the point of no return. */
    predicate Confirmed(token: CollectorReconciliation)
      reads this, token
    {
      !token.finalized && !token.failed && running
    }

    /** Closes what a committed handover retired; a second call closes nothing. */
    method FinalizeReconciliation(token: CollectorReconciliation) returns (closed: seq<Instance>)
      requires forall x :: IsReplacement(x, token.transfers) ==> !Routed(token.previous.graph.routes, x)
      modifies token`finalized
      ensures token.finalized && (old(token.finalized) ==> closed == [])
      ensures forall i, j :: 0 <= i < j < |closed| ==> closed[i] != closed[j]
      ensures !old(token.finalized) ==>
        forall x :: x in closed <==> IsRetired(x, token.previous.graph.routes, token.transfers)
    {
      if token.finalized {
        return [];
      }
      token.finalized := true;
      hide PreviousInstances, Routed, IsPrevious, IsReplacement;
      PreviousInstancesArePrevious(token.transfers);
      var unused := token.previous.graph.Close(PreviousInstances(token.transfers));
      var replaced := CloseProviderInstances(Replacements(token.transfers));
      closed := unused + replaced;
      JoinedOnce(unused, replaced);
    }

    /** One synchronous assignment block: registry, generation, graph and scheduling state together. */
    method Retarget(target: CollectorTarget)
      modifies this`registry, this`generationId, this`graph, this`historyPolicies, this`checkpoints,
               this`streamObservedAt,
               this`quoteNextRefreshAt, this`metadataNextRefreshAt, this`historyNextRegularRefreshAt,
               this`historyNextEmptyRefreshAt
      ensures Target() == target && registry == target.registry && graph == target.graph
    {
      registry, generationId, graph := target.registry, target.generationId, target.graph;
      historyPolicies, checkpoints, streamObservedAt :=
        target.historyPolicies, target.checkpoints, target.streamObservedAt;
      quoteNextRefreshAt, metadataNextRefreshAt := target.quoteNextRefreshAt, target.metadataNextRefreshAt;
      historyNextRegularRefreshAt, historyNextEmptyRefreshAt :=
        target.historyNextRegularRefreshAt, target.historyNextEmptyRefreshAt;
    }
  }

  ghost predicate SoundIn(state: CollectorState, providers: map<Name, Instance>) {
    && ValidTasks(state.componentTasks, state.streamTaskSymbols, state.finished, state.cancelled, state.serial)
    && LiveIn(state.componentTasks, state.streamTaskSymbols, state.finished).Keys <= providers.Keys
    && Injective(providers) && (state.closed ==> !state.running)
  }

  /** Soundness looks at the tasks, and at a closed collector not running. */
  lemma SoundWithTheseTasks(a: CollectorState, b: CollectorState, providers: map<Name, Instance>)
    requires SoundIn(a, providers) && (b.closed && b.running ==> a.closed && a.running)
    requires a.componentTasks == b.componentTasks && a.streamTaskSymbols == b.streamTaskSymbols
    requires a.finished == b.finished && a.cancelled == b.cancelled && a.serial == b.serial
    ensures SoundIn(b, providers)
  {
    hide ValidTasks, LiveIn, Injective;
  }

  function LiveIn(tasks: map<TaskKey, Task>, symbols: map<Name, seq<Symbol>>, finished: set<Task>): map<Name,
                  LiveStream> {
    map name | name in symbols && Stream(name) in tasks && tasks[Stream(name)] !in finished ::
      LiveStream(tasks[Stream(name)], symbols[name])
  }

  function Started(subscriptions: map<Name, seq<Symbol>>, serial: nat): map<Name, LiveStream> {
    map name | name in subscriptions :: LiveStream(Task(Stream(name), serial), subscriptions[name])
  }

  /** Every component runs its own task, and a cancelled task is no component any more. */
  ghost predicate ValidTasks(tasks: map<TaskKey, Task>, symbols: map<Name, seq<Symbol>>, finished: set<Task>,
                             cancelled: set<Task>, serial: nat) {
    && (forall key :: key in tasks ==> tasks[key].key == key && tasks[key].serial <= serial && tasks[key] !in cancelled)
    && (forall task :: task in finished || task in cancelled ==> task.serial <= serial)
    && (forall key :: key in tasks && key.Stream? ==> key.provider in symbols)
    && (forall name :: name in symbols ==> symbols[name] != [])
  }

  function Only(live: map<Name, LiveStream>, names: set<Name>): map<Name, LiveStream> {
    map name | name in live && name in names :: live[name]
  }

  function LiveWithout(live: map<Name, LiveStream>, keys: set<TaskKey>): map<Name, LiveStream> {
    map name | name in live && Stream(name) !in keys :: live[name]
  }

  function TasksOf(tasks: map<TaskKey, Task>, keys: set<TaskKey>): set<Task> {
    set key | key in keys && key in tasks :: tasks[key]
  }

  lemma TasksOfMeans(tasks: map<TaskKey, Task>, keys: set<TaskKey>)
    ensures forall task :: task in TasksOf(tasks, keys) <==>
      exists key :: key in keys && key in tasks && tasks[key] == task
  {
  }

  function StreamNames(keys: set<TaskKey>): set<Name> {
    set key | key in keys && key.Stream? :: key.provider
  }

  lemma CancelledTasksAreGone(tasks: map<TaskKey, Task>, symbols: map<Name, seq<Symbol>>, finished: set<Task>,
                              cancelled: set<Task>,
                              serial: nat, keys: set<TaskKey>)
    requires ValidTasks(tasks, symbols, finished, cancelled, serial)
    ensures ValidTasks(tasks - keys, symbols - StreamNames(tasks.Keys * keys), finished,
                       cancelled + TasksOf(tasks, keys), serial)
  {
    var gone := TasksOf(tasks, keys);
    assert forall task :: task in gone ==> task.key in keys && task.key in tasks && tasks[task.key] == task;
    assert forall name :: name in StreamNames(tasks.Keys * keys) ==> Stream(name) in keys;
  }

  lemma LiveAfterCancel(tasks: map<TaskKey, Task>, symbols: map<Name, seq<Symbol>>, finished: set<Task>,
                        keys: set<TaskKey>)
    ensures LiveIn(tasks - keys, symbols - StreamNames(tasks.Keys * keys), finished)
      == LiveWithout(LiveIn(tasks, symbols, finished), keys)
  {
    var gone := StreamNames(tasks.Keys * keys);
    forall name ensures name in gone <==> Stream(name) in tasks && Stream(name) in keys {
      if Stream(name) in tasks && Stream(name) in keys {
        assert Stream(name) in tasks.Keys * keys;
      }
    }
    hide StreamNames;
  }

  /** A task started now is no earlier task. */
  lemma StartedTasksAreNew(tasks: map<TaskKey, Task>, symbols: map<Name, seq<Symbol>>, finished: set<Task>,
                           cancelled: set<Task>,
                           keys: set<TaskKey>, subscriptions: map<Name, seq<Symbol>>, serial: nat)
    requires ValidTasks(tasks, symbols, finished, cancelled, serial)
    requires forall name :: name in subscriptions <==> Stream(name) in keys
    requires forall name :: name in subscriptions ==> subscriptions[name] != []
    ensures ValidTasks(tasks + NewTasks(keys, serial + 1), symbols + subscriptions, finished, cancelled, serial + 1)
  {
    var started, all := tasks + NewTasks(keys, serial + 1), symbols + subscriptions;
    forall key | key in started
      ensures started[key].key == key && started[key].serial <= serial + 1 && started[key] !in cancelled
      ensures key.Stream? ==> key.provider in all
    {
      assert key in keys ==> started[key] == Task(key, serial + 1);
      assert key !in keys ==> key in tasks && started[key] == tasks[key];
    }
  }

  lemma FinishedAreOld(tasks: map<TaskKey, Task>, symbols: map<Name, seq<Symbol>>, finished: set<Task>,
                       cancelled: set<Task>, serial: nat)
    requires ValidTasks(tasks, symbols, finished, cancelled, serial)
    ensures forall task :: task in finished ==> task.serial <= serial
  {
  }

  lemma LiveNameAfterStart(tasks: map<TaskKey, Task>, symbols: map<Name, seq<Symbol>>, finished: set<Task>,
                           keys: set<TaskKey>, subscriptions: map<Name, seq<Symbol>>, serial: nat, name: Name)
    requires forall task :: task in finished ==> task.serial <= serial
    requires name in subscriptions <==> Stream(name) in keys
    ensures var a := LiveIn(tasks + NewTasks(keys, serial + 1), symbols + subscriptions, finished);
            var b := LiveIn(tasks, symbols, finished) + Started(subscriptions, serial + 1);
            (name in a <==> name in b) && (name in a ==> a[name] == b[name])
  {
    assert (name in subscriptions) == (Stream(name) in NewTasks(keys, serial + 1));
  }

  lemma LiveAfterStart(tasks: map<TaskKey, Task>, symbols: map<Name, seq<Symbol>>, finished: set<Task>,
                       cancelled: set<Task>,
                       keys: set<TaskKey>, subscriptions: map<Name, seq<Symbol>>, serial: nat)
    requires ValidTasks(tasks, symbols, finished, cancelled, serial)
    requires forall name :: name in subscriptions <==> Stream(name) in keys
    ensures LiveIn(tasks + NewTasks(keys, serial + 1), symbols + subscriptions, finished)
         == LiveIn(tasks, symbols, finished) + Started(subscriptions, serial + 1)
  {
    hide ValidTasks, LiveIn, Started, NewTasks;
    FinishedAreOld(tasks, symbols, finished, cancelled, serial);
    var started, all := tasks + NewTasks(keys, serial + 1), symbols + subscriptions;
    var a, b := LiveIn(started, all, finished), LiveIn(tasks, symbols, finished) + Started(subscriptions, serial + 1);
    forall name ensures (name in a <==> name in b) && (name in a ==> a[name] == b[name]) {
      LiveNameAfterStart(tasks, symbols, finished, keys, subscriptions, serial, name);
    }
  }

  /** Retained streams plus the restarted rest are the previous streams again. */
  lemma StreamsRestored(previous: map<Name, StreamTask>, retained: map<Name, LiveStream>,
                        providers: map<Name, Instance>, serial: nat)
    requires forall name :: name in previous ==> name in providers && providers[name] == previous[name].provider
    requires forall name :: name in retained ==> name in previous && retained[name].symbols == previous[name].symbols
    ensures var restarted := Started(Restart(previous, retained.Keys), serial);
            var live := retained + restarted;
            && live.Keys == previous.Keys
            && previous == (map name | name in live && name in providers ::
                            StreamTask(providers[name], live[name].symbols))
            && forall name :: name in retained ==> name in live && live[name] == retained[name]
  {
  }

  lemma RestartHasSymbols(previous: map<Name, StreamTask>, retained: set<Name>)
    requires forall name :: name in previous ==> previous[name].symbols != []
    ensures forall name :: name in Restart(previous, retained) ==> Restart(previous, retained)[name] != []
  {
  }

  function Restart(previous: map<Name, StreamTask>, retained: set<Name>): map<Name, seq<Symbol>> {
    map name | name in previous && name !in retained :: previous[name].symbols
  }

  /** Of the live streams the handover keeps those it does not cancel. */
  lemma KeptAlive(live: map<Name, LiveStream>, previous: map<Name, StreamTask>, retained: map<Name, LiveStream>)
    requires live.Keys == previous.Keys && forall name ::
      name in retained ==> name in live && retained[name] == live[name]
    ensures retained == LiveWithout(live, GENERATION_TASKS + StreamKeys(previous.Keys - retained.Keys))
  {
    hide GENERATION_TASKS;
    NoStreamKeys();
  }

  /** The streams a graph wants: one for each adapter that heads the quote chain of some declared symbol. */
  function WantedSubscriptions(declared: map<Instance, set<Symbol>>, symbols: seq<Symbol>,
                               providers: map<Name, Instance>, routes: Routes)
    : map<Name, seq<Symbol>>
  {
    map name | name in providers && StreamSymbols(declared, symbols, routes, providers[name]) != [] ::
      StreamSymbols(declared, symbols, routes, providers[name])
  }

  /** Transfers between graphs that share no adapter never mix old and candidate instances. */
  lemma PairsAreSeparate(aProviders: map<Name, Instance>, aRoutes: Routes, bProviders: map<Name, Instance>,
                         bRoutes: Routes,
                         transfers: seq<Transfer>)
    requires Injective(aProviders) && Injective(bProviders) && Apart(aProviders, aRoutes, bProviders, bRoutes)
    requires DistinctNames(transfers) && Holding(aProviders, transfers) && ReadOff(bProviders, transfers)
    ensures Separate(transfers)
  {
    TransfersJoin(aProviders, aRoutes, bProviders, bRoutes, transfers);
    forall i, j | 0 <= i < |transfers| && 0 <= j < |transfers|
      ensures transfers[i].previous != transfers[j].replacement {
      assert IsPrevious(transfers[i].previous, transfers) && IsReplacement(transfers[j].replacement, transfers);
    }
    hide IsPrevious, IsReplacement, Owns, Apart;
  }

  /** A transfer joins an adapter of the old graph alone with one of the candidate graph alone. */
  lemma TransfersJoin(aProviders: map<Name, Instance>, aRoutes: Routes, bProviders: map<Name, Instance>,
                      bRoutes: Routes,
                      transfers: seq<Transfer>)
    requires Apart(aProviders, aRoutes, bProviders, bRoutes) && Holding(aProviders, transfers)
      && ReadOff(bProviders, transfers)
    ensures forall x :: IsPrevious(x, transfers) ==> x in aProviders.Values && !Owns(bProviders, bRoutes, x)
    ensures forall x :: IsReplacement(x, transfers) ==> x in bProviders.Values && !Owns(aProviders, aRoutes, x)
  {
    hide Routed;
    forall i | 0 <= i < |transfers|
      ensures Owns(aProviders, aRoutes, transfers[i].previous) && Owns(bProviders, bRoutes, transfers[i].replacement)
    {
      assert aProviders[transfers[i].name] in aProviders.Values;
      assert bProviders[transfers[i].name] in bProviders.Values;
    }
  }

  /** Every stream has a subscription and runs on the adapter a provider table holds under its name. */
  ghost predicate RunsOn(streams: map<Name, StreamTask>, providers: map<Name, Instance>) {
    forall name :: name in streams ==>
      streams[name].symbols != [] && name in providers && providers[name] == streams[name].provider
  }

  /** The live streams a handover leaves alone. */
  function RetainedStreams(live: map<Name, LiveStream>, previous: map<Name, StreamTask>, transfers: seq<Transfer>,
                           declared: map<Instance, set<Symbol>>, symbols: seq<Symbol>, providers: map<Name, Instance>,
                           routes: Routes)
    : map<Name, LiveStream>
  {
    map name | name in live && name in previous && Named(transfers, name)
               && Unaffected(declared, symbols, providers, routes, name, previous[name]) :: live[name]
  }

  lemma RetainedIsLive(live: map<Name, LiveStream>, previous: map<Name, StreamTask>, transfers: seq<Transfer>,
                       declared: map<Instance, set<Symbol>>, symbols: seq<Symbol>, providers: map<Name, Instance>,
                       routes: Routes)
    ensures var retained := RetainedStreams(live, previous, transfers, declared, symbols, providers, routes);
            forall name :: name in retained ==> name in previous && name in live && retained[name] == live[name]
  {
  }

  lemma JoinedOnce(a: seq<Instance>, b: seq<Instance>)
    requires forall i, j :: 0 <= i < j < |a| ==> a[i] != a[j]
    requires forall i, j :: 0 <= i < j < |b| ==> b[i] != b[j]
    requires forall x :: x in a ==> x !in b
    ensures forall i, j :: 0 <= i < j < |a + b| ==> (a + b)[i] != (a + b)[j]
  {
    forall i, j | 0 <= i < |a| && 0 <= j < |b| ensures a[i] != b[j] {
      assert a[i] in a && b[j] in b;
    }
  }

  /** An adapter a committed handover gives up: routed before and not transferred, or replaced by a transferred one. */
  ghost predicate IsRetired(x: Instance, routes: Routes, transfers: seq<Transfer>) {
    (Routed(routes, x) && !IsPrevious(x, transfers)) || IsReplacement(x, transfers)
  }

  lemma PreviousInstancesArePrevious(transfers: seq<Transfer>)
    ensures forall x :: x in PreviousInstances(transfers) <==> IsPrevious(x, transfers)
  {
    forall x ensures x in PreviousInstances(transfers) <==> IsPrevious(x, transfers) {
      if i :| 0 <= i < |transfers| && transfers[i].previous == x {
        assert transfers[i] in transfers;
      }
      if x in PreviousInstances(transfers) {
        var t :| t in transfers && t.previous == x;
        var i :| 0 <= i < |transfers| && transfers[i] == t;
        assert transfers[i].previous == x;
      }
    }
  }

  function Replacements(transfers: seq<Transfer>): (replacements: seq<Instance>)
    ensures forall x :: x in replacements <==> IsReplacement(x, transfers)
    decreases |transfers|
  {
    if transfers == [] then []
    else
      assert forall x :: IsReplacement(x, transfers) <==>
        transfers[0].replacement == x || IsReplacement(x, transfers[1..]) by {
        forall x { TailFacts(x, transfers); }
      }
      [transfers[0].replacement] + Replacements(transfers[1..])
  }

  lemma KeysAreProviders(live: map<Name, LiveStream>, previous: map<Name, StreamTask>, transfers: seq<Transfer>,
                         declared: map<Instance, set<Symbol>>, before: seq<Symbol>, after: seq<Symbol>,
                         providers: map<Name, Instance>, routes: Routes, serial: nat)
    ensures var retained := RetainedStreams(live, previous, transfers, declared, before, providers, routes);
            (retained + Started(WantedSubscriptions(declared, after, providers, routes) - retained.Keys,
                                serial)).Keys <= providers.Keys
  {
    hide StreamSymbols, Named;
  }

  lemma RetainedStayLive(retained: map<Name, LiveStream>, wanted: map<Name, seq<Symbol>>, serial: nat)
    ensures var live := retained + Started(wanted - retained.Keys, serial);
            forall name :: name in retained ==> name in live && live[name] == retained[name]
  {
  }

  /** Closes each instance once, in order. */
  method CloseProviderInstances(providers: seq<Instance>) returns (closed: seq<Instance>)
    ensures forall i, j :: 0 <= i < j < |closed| ==> closed[i] != closed[j]
    ensures forall x :: x in closed <==> x in providers
  {
    closed := [];
    var seen: set<Instance> := {};
    for k := 0 to |providers|
      invariant forall i, j :: 0 <= i < j < |closed| ==> closed[i] != closed[j]
      invariant forall x :: x in closed <==> x in seen
      invariant forall x :: x in seen <==> x in providers[..k]
    {
      assert providers[..k + 1] == providers[..k] + [providers[k]];
      if providers[k] in seen {
        continue;
      }
      seen := seen + {providers[k]};
      closed := closed + [providers[k]];
    }
    assert providers[..|providers|] == providers;
  }

  /**
   After a committed handover no adapter is both in use and closed, and one that is neither is an old
   adapter which sat in the provider table without any route: closing a graph only reaches routed ones.
   */
  lemma InUseXorClosed(aProviders: map<Name, Instance>, aRoutes: Routes, bProviders: map<Name, Instance>,
                       bRoutes: Routes,
                       transfers: seq<Transfer>, x: Instance)
    requires Apart(aProviders, aRoutes, bProviders, bRoutes) && Separate(transfers)
    requires Holding(aProviders, transfers) && ReadOff(bProviders, transfers)
    requires Injective(bProviders)
    requires Owns(aProviders, aRoutes, x) || Owns(bProviders, bRoutes, x)
    ensures var inUse := Owns(MovedProviders(bProviders, transfers, true), MovedRoutes(bRoutes, transfers, true), x);
            var isClosed := IsRetired(x, aRoutes, transfers);
            && !(inUse && isClosed)
            && (!inUse && !isClosed <==> x in aProviders.Values && !Routed(aRoutes, x) && !IsPrevious(x, transfers))
  {
    TransfersJoin(aProviders, aRoutes, bProviders, bRoutes, transfers);
    var providers, routes := MovedProviders(bProviders, transfers, true), MovedRoutes(bRoutes, transfers, true);
    InMovedProviders(bProviders, transfers, x);
    InMovedRoutes(bRoutes, transfers, x);
    hide MovedProviders, MovedRoutes, Separate, Injective, Holding, ReadOff, Routed, IsPrevious, IsReplacement;
  }

  /** The moved table holds its own adapters except the replaced ones, and the transferred ones. */
  lemma InMovedProviders(providers: map<Name, Instance>, transfers: seq<Transfer>, x: Instance)
    requires Separate(transfers) && ReadOff(providers, transfers) && Injective(providers)
    ensures x in MovedProviders(providers, transfers, true).Values
      <==> (x in providers.Values && !IsReplacement(x, transfers)) || IsPrevious(x, transfers)
  {
    hide MovedProviders;
    var moved := MovedProviders(providers, transfers, true);
    forall name ensures name in moved ==>
      moved[name] == x ==> (x in providers.Values && !IsReplacement(x, transfers)) || IsPrevious(x, transfers) {
      ProvidersAt(providers, transfers, true, name);
      if name in moved && moved[name] == x && !Named(transfers, name) {
        assert forall i :: 0 <= i < |transfers| ==> transfers[i] in transfers;
        assert name in providers && providers[name] == x;
      }
    }
    if i :| 0 <= i < |transfers| && transfers[i].previous == x {
      ProvidersAt(providers, transfers, true, transfers[i].name);
      assert moved[transfers[i].name] in moved.Values;
    }
    if x in providers.Values && !IsReplacement(x, transfers) {
      var name :| name in providers && providers[name] == x;
      ProvidersAt(providers, transfers, true, name);
      assert moved[name] in moved.Values;
    }
  }

  /** The moved chains hold their own adapters except the replaced ones, and maybe transferred ones. */
  lemma InMovedRoutes(routes: Routes, transfers: seq<Transfer>, x: Instance)
    requires Separate(transfers) && forall y :: IsPrevious(y, transfers) ==> !Routed(routes, y)
    ensures Routed(MovedRoutes(routes, transfers, true), x) ==>
      (Routed(routes, x) && !IsReplacement(x, transfers)) || IsPrevious(x, transfers)
    ensures Routed(routes, x) && !IsReplacement(x, transfers) ==> Routed(MovedRoutes(routes, transfers, true), x)
  {
    hide Moved, MovedChain, Separate, IsPrevious, IsReplacement;
    var moved := MovedRoutes(routes, transfers, true);
    if Routed(moved, x) {
      var key :| key in moved && x in moved[key];
      var i :| 0 <= i < |moved[key]| && moved[key][i] == x;
      assert routes[key][i] in routes[key];
      MovedTo(routes[key][i], transfers);
    }
    if Routed(routes, x) && !IsReplacement(x, transfers) {
      var key :| key in routes && x in routes[key];
      var i :| 0 <= i < |routes[key]| && routes[key][i] == x;
      MovedTo(x, transfers);
      assert moved[key][i] == x;
    }
  }

  /** Every retained stream still runs in its old task, which nobody cancelled. */
  ghost predicate Untouched(retained: map<Name, LiveStream>, live: map<Name, LiveStream>, cancelled: set<Task>) {
    forall name :: name in retained ==>
      name in live && live[name] == retained[name] && retained[name].task !in cancelled
  }

  /** The streams a graph wants, each with its adapter. */
  function WantedStreams(declared: map<Instance, set<Symbol>>, symbols: seq<Symbol>, providers: map<Name, Instance>,
                         routes: Routes)
    : map<Name, StreamTask>
  {
    map name | name in WantedSubscriptions(declared, symbols, providers, routes) ::
      StreamTask(providers[name], WantedSubscriptions(declared, symbols, providers, routes)[name])
  }

  /** Retained streams already are what the new graph wants; the rest is started. */
  lemma WantedIsRunning(live: map<Name, LiveStream>, previous: map<Name, StreamTask>, transfers: seq<Transfer>,
                        declared: map<Instance, set<Symbol>>, symbols: seq<Symbol>, providers: map<Name, Instance>,
                        routes: Routes, serial: nat)
    requires forall name :: name in live && name in previous ==>
      live[name].symbols == previous[name].symbols && live[name].symbols != []
    ensures var retained := RetainedStreams(live, previous, transfers, declared, symbols, providers, routes);
            var wanted := WantedSubscriptions(declared, symbols, providers, routes);
            var now := retained + Started(wanted - retained.Keys, serial);
            (map name | name in now && name in providers :: StreamTask(providers[name], now[name].symbols))
            == WantedStreams(declared, symbols, providers, routes)
  {
    hide StreamSymbols, Named;
  }

  lemma CandidateThereAndBack(aProviders: map<Name, Instance>, aRoutes: Routes, bProviders: map<Name, Instance>,
                              bRoutes: Routes,
                              transfers: seq<Transfer>)
    requires Separate(transfers) && ReadOff(bProviders, transfers)
    requires forall x :: IsPrevious(x, transfers) ==> !Owns(bProviders, bRoutes, x)
    ensures MovedRoutes(MovedRoutes(bRoutes, transfers, true), transfers, false) == bRoutes
    ensures MovedProviders(MovedProviders(bProviders, transfers, true), transfers, false) == bProviders
  {
    hide Separate, IsPrevious, MovedRoutes, MovedProviders;
    forall key, x | key in bRoutes && x in bRoutes[key] ensures !IsPrevious(x, transfers) {
      assert Routed(bRoutes, x);
    }
    RoutesThereAndBack(bRoutes, transfers);
    ProvidersThereAndBack(bProviders, transfers);
  }

  /** The candidate graph keeps the adapter of a running stream and wants the same subscription. */
  predicate Unaffected(declared: map<Instance, set<Symbol>>, symbols: seq<Symbol>, providers: map<Name, Instance>,
                       routes: Routes,
                       name: Name, stream: StreamTask)
  {
    name in providers && providers[name] == stream.provider
    && StreamSymbols(declared, symbols, routes, stream.provider) == stream.symbols
  }

  function PreviousInstances(transfers: seq<Transfer>): set<Instance> {
    set t | t in transfers :: t.previous
  }

  /** The target a handover installs. */
  function HandedTarget(mine: CollectorTarget, theirs: CollectorTarget, registry: Registry, generationId: Option<nat>,
                        retainedInstances: set<Instance>): CollectorTarget
    reads mine.graph, theirs.graph
  {
    CollectorTarget(
      registry, generationId, theirs.graph, theirs.historyPolicies, theirs.checkpoints + mine.checkpoints,
      map key | key in mine.streamObservedAt && key.0 in retainedInstances && key.1 in registry.symbols ::
        mine.streamObservedAt[key],
      Keep(mine.quoteNextRefreshAt,
           PreservedQuotes(mine.registry, mine.graph.routes, theirs.registry, theirs.graph.routes)),
      Keep(mine.metadataNextRefreshAt,
           PreservedMetadata(mine.registry, mine.graph.routes, theirs.registry, theirs.graph.routes)),
      Keep(mine.historyNextRegularRefreshAt,
           PreservedHistory(mine.registry, mine.graph.routes, mine.historyPolicies, theirs.registry,
                            theirs.graph.routes, theirs.historyPolicies)),
      mine.historyNextEmptyRefreshAt)
  }

  lemma HandedFields(mine: CollectorTarget, theirs: CollectorTarget, registry: Registry, generationId: Option<nat>,
                     retainedInstances: set<Instance>)
    ensures var target := HandedTarget(mine, theirs, registry, generationId, retainedInstances);
            && target.registry == registry && target.generationId == generationId && target.graph == theirs.graph
            && target.historyPolicies == theirs.historyPolicies
            && target.historyNextEmptyRefreshAt == mine.historyNextEmptyRefreshAt
  {
  }

  /** A transfer joins the two adapters. */
  ghost predicate Joins(transfers: seq<Transfer>, previous: Instance, replacement: Instance) {
    exists i :: 0 <= i < |transfers| && transfers[i].previous == previous && transfers[i].replacement == replacement
  }

  /** Place by place, the new chain wants the adapter that moves over from the old one. */
  ghost predicate ChainMovesOver(live: seq<Instance>, wanted: seq<Instance>, transfers: seq<Transfer>) {
    |live| == |wanted| && forall i :: 0 <= i < |live| ==> Joins(transfers, live[i], wanted[i])
  }

  lemma {:induction false} ReplacementMoves(transfers: seq<Transfer>, i: nat)
    requires Separate(transfers) && i < |transfers|
    ensures Moved(transfers[i].replacement, transfers, true) == transfers[i].previous
    decreases |transfers|
  {
    SeparateTail(transfers);
    if i == 0 {
      NotMoved(transfers[0].previous, transfers[1..], true);
    } else {
      ReplacementMoves(transfers[1..], i - 1);
    }
  }

  /** An adapter of the candidate alone becomes a live one exactly when a transfer joins the two. */
  lemma BecomesLiveIff(transfers: seq<Transfer>, live: Instance, wanted: Instance)
    requires Separate(transfers) && live != wanted
    ensures Moved(wanted, transfers, true) == live <==> Joins(transfers, live, wanted)
  {
    MovedTo(wanted, transfers);
    if IsReplacement(wanted, transfers) {
      var i :| 0 <= i < |transfers| && transfers[i].replacement == wanted;
      ReplacementMoves(transfers, i);
    }
    if i :| 0 <= i < |transfers| && transfers[i].previous == live && transfers[i].replacement == wanted {
      ReplacementMoves(transfers, i);
    }
  }

  lemma ChainSurvivesIff(aProviders: map<Name, Instance>, aRoutes: Routes, bProviders: map<Name, Instance>,
                         bRoutes: Routes,
                         transfers: seq<Transfer>, s: Symbol, capability: Capability)
    requires Separate(transfers) && Apart(aProviders, aRoutes, bProviders, bRoutes)
    ensures Chain(aRoutes, s, capability) == Chain(MovedRoutes(bRoutes, transfers, true), s, capability)
       <==> ChainMovesOver(Chain(aRoutes, s, capability), Chain(bRoutes, s, capability), transfers)
  {
    hide Separate, Moved, Joins;
    var live, wanted := Chain(aRoutes, s, capability), Chain(bRoutes, s, capability);
    var moved := Chain(MovedRoutes(bRoutes, transfers, true), s, capability);
    assert |moved| == |wanted|;
    forall i | 0 <= i < |live| && i < |wanted|
      ensures moved[i] == live[i] <==> Joins(transfers, live[i], wanted[i])
    {
      OwnsItsChains(aProviders, aRoutes, s, capability, i);
      OwnsItsChains(bProviders, bRoutes, s, capability, i);
      assert moved[i] == Moved(wanted[i], transfers, true);
      BecomesLiveIff(transfers, live[i], wanted[i]);
    }
  }

  lemma OwnsItsChains(providers: map<Name, Instance>, routes: Routes, s: Symbol, capability: Capability, i: nat)
    requires i < |Chain(routes, s, capability)|
    ensures Owns(providers, routes, Chain(routes, s, capability)[i])
  {
  }

  /** For each capability, the adapters of the live chain move over to their places in the candidate's own chain. */
  ghost predicate MovesOver(live: Routes, own: Routes, transfers: seq<Transfer>, s: Symbol,
                            capabilities: set<Capability>) {
    forall c :: c in capabilities ==> ChainMovesOver(Chain(live, s, c), Chain(own, s, c), transfers)
  }

  /**
   What a handover keeps of the schedule. A due time survives exactly when the symbol is scheduled the same way by
   both registries and every adapter of its chain moves over to the place the candidate's own chain has for it.
   */
  lemma DueTimesSurviveIff(mine: CollectorTarget, theirs: CollectorTarget, registry: Registry,
                           generationId: Option<nat>,
                           ownProviders: map<Name, Instance>, ownRoutes: Routes, transfers: seq<Transfer>, s: Symbol)
    requires Separate(transfers) && Apart(mine.graph.providers, mine.graph.routes, ownProviders, ownRoutes)
    requires theirs.graph.routes == MovedRoutes(ownRoutes, transfers, true)
    ensures var target := HandedTarget(mine, theirs, registry, generationId, PreviousInstances(transfers));
            && (s in target.quoteNextRefreshAt <==>
                  && s in mine.quoteNextRefreshAt
                  && AgreeOn(mine.registry, theirs.registry, s, (spec: InstrumentSpec) =>
                       (spec.quotePollSeconds, spec.staleAfterSeconds, spec.marketCalendar, spec.assetClass))
                  && MovesOver(mine.graph.routes, ownRoutes, transfers, s, {Quote}))
            && (s in target.metadataNextRefreshAt <==>
                  && s in mine.metadataNextRefreshAt
                  && AgreeOn(mine.registry, theirs.registry, s,
                             (spec: InstrumentSpec) => (spec.dividendStrategy, spec.yieldStrategy))
                  && MovesOver(mine.graph.routes, ownRoutes, transfers, s, {Dividend, Yield}))
            && (s in target.historyNextRegularRefreshAt <==>
                  && s in mine.historyNextRegularRefreshAt
                  && AgreeOn(mine.registry, theirs.registry, s,
                             (spec: InstrumentSpec) => (spec.historyEnabled, spec.assetClass))
                  && PolicyOf(mine.historyPolicies, s) == PolicyOf(theirs.historyPolicies, s)
                  && MovesOver(mine.graph.routes, ownRoutes, transfers, s, {History}))
            && (s in target.quoteNextRefreshAt ==> target.quoteNextRefreshAt[s] == mine.quoteNextRefreshAt[s])
            && (s in target.metadataNextRefreshAt ==> target.metadataNextRefreshAt[s] == mine.metadataNextRefreshAt[s])
            && (s in target.historyNextRegularRefreshAt ==>
                  target.historyNextRegularRefreshAt[s] == mine.historyNextRegularRefreshAt[s])
  {
    hide Separate, Apart, MovedRoutes, Chain, ChainMovesOver, SameQuoteInputs, SameMetadataInputs, SameHistoryInputs;
    ChainSurvivesIff(mine.graph.providers, mine.graph.routes, ownProviders, ownRoutes, transfers, s, Quote);
    ChainSurvivesIff(mine.graph.providers, mine.graph.routes, ownProviders, ownRoutes, transfers, s, Dividend);
    ChainSurvivesIff(mine.graph.providers, mine.graph.routes, ownProviders, ownRoutes, transfers, s, Yield);
    ChainSurvivesIff(mine.graph.providers, mine.graph.routes, ownProviders, ownRoutes, transfers, s, History);
    OnlyKnownAreAlike(mine, theirs, s);
    AlikeMeans(mine, theirs, s);
  }

  /** Both registries have the symbol, and its specifications look the same. */
  ghost predicate AgreeOn<T>(a: Registry, b: Registry, s: Symbol, view: InstrumentSpec -> T) {
    s in a.specs && s in b.specs && view(a.specs[s]) == view(b.specs[s])
  }

  lemma AlikeMeans(mine: CollectorTarget, theirs: CollectorTarget, s: Symbol)
    ensures SameQuoteInputs(mine.registry, theirs.registry, s) <==>
      AgreeOn(mine.registry, theirs.registry, s, (spec: InstrumentSpec) =>
        (spec.quotePollSeconds, spec.staleAfterSeconds, spec.marketCalendar, spec.assetClass))
    ensures SameMetadataInputs(mine.registry, theirs.registry, s) <==>
      AgreeOn(mine.registry, theirs.registry, s, (spec: InstrumentSpec) => (spec.dividendStrategy, spec.yieldStrategy))
    ensures SameHistoryInputs(mine.registry, mine.historyPolicies, theirs.registry, theirs.historyPolicies, s) <==>
      && AgreeOn(mine.registry, theirs.registry, s, (spec: InstrumentSpec) => (spec.historyEnabled, spec.assetClass))
      && PolicyOf(mine.historyPolicies, s) == PolicyOf(theirs.historyPolicies, s)
  {
  }

  lemma OnlyKnownAreAlike(mine: CollectorTarget, theirs: CollectorTarget, s: Symbol)
    ensures SameQuoteInputs(mine.registry, theirs.registry, s) ==> s in mine.registry.specs
    ensures SameMetadataInputs(mine.registry, theirs.registry, s) ==> s in mine.registry.specs
    ensures SameHistoryInputs(mine.registry, mine.historyPolicies, theirs.registry, theirs.historyPolicies, s) ==>
      s in mine.registry.specs
  {
  }

  /** The adapters that move over are those the old and the handed-over table both hold. */
  lemma MovesOverIffInBoth(aProviders: map<Name, Instance>, aRoutes: Routes, bProviders: map<Name, Instance>,
                           bRoutes: Routes,
                           transfers: seq<Transfer>, x: Instance)
    requires Separate(transfers) && Apart(aProviders, aRoutes, bProviders, bRoutes)
    requires Injective(bProviders) && Holding(aProviders, transfers) && ReadOff(bProviders, transfers)
    ensures IsPrevious(x, transfers) <==>
      x in aProviders.Values && x in MovedProviders(bProviders, transfers, true).Values
  {
    hide Separate, MovedProviders, Holding, ReadOff, Routed, IsPrevious, IsReplacement;
    TransfersJoin(aProviders, aRoutes, bProviders, bRoutes, transfers);
    InMovedProviders(bProviders, transfers, x);
    assert x in aProviders.Values ==> Owns(aProviders, aRoutes, x);
    assert x in bProviders.Values ==> Owns(bProviders, bRoutes, x);
  }

  /**
   A sighting of a stream is kept exactly when the registry keeps the symbol and the adapter is in the old graph's table
   and in the new one's; the running collector's checkpoints win over the candidate's.
   */
  lemma SightingsAndCheckpointsKept(mine: CollectorTarget, theirs: CollectorTarget, registry: Registry,
                                    generationId: Option<nat>, ownProviders: map<Name, Instance>, ownRoutes: Routes,
                                    transfers: seq<Transfer>, x: Instance, s: Symbol, feed: Feed)
    requires Separate(transfers) && Apart(mine.graph.providers, mine.graph.routes, ownProviders, ownRoutes)
    requires Injective(ownProviders) && Holding(mine.graph.providers, transfers) && ReadOff(ownProviders, transfers)
    requires theirs.graph.providers == MovedProviders(ownProviders, transfers, true)
    ensures var target := HandedTarget(mine, theirs, registry, generationId, PreviousInstances(transfers));
            && ((x, s) in target.streamObservedAt <==>
                  && (x, s) in mine.streamObservedAt && s in registry.symbols
                  && x in mine.graph.providers.Values && x in target.graph.providers.Values)
            && ((x, s) in target.streamObservedAt ==> target.streamObservedAt[(x, s)] == mine.streamObservedAt[(x, s)])
            && (feed in target.checkpoints <==> feed in mine.checkpoints || feed in theirs.checkpoints)
            && (feed in target.checkpoints ==>
                  target.checkpoints[feed] == if feed in mine.checkpoints then mine.checkpoints[feed]
                    else theirs.checkpoints[feed])
  {
    hide IsPrevious, Separate, Apart, Holding, ReadOff, MovedProviders;
    PreviousInstancesArePrevious(transfers);
    MovesOverIffInBoth(mine.graph.providers, mine.graph.routes, ownProviders, ownRoutes, transfers, x);
    var target := HandedTarget(mine, theirs, registry, generationId, PreviousInstances(transfers));
    assert (x, s) in target.streamObservedAt <==>
      (x, s) in mine.streamObservedAt && (x, s).0 in PreviousInstances(transfers) && (x, s).1 in registry.symbols;
  }

  lemma NoStreamKeys()
    ensures forall name :: Stream(name) !in GENERATION_TASKS
  {
  }

  /** The table a handover leaves in the candidate graph still has each adapter under one name. */
  lemma MovedIsInjective(aProviders: map<Name, Instance>, aRoutes: Routes, bProviders: map<Name, Instance>,
                         bRoutes: Routes,
                         transfers: seq<Transfer>)
    requires Separate(transfers) && Injective(bProviders) && Apart(aProviders, aRoutes, bProviders, bRoutes)
    requires Holding(aProviders, transfers) && ReadOff(bProviders, transfers)
    ensures Injective(MovedProviders(bProviders, transfers, true))
  {
    hide Apart, Routed, MovedProviders, Holding, IsReplacement;
    TransfersJoin(aProviders, aRoutes, bProviders, bRoutes, transfers);
    var moved := MovedProviders(bProviders, transfers, true);
    forall a, b | a in moved && b in moved && moved[a] == moved[b] ensures a == b {
      MovedAt(bProviders, transfers, a);
      MovedAt(bProviders, transfers, b);
      if IsPrevious(moved[a], transfers) {
        assert moved[a] !in bProviders.Values;
        var i :| 0 <= i < |transfers| && transfers[i].name == a && moved[a] == transfers[i].previous;
        var j :| 0 <= j < |transfers| && transfers[j].name == b && moved[b] == transfers[j].previous;
        assert i == j;
      }
    }
  }

  /** Under each name the moved table has a live adapter or the candidate's own. */
  lemma MovedAt(providers: map<Name, Instance>, transfers: seq<Transfer>, name: Name)
    requires Separate(transfers)
    ensures var moved := MovedProviders(providers, transfers, true);
            name in moved ==>
              || (exists i :: 0 <= i < |transfers| && transfers[i].name == name && moved[name] == transfers[i].previous)
              || (name in providers && moved[name] == providers[name] && moved[name] in providers.Values)
  {
    hide MovedProviders;
    ProvidersAt(providers, transfers, true, name);
    if i :| 0 <= i < |transfers| && transfers[i].name == name {
      assert To(transfers[i], true) == transfers[i].previous;
    }
  }

  lemma SomebodyIsNamed(pairs: seq<Transfer>)
    ensures pairs != [] <==> exists name :: Named(pairs, name)
  {
    if pairs != [] {
      assert pairs[0] in pairs;
      assert Named(pairs, pairs[0].name);
    }
  }

  predicate Named(pairs: seq<Transfer>, name: Name) {
    exists t :: t in pairs && t.name == name
  }

  ghost predicate Injective(providers: map<Name, Instance>) {
    forall a, b :: a in providers && b in providers && providers[a] == providers[b] ==> a == b
  }

  /** An adapter a graph holds in its table or in one of its chains. */
  predicate Owns(providers: map<Name, Instance>, routes: Routes, x: Instance) {
    x in providers.Values || Routed(routes, x)
  }

  /** Two graphs built independently share no adapter. */
  ghost predicate Apart(aProviders: map<Name, Instance>, aRoutes: Routes, bProviders: map<Name, Instance>,
                        bRoutes: Routes) {
    forall x :: !(Owns(aProviders, aRoutes, x) && Owns(bProviders, bRoutes, x))
  }

  /** The old adapters of the transfers are the ones a provider table holds under their names. */
  ghost predicate Holding(providers: map<Name, Instance>, transfers: seq<Transfer>) {
    forall i :: 0 <= i < |transfers| ==>
      transfers[i].name in providers && providers[transfers[i].name] == transfers[i].previous
  }

  ghost predicate DistinctNames(transfers: seq<Transfer>) {
    forall i, j :: 0 <= i < j < |transfers| ==> transfers[i].name != transfers[j].name
  }

  /** `create_task` for each key in turn, replacing a finished task under the same key. */
  method StartTasks(tasks: map<TaskKey, Task>, keys: set<TaskKey>, serial: nat) returns (started: map<TaskKey, Task>)
    ensures started == tasks + NewTasks(keys, serial)
  {
    started := tasks;
    var pending := keys;
    while pending != {}
      invariant pending <= keys && started == tasks + NewTasks(keys - pending, serial)
      decreases pending
    {
      var key :| key in pending;
      started := started[key := Task(key, serial)];
      pending := pending - {key};
    }
    assert keys - {} == keys;
  }

  function NewTasks(keys: set<TaskKey>, serial: nat): map<TaskKey, Task> {
    map key | key in keys :: Task(key, serial)
  }

  function StreamKeys(names: set<Name>): set<TaskKey> {
    set name | name in names :: Stream(name)
  }
}
