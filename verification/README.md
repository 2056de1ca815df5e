# QuickPrice: a verified model of its hard state

QuickPrice serves market quotes from a long-running process. This project models, in Dafny, the parts of it
whose state is hardest to keep right, and proves what they keep over every input and every run:

- **History cache** (`PriceBars`, `SymbolGraph`, `HistoryModel`, `HistoryRuns`, `CrossHistory`, `Analytics`,
  `StoredBars`, `Upkeep`, `HistoryCache`, `QuoteRebuild`, `QuoteRuns`). Three sorted rings per symbol, virtual
  synthetic histories and a minute-local cache of rolling references. The cache is a class whose methods are proved
  against a state specification; the lemmas about that specification say when cached references are exact, and that
  runs of the service, which drops a quote older than the last one, keep them exact for every symbol with its own
  rings.
- **Collector handover** (`Reconciliation`, `Coordinator`). A running collector is moved to a new provider
  graph without reopening unaffected streams, and the move can be taken back.
- **Catalog** (`Catalog`, `Registry`, `CatalogMigration`, `ManagedCatalog`, `CatalogEdits`, `CatalogAcceptance`,
  `CatalogStore`). Generation validation with its memoised depth search, the registry's cycle search, the migration
  of persisted built-in instruments, and the file store with its administrator operations and its transition lease.
- **Activation** (`Activation`). The transaction over the catalog file, the runtime pointer and the collector.
  A script says where a step fails or is cancelled; the theorem covers every script.
- **Credit admission** (`CreditBudget`), **token bucket** (`TokenBucket`), **batching** (`Batching`),
  **history paging** (`Paging`), **quote scheduling** (`Scheduler`) and the **managed environment file**
  (`EnvFile`).

Times are whole microseconds in the history modules and reals elsewhere. A revision is a digest of content and
is modelled by the content itself. Every method of a store or a cache is one step under its lock, and every
`await` of the activation is a point at which other writers may try.

## Where the code does less than it seems to

Each of these is stated as a lemma with the exact condition, or with a concrete input.

- A cached hour reference can be wrong for the rest of its minute after a point that comes late. Published quotes
  are compared with the last one and cannot do this to a symbol with its own rings
  (`QuoteRuns.PublishedChangesAreExact`); the warm prices of an activation are added without that comparison and can
  (`HistoryRuns.EntryStaysFreshIff`, `HistoryRuns.AddLeavesEntryFreshIff`, `HistoryRuns.StaleEntryExample`).
- A failing activation leaves the moved catalog file behind exactly when its write broke after the file was
  replaced, or when the restoring write broke before it (`Activation.FailureUndoneIff`).
- The handler marks whatever the restored file holds as live. When that is not what ran before, as after a torn
  activation, the marker names a generation that never ran, and the administrator is no longer told that a restart is
  needed (`src/quickprice/service.py:820-825`, `src/quickprice/managed_config.py:1117`;
  `Activation.FailureUndoneIff`, `Activation.TornThenFailing`).
- When the cleanup after the commit fails and is cancelled, or is cancelled twice, the handler takes the runtime
  back although the file stays committed. A reconciled collector then keeps working for the new generation, because
  its handover is already final; after a reconnect no collector is left running, because the old one is retired and
  the new one is stopped (`Activation.QuickPriceService.CommitCatalogActivation`, `Activation.Stranded`).
  The comment above that cleanup (`src/quickprice/service.py:703-705`) says it must never roll the catalog
  backward; the model follows the code.
- An operator's chain that equals a chain an earlier release shipped is replaced at the next read
  (`CatalogMigration.ReconciledToItselfIff`).
- A chain that names the Binance staking provider under both its names is accepted and written, and then the
  catalog file can no longer be read (`ManagedCatalog.ReadableIff`, `ManagedCatalog.ClashingUpdateLocksTheFile`).
- Closing a graph reaches only routed adapters; one that sits in the provider table without a route is never
  closed (`Coordinator.InUseXorClosed`).
- A token bucket whose refill takes longer than the idle time gives tokens away: with the default bounds, exactly
  when the burst exceeds ten minutes' requests, such as a burst of 11 at one request a minute. The stated wait is
  enough only if the capacity is at least one token (`TokenBucket.DecidesLikeLedgerIff`,
  `TokenBucket.DefaultLimiterIff`, `TokenBucket.RetryAfterIsEnough`).
- Paging can lose a bar exactly when the range starts off the bar grid and the first bar position behind the first
  window of 5000 bars lies in the range (`Paging.HistoryIsCompleteIff`). A window whose page is empty, or reaches the
  last bar position of the window, moves the cursor past the next position, which is never asked for, and leaves it
  off the grid; the first other page puts it back on the grid for good (`Paging.SkippedIff`, `Paging.KeepsOffIff`,
  `Paging.OffGridCompleteIff`, `Paging.OffGridBarIsLost`). A fresh backfill of 45 days of five-minute bars, which
  starts at an arbitrary instant, is such a range.
- The provider key store accepts keys that hold a line separator other than a line feed or a carriage return, or an
  edge blank; exactly those are not read back (`EnvFile.KeysReadBackIff`).

## Layout

One module a file, one file a component, named as the module; `Basics` holds the few types all of them
share. `dafny verify dfyconfig.toml` checks all of it.

## Model

| member | source | states |
|---|---|---|
| `PriceBars.SortedIsTheRing` | src/quickprice/cache.py:133-137 | listing a bar map by time gives a strictly increasing ring with exactly those bars |
| `PriceBars.RingIsSorted` | src/quickprice/cache.py:133-137 | and the other way round: listing the bars of a ring by time gives the ring back |
| `PriceBars.SortByTimeKeepsBars` | src/quickprice/collectors.py:82-83 | the stable sort by time keeps, for each timestamp, the last point of the input |
| `SymbolGraph.RankedAfterSetting` | src/quickprice/cache.py:358-379 | giving a symbol inputs none of which reaches it keeps the dependency graph free of cycles |
| `HistoryModel.DerivedPrefix` | src/quickprice/cache.py:433-489 | a derived history up to a cutoff depends only on the inputs up to that cutoff |
| `HistoryRuns.ReferenceFromPrefixes` | src/quickprice/cache.py:412-489 | two caches that agree on the rings a symbol reads up to their cutoffs select the same reference |
| `HistoryRuns.EntrySurvives` | src/quickprice/cache.py:387-401 | a surviving entry stays exact when no ring it reads changed at or before its latest cutoff |
| `HistoryRuns.AddIsCoherent` | src/quickprice/cache.py:139-162 | adding a point that is at or before the reference hour, or whose five-minute bucket starts after it, leaves every surviving entry exact, synthetic dependents included |
| `HistoryRuns.LoadIsCoherent` | src/quickprice/cache.py:164-234 | a bulk load leaves every surviving reference entry exact |
| `HistoryRuns.PruneIsCoherent` | src/quickprice/cache.py:248-284 | expiring points leaves every surviving reference entry exact |
| `HistoryRuns.RetainIsCoherent` | src/quickprice/cache.py:286-323 | dropping inactive symbols leaves every surviving reference entry exact |
| `HistoryRuns.RegisterIsCoherent` | src/quickprice/cache.py:339-385 | registering a recipe leaves every surviving reference entry exact |
| `HistoryRuns.SafeRunIsCoherent` | src/quickprice/cache.py:387-515 | over every run of safe calls each cached entry answers its whole minute like a fresh lookup |
| `HistoryRuns.CachedReferencesAreExact` | src/quickprice/cache.py:491-515 | the references handed out after any safe run, cached or not, are those a full lookup at the caller's instant selects |
| `HistoryRuns.RecipesStayAcyclic` | src/quickprice/cache.py:358-385 | no run of any calls ever closes a dependency cycle among the recipes |
| `HistoryRuns.EntryStaysFreshIff` | src/quickprice/cache.py:139-162 | exact condition for plain and synthetic symbols: the entry that outlives an intraday point is still right for its whole minute and all six windows if and only if one hour lookup, at the start of that minute, finds the same with and without the point |
| `HistoryRuns.AddLeavesEntryFreshIff` | src/quickprice/cache.py:139-162 | for a plain symbol that lookup is spelled out: the entry is still right if and only if the point does not open, before the cutoff, the bucket the hour lookup stops at |
| `HistoryRuns.StaleEntryExample` | src/quickprice/service.py:482-503 | a concrete whole-minute point, as the warm prices of an activation bring it, after which the cached hour reference is wrong for the rest of the minute |
| `StoredBars.LoadPrefersExistingThenNewest` | src/quickprice/cache.py:164-234 | a loaded ring holds per bucket the existing point, otherwise a bar with symbol, price, provider and derived flag of the newest incoming point, of equal ones the last given, and nothing else |
| `StoredBars.AddIs` | src/quickprice/cache.py:118-162 | each ring a point enters holds at the start of its bucket a bar with the point's own symbol, price, provider and derived flag and the ring's interval; every other bar is the old one or expired, every other ring as before |
| `StoredBars.LoadIs` | src/quickprice/cache.py:164-234 | after a backfill each ring of a named symbol holds exactly its old buckets and those a point falls into, within the retention of the newest of all three rings |
| `StoredBars.BarsAreBrought` | src/quickprice/cache.py:118-385 | over every run of all six calls each bar stood there at the start or has the price and origin of a point some call brought for that symbol and bucket |
| `StoredBars.AddsFill` | src/quickprice/service.py:489-503 | points added one after the other leave in each bucket a bar of the last of them that fell into it, otherwise what was there, unless a point added later made it too old |
| `StoredBars.SuccessAdvances` | src/quickprice/service.py:753-758 | a completed activation keeps the new closure and nothing else; each warm price has its bar, and a symbol the archive held nothing of has otherwise the bars it would have without the attempt |
| `HistoryRuns.RunsAgree` | src/quickprice/cache.py:139-385 | two caches with the same recipes that differ only in the rings of some symbols keep differing only there, under every run of all six calls |
| `HistoryRuns.FailedActivationKeepsHistory` | src/quickprice/service.py:766-777 | after a failed activation, whatever others added, loaded, pruned or registered meanwhile, each symbol of the previous closure has the rings it would have without the attempt unless the archive held points of that symbol, and nothing else is left |
| `CrossHistory.DeriveCrossHistory` | src/quickprice/collectors.py:71-113 | strictly increasing, and a point is in it if and only if the last left point of its timestamp that yields anything yields it: the price the operation makes of that point and the last right point at or before it, positive and within the skew |
| `CrossHistory.ScanBackward` | src/quickprice/cache.py:459-488 | the two-pointer scan returns what the newest eligible left point yields that yields anything: left price times or over the price of the last right point at or before it; none exactly when no left point does |
| `CrossHistory.ScanInverse` | src/quickprice/cache.py:441-457 | the one-input scan returns one over the price of the newest eligible point for which that is a price, and none exactly when there is no such point |
| `CrossHistory.ScanMatchesJoin` | src/quickprice/cache.py:427-489 | the lazy scan returns exactly the last element at or before the cutoff of the materialised join on the same rings |
| `CrossHistory.JoinOfRing` | src/quickprice/collectors.py:86-112 | on a ring the join is the pointwise derived history |
| `Analytics.CalculateChanges` | src/quickprice/analytics.py:29-49 | a window has no change exactly when no point is at or before its cutoff; otherwise price and time of the last such point, and the percentage that leads from that price to the current one |
| `Analytics.CalculateChangesFromReferences` | src/quickprice/analytics.py:52-71 | the same from preselected references, none exactly when the reference is missing |
| `Analytics.LastAtOrBefore` | src/quickprice/cache.py:403-410 | the backward search finds the latest point at or before the cutoff of sorted points |
| `Analytics.NoCopyLookup` | src/quickprice/cache.py:412-425 | looking into the three rings in turn finds the last merged point at or before the cutoff |
| `Analytics.LatestOverlay` | src/quickprice/cache.py:325-337 | overlaying a newer ring on an older one: the latest point comes from the newer ring when it has one |
| `Analytics.ReferencesGiveFullChanges` | src/quickprice/cache.py:412-424 | for a plain symbol the six references looked up afresh are the last points of the merged history at or before the cutoffs |
| `HistoryCache.UpsertBucket` | src/quickprice/cache.py:119-137 | append, tail replacement and rebuild are all a map insert at the bucket, and the ring stays strictly increasing |
| `HistoryCache.PruneRing` | src/quickprice/cache.py:248-261 | exactly the points before the cutoff leave the ring, and their number is returned |
| `HistoryCache.HistoryCache.Add` | src/quickprice/cache.py:139-162 | inserts the point with its own price and origin into the rings it feeds, trims the symbol and drops affected references; an unsupported interval changes nothing |
| `HistoryCache.HistoryCache.Load` | src/quickprice/cache.py:164-234 | merges the backfill into the rings of the named symbols, existing points first and then the newest with its own price, or changes nothing when any interval is unsupported |
| `HistoryCache.HistoryCache.Prune` | src/quickprice/cache.py:278-284 | every ring is trimmed to its retention and the number of removed points is what the rings lost |
| `HistoryCache.HistoryCache.RegisterSyntheticHistory` | src/quickprice/cache.py:339-385 | the reverse index stays the exact inverse of the recipes; a recipe that would close a cycle is refused and changes nothing |
| `HistoryCache.HistoryCache.RetainSymbols` | src/quickprice/cache.py:286-323 | exactly the transitive closure of the requested symbols is kept, rings unchanged, and the count of removed points is exact |
| `HistoryCache.HistoryCache.Points` | src/quickprice/cache.py:325-337 | the merged history is the daily bars before the five-minute ring, then those before the one-minute ring, then that ring |
| `HistoryCache.HistoryCache.ReferenceAt` | src/quickprice/cache.py:412-489 | the finest interval that has anything decides: the last bar at or before the cutoff, or for a virtual history what its inputs' rings yield there |
| `HistoryCache.HistoryCache.ChangeReferences` | src/quickprice/cache.py:491-515 | a hit within the same minute returns the entry, a miss selects and stores all six references |
| `HistoryCache.HistoryCache.InvalidateReferences` | src/quickprice/cache.py:387-401 | exactly the entries of the symbol and of its transitive dependents that the timestamp can affect are dropped |
| `Upkeep.PruneIs` | src/quickprice/cache.py:248-284 | expiry keeps exactly the bars within the retention of their ring, and of the cached references exactly those that rest on no ring that lost a bar |
| `Upkeep.RegisterIs` | src/quickprice/cache.py:358-385 | a registered symbol has its recipe, no ring of its own and no cached reference that rests on it; everything else is as before |
| `Upkeep.RetainIs` | src/quickprice/cache.py:286-323 | what a requested symbol depends on keeps its rings, recipe and references; every other symbol loses its rings and its recipe |
| `Upkeep.AddKeepsEntries` | src/quickprice/cache.py:139-162 | a cached reference survives a point exactly when it does not rest on its symbol, or the point lies behind the reference's hour and makes no bar expire |
| `Upkeep.LoadKeepsEntries` | src/quickprice/cache.py:164-234 | a bulk load drops exactly the cached references that rest on a symbol it brings points of |
| `HistoryCache.InputsReach` | src/quickprice/cache.py:358-370 | the reachability recursion terminates and answers reachability in the recipe graph |
| `HistoryCache.TransitiveInputs` | src/quickprice/cache.py:289-301 | the worklist ends with exactly the symbols reachable from the requested ones |
| `QuoteRuns.ArrivalIs` | src/quickprice/service.py:1283-1303 | an older quote than the last changes nothing; any other becomes the last quote and, with its own price, the bar of its minute |
| `QuoteRuns.AcceptedIsCurrent` | src/quickprice/service.py:1283-1302 | a quote no older than the last one leaves every cached entry of a symbol with its own rings exact |
| `QuoteRuns.StepIsCurrent` | src/quickprice/service.py:1230-1310 | so does every event: a quote in or out of order, a backfill, a rebuild, expiry, a retention, a registration |
| `QuoteRuns.NothingIsCurrent` | src/quickprice/cache.py:104-111 | a service starts with nothing, which is current |
| `QuoteRuns.RunIsCurrent` | src/quickprice/service.py:1230-1310 | over every run of them, whatever the order of the quotes |
| `QuoteRuns.PublishedChangesAreExact` | src/quickprice/service.py:1637-1648 | the references behind every published change of a symbol with its own rings are those a full lookup selects at the instant of its quote, after any run, with no condition on the quotes |
| `QuoteRebuild.RebuildChanges` | src/quickprice/service.py:1637-1648 | each window's percentage leads from its reference to the price: without additional points the reference looked up afresh, which for a plain symbol is the last one of the whole merged history; with them the last one over both |
| `TokenBucket.TokenBucketLimiter.Consume` | src/quickprice/auth.py:62-86 | state and decision are those of one request on the model: idle eviction, room, refill, admission or the time to wait |
| `TokenBucket.RateBound` | src/quickprice/auth.py:79-84 | any stretch of calls admits at most capacity plus rate times its length per identity |
| `TokenBucket.BoundedDecidesLikeLedger` | src/quickprice/auth.py:62-86 | on runs without eviction for room the bounded limiter decides like one that never evicts, given that a bucket refills within the idle time |
| `TokenBucket.BoundedRateBound` | src/quickprice/auth.py:62-86 | the same bound for the bounded limiter itself |
| `TokenBucket.NewLimiterRateBound` | src/quickprice/auth.py:62-86 | the same bound over every run of a new limiter with at most as many identities as it keeps |
| `TokenBucket.RejectedCallsAreFree` | src/quickprice/auth.py:79-86 | leaving out a rejected call changes no later decision, waiting times included |
| `TokenBucket.WaitIsTight` | src/quickprice/auth.py:85-86 | the stated wait is longer than the time to the next whole token and at most a second longer |
| `TokenBucket.RetryAfterIsEnough` | src/quickprice/auth.py:82-86 | a retry after the stated wait, with no admission in between, succeeds if and only if the capacity is at least one token |
| `TokenBucket.FewIdentitiesAlwaysRoom` | src/quickprice/auth.py:72-76 | runs over no more identities than the bound never evict for room |
| `TokenBucket.ForgottenIff` | src/quickprice/auth.py:65-78 | a request makes the limiter forget exactly the identities idle too long and, when a new caller finds it full, of the others the one heard from the longest time ago; no other bucket but the caller's changes |
| `TokenBucket.RunsKeepUseOrder` | src/quickprice/auth.py:65-78 | over every run in time order, evictions included, the identities stand in the order of their last request |
| `TokenBucket.DecidesLikeLedgerIff` | src/quickprice/auth.py:62-86 | exact condition: a new limiter decides like one that drops no bucket, on every run in order with room, if and only if the idle time refills the capacity |
| `TokenBucket.ShortIdleTimeGivesTokensAway` | src/quickprice/auth.py:65-78 | for every limiter whose idle time does not refill the capacity there is a run of two bursts on which it admits what the ledger rejects |
| `TokenBucket.DefaultLimiterIff` | src/quickprice/auth.py:45-60 | with the default bounds the condition is a burst of at most ten minutes' requests |
| `Reconciliation.SubstitutionUndoneIff` | src/quickprice/providers/router.py:156-162 | substituting an adapter is undone by its reverse exactly when it did not merge two adapters |
| `Reconciliation.MovedThereAndBack` | src/quickprice/collectors.py:375-385 | the candidate's own adapters survive the round trip through the live ones |
| `Reconciliation.RoutesThereAndBack` | src/quickprice/collectors.py:375-385 | the candidate's chains get their own adapters back |
| `Reconciliation.ProvidersThereAndBack` | src/quickprice/collectors.py:375-385 | the candidate's provider table gets its own adapters back |
| `Reconciliation.MovedTo` | src/quickprice/providers/router.py:156-162 | a moved adapter is itself and no replacement, or the live partner of a replacement |
| `Reconciliation.ProviderGraph.ReplaceProviderInstance` | src/quickprice/providers/router.py:156-162 | every chain has the old adapter replaced, all else unchanged |
| `Reconciliation.ProviderGraph.Close` | src/quickprice/providers/router.py:637-666 | each routed adapter that is not excluded is closed exactly once, unrouted ones never |
| `Reconciliation.ReplaceTransferredProviders` | src/quickprice/collectors.py:375-385 | chains and table are those with every transfer applied in turn |
| `Coordinator.Coordinator.TransferableProviderPairs` | src/quickprice/collectors.py:318-332 | exactly the reusable names both graphs have and whose live adapter is not bound to the old router |
| `Coordinator.Coordinator.CancelComponentTasks` | src/quickprice/collectors.py:350-362 | exactly the selected components are cancelled and forgotten, with their subscriptions |
| `Coordinator.Coordinator.ReconcileGeneration` | src/quickprice/collectors.py:451-586 | without a token target, running streams and both graphs are as before; with one the whole new target is installed and the running streams are those the new graph wants; unaffected streams keep their uncancelled tasks either way |
| `Coordinator.Coordinator.RollbackReconciliation` | src/quickprice/collectors.py:588-627 | registry, generation, graph, policies, checkpoints and schedules are the recorded ones, the recorded streams run again and retained tasks are never cancelled; a finalized handover is refused and nothing changes |
| `Coordinator.Coordinator.ReconcileAndRollBack` | src/quickprice/collectors.py:451-627 | a handover followed by its rollback is the identity on the collector and on the candidate graph, whatever happened to the schedules in between |
| `Coordinator.DueTimesSurviveIff` | src/quickprice/collectors.py:400-449 | a quote, metadata or history due time survives a handover, unchanged, if and only if both registries schedule the symbol alike and every adapter of its chain moves over to the place the candidate's own chain has for it |
| `Coordinator.ChainSurvivesIff` | src/quickprice/collectors.py:387-398 | a live chain and the candidate's chain after the substitutions are the same exactly when place by place a transfer joins the two adapters |
| `Coordinator.SightingsAndCheckpointsKept` | src/quickprice/collectors.py:549-559 | a stream sighting is kept exactly when the registry keeps its symbol and both the old and the new graph hold its adapter; the running collector's checkpoints win over the candidate's |
| `Coordinator.Coordinator.FinalizeReconciliation` | src/quickprice/collectors.py:656-667 | exactly the retired adapters are closed, each once, and a second call closes nothing |
| `Coordinator.InUseXorClosed` | src/quickprice/collectors.py:642-667 | after a committed handover no adapter is both in use and closed, and one that is neither sat in the old table without a route |
| `Coordinator.StreamsWhatItHeads` | src/quickprice/collectors.py:1176-1190 | an adapter streams exactly the symbols it declares and whose quote chain it heads |
| `Coordinator.OneStreamPerSymbol` | src/quickprice/collectors.py:861-865 | no symbol is subscribed on two adapters |
| `Coordinator.Coordinator.AdoptGeneration` | src/quickprice/collectors.py:292-306 | a running collector takes the registry and hands back the previous one, a stopped one refuses and is unchanged |
| `Coordinator.Coordinator.Stop` | src/quickprice/collectors.py:748-767 | an owned graph is closed, each routed adapter, and never a handed-over one |
| `Coordinator.StreamsRestored` | src/quickprice/collectors.py:364-373 | retained streams and the restarted rest are the previous streams again |
| `Coordinator.WantedIsRunning` | src/quickprice/collectors.py:562-572 | retained streams already are what the new graph wants, so with the started rest exactly those run |
| `Catalog.DepthSearch.Depth` | src/quickprice/catalog.py:531-547 | the memoised search returns the length of the longest dependency chain, or fails only on a cycle or a chain of more than four |
| `Catalog.ValidateDepth` | src/quickprice/catalog.py:528-550 | the search over all recipes succeeds exactly when no chain has more than four synthetics |
| `Catalog.ShallowIff` | src/quickprice/catalog.py:528-550 | no chain beyond the limit is the same as no cycle and only short chains |
| `Catalog.ValidateIdentities` | src/quickprice/catalog.py:494-510 | passes exactly when identifiers are distinct and no name occurs twice among all symbols and aliases |
| `Catalog.ValidateGeneration` | src/quickprice/catalog.py:488-551 | a generation passes exactly when it is non-empty, identities are unique, customs are within the limit, inputs are active, and dependencies are acyclic and at most four deep |
| `Catalog.InputsAvailableIff` | src/quickprice/catalog.py:511-526 | inputs are available exactly when every input of an active synthetic is the symbol of an active instrument |
| `Catalog.GraphOfRecipes` | src/quickprice/catalog.py:528-550 | the dependency graph has an edge exactly for each input of an active synthetic |
| `Catalog.CustomCountIs` | src/quickprice/catalog.py:505-506 | the customs are counted by place |
| `Catalog.AdmissibleIffValid` | src/quickprice/catalog.py:488-551 | the bounded form used by the store agrees with the definition of a valid generation |
| `Registry.Build` | src/quickprice/registry.py:68-79 | construction fails exactly when a symbol or alias is declared twice, otherwise both tables hold exactly what is declared |
| `Registry.ResolvesToDeclarer` | src/quickprice/registry.py:191-198 | a name resolves to the one instrument that declares it and otherwise to nothing |
| `Registry.CycleSearch.Visit` | src/quickprice/registry.py:104-117 | settled symbols only depend on symbols settled before them, and a cycle is reported only when there is one |
| `Registry.HasCycle` | src/quickprice/registry.py:101-117 | recipes are rejected exactly when they depend on each other in a cycle |
| `CatalogMigration.RenamedIsNoPriorDefault` | src/quickprice/managed_config.py:568-593 | renaming a provider never produces a chain that a release would replace |
| `CatalogMigration.RouteSettles` | src/quickprice/managed_config.py:596-619 | reconciling a route a second time changes nothing |
| `CatalogMigration.MergedIsSameIff` | src/quickprice/managed_config.py:811-833 | a merge keeps a built-in as it is exactly when none of its settings is one a release overrides |
| `CatalogMigration.ReconcileSettles` | src/quickprice/managed_config.py:794-838 | the migration is idempotent, order included, and yields a valid generation of exactly the shipped built-ins with their shipped core |
| `CatalogMigration.ReconciledToItselfIff` | src/quickprice/managed_config.py:794-838 | exact condition: what an operator stored survives the next read unchanged if and only if no built-in uses a prior default chain, a renamed provider or a cleared poll interval |
| `CatalogMigration.OperatorSettingsSurvive` | src/quickprice/managed_config.py:801-834 | customs are kept in place, built-ins keep switch, intervals and history settings |
| `CatalogMigration.MigrationIs` | src/quickprice/managed_config.py:794-838 | the whole migration: customs as they are, each built-in the shipped one under the operator's switch, intervals, history settings and chains, and behind them exactly the shipped instruments the list does not have |
| `CatalogEdits.ApplyWrites` | src/quickprice/managed_config.py:1150-1444 | every accepted edit writes exactly what it says on the draft, which is the active generation while nothing is staged: the created item at the end, the named fields of the named item, the archived item switched off, the last import of each identifier, the policy on exactly the named symbols; draft edits leave active and last-known-good alone |
| `CatalogEdits.EditLeaves` | src/quickprice/managed_config.py:1236-1237 | what an edit does not name stays in the draft as it was |
| `CatalogEdits.SameCoreIff` | src/quickprice/managed_config.py:558-566 | of a built-in only switch, intervals, history settings and routes may differ from the shipped one |
| `CatalogEdits.KeptItemsAreValid` | src/quickprice/catalog.py:294-351 | every item of a kept document meets the rules for one definition, and every built-in has a shipped one with its core |
| `CatalogAcceptance.AcceptedIff` | src/quickprice/managed_config.py:1150-1444 | exact condition: an edit is accepted if and only if some document it may write holds valid generations of exactly the shipped built-ins, its policies name installed symbols and its imports are valid by themselves |
| `CatalogAcceptance.AdmissibleByContents` | src/quickprice/catalog.py:489-551 | whether a generation is admissible depends on its instruments and not on their order |
| `CatalogAcceptance.NamesOnceIff` | src/quickprice/catalog.py:503-510 | no name is declared twice exactly when no instrument repeats one and no two share one |
| `CatalogStore.EditWrites` | src/quickprice/managed_config.py:976-987 | an accepted edit writes what it says on the document that was read |
| `CatalogStore.TwoUpdatesSurvive` | src/quickprice/managed_config.py:1291-1319 | two updates of different custom instruments through the file, one after the other, both survive in the draft |
| `ManagedCatalog.PolicyIsRead` | src/quickprice/managed_config.py:637-682 | a version 1 policy reads as the installed instruments in order, switched and timed as it says |
| `ManagedCatalog.LoadSettles` | src/quickprice/managed_config.py:863-888 | whatever is read is kept and settled: writing it once and loading again needs no write |
| `ManagedCatalog.ApplyKeeps` | src/quickprice/managed_config.py:1150-1444 | every administrator operation keeps exactly the shipped built-ins with their shipped core in active, staged and last-known-good |
| `ManagedCatalog.UpdatedKeeps` | src/quickprice/managed_config.py:1291-1319 | an update keeps the built-ins |
| `ManagedCatalog.ArchivedKeeps` | src/quickprice/managed_config.py:1321-1346 | archiving keeps the built-ins |
| `ManagedCatalog.ReplacedStagedKeeps` | src/quickprice/managed_config.py:1348-1371 | a replaced draft keeps the built-ins |
| `ManagedCatalog.ImportedKeeps` | src/quickprice/managed_config.py:1373-1444 | an import in either mode keeps the built-ins |
| `ManagedCatalog.PatchedKeeps` | src/quickprice/managed_config.py:1191-1234 | the installed-instrument policy keeps the built-ins |
| `ManagedCatalog.MergeImport` | src/quickprice/managed_config.py:1428-1442 | all imported items are merged by identifier in order, or the import is refused |
| `ManagedCatalog.ReadableIff` | src/quickprice/managed_config.py:863-888 | exact condition: a document the store wrote can be read back if and only if no built-in chain names a provider under both its names |
| `ManagedCatalog.ClashingUpdateLocksTheFile` | src/quickprice/managed_config.py:1291-1319 | an update every check accepts after which the file can no longer be read |
| `ManagedCatalog.FirstDocumentCanBeLocked` | src/quickprice/managed_config.py:1291-1319 | it takes no more than one shipped instrument and the document of a first start |
| `CatalogStore.EditKeepsBuiltins` | src/quickprice/managed_config.py:976-987 | an edit leaves the file as it was or writes only the shipped built-ins with their shipped core |
| `CatalogStore.EditsKeepBuiltins` | src/quickprice/managed_config.py:1150-1444 | no sequence of edits, activations and rollbacks ever writes anything else |
| `CatalogStore.TwoRollbacksRestore` | src/quickprice/managed_config.py:1507-1524 | two rollbacks restore the active and the last-known-good generation |
| `CatalogStore.MoveReadsBack` | src/quickprice/managed_config.py:1482-1524 | a transition writes a file that reads back, whose active generation is the target and whose last-known-good is the previous one |
| `CatalogStore.InstrumentPolicyStore.PersistMigration` | src/quickprice/managed_config.py:944-968 | the migrated document is written once and only without a lease |
| `CatalogStore.InstrumentPolicyStore.AdminEdit` | src/quickprice/managed_config.py:976-987 | under compare-and-swap an accepted edit writes what it says on the draft that was read, a refused one and any edit under a lease nothing; it refuses exactly the edits that have no permitted outcome within the rules |
| `CatalogStore.InstrumentPolicyStore.CaptureTransition` | src/quickprice/managed_config.py:989-1003 | a lease is handed out exactly when none is held and the file is the expected one |
| `CatalogStore.InstrumentPolicyStore.CommitTransition` | src/quickprice/managed_config.py:1014-1021 | the lease is released exactly by its holder on the expected file |
| `CatalogStore.InstrumentPolicyStore.AbortTransition` | src/quickprice/managed_config.py:1023-1028 | the lease is released by its holder and by nobody else |
| `CatalogStore.InstrumentPolicyStore.RestoreTransition` | src/quickprice/managed_config.py:1030-1049 | the captured bytes go back and the lease is released, under compare-and-swap |
| `CatalogStore.InstrumentPolicyStore.Move` | src/quickprice/managed_config.py:1482-1524 | active moves to the staged or the last-known-good generation under compare-and-swap and lease |
| `CatalogStore.InstrumentPolicyStore.MarkRuntimeApplied` | src/quickprice/managed_config.py:1138-1148 | a revision is recorded as live exactly when it is still the file's |
| `Activation.OthersTry` | src/quickprice/managed_config.py:976-987 | other writers change nothing while the lease is held |
| `Activation.MoveFile` | src/quickprice/service.py:572-647 | file, marker and lease after the first half of the transaction, for every failure; it goes on exactly when every file step succeeded |
| `Activation.RestoreFile` | src/quickprice/service.py:811-839 | the lease ends free, the captured bytes go back unless the restoring write breaks, and the marker is what the restored file holds, or a late one, or as it was |
| `Activation.RolledBackIsRestored` | src/quickprice/service.py:573-839 | what the guarded block and the handler do to the file together, for every script: lease free, bytes captured or moved, and the marker the active generation of the restored file if that could be marked, else the target if that had been marked, else as before |
| `Activation.FailureUndoneIff` | src/quickprice/service.py:811-839 | exact condition: a failed activation leaves file, lease and marker as they were if and only if neither write broke on the wrong side, unless the move changes nothing, and the marker named the very generation it is left naming |
| `Activation.TornThenFailing` | src/quickprice/service.py:811-825 | a torn activation leaves a file that asks for a restart; the next one that fails, however cleanly, marks that generation as live although it never ran, and the request for a restart is gone |
| `Activation.TwoGenerationsSuffice` | src/quickprice/managed_config.py:1507-1524 | every readable file whose last-known-good generation differs from the active one can be torn and retried so |
| `Activation.Coordinate` | src/quickprice/service.py:648-662 | the collector adopts or is handed over exactly when it can, then runs for the new generation, and what it had can be given back |
| `Activation.HandTo` | src/quickprice/service.py:655-662 | a handover leaves a running collector on the wanted streams with a token whose rollback gives everything back; a refused one leaves target, graph, streams and untouched tasks, and stops the collector only when it was stopped meanwhile |
| `Activation.QuickPriceService.PublishAndCommit` | src/quickprice/service.py:663-701 | generation, data state and collector become current together; the lease is committed exactly when no check fails |
| `Activation.QuickPriceService.RollBack` | src/quickprice/service.py:766-840 | from any state the guarded block can stop in: pointer back, history cut to the previous closure, file restored, a reused collector exactly and a reconciled one with target, graph, streams and running as before, a separate candidate stopped, closing exactly the adapters its own graph routes |
| `Activation.QuickPriceService.Try` | src/quickprice/service.py:573-701 | the guarded block commits exactly when every step succeeds, and otherwise stops in a state the handler can undo |
| `Activation.QuickPriceService.EscapeAfterCommit` | src/quickprice/service.py:766-809 | an exception after the commit: the pointer goes back, the finalized handover stays, the candidate is stopped and only an owned graph is closed |
| `Activation.QuickPriceService.CommitCatalogActivation` | src/quickprice/service.py:537-840 | all or nothing for every failure script. Completed: file, marker, pointer and history at the target, old publications fenced off, the collector running for the new generation (a reused one otherwise unchanged, a reconciled one on the wanted streams), a replaced one stopped. Raised: pointer, start error and history as before, the live collector as it was, field by field unless reconciled, then with its target, graph, streams and tasks and stopped only if it was stopped under the handover; the candidate stopped, none of the live graph's adapters closed, the file as FileAfterFailure says. It escapes after the commit if and only if something is retired and that cleanup is cancelled and fails or is cancelled twice, and then the file stays committed while a reconciled collector keeps the new target and any other activation is left without a running collector. In each case sound collectors leave a sound live one, so that the next activation can start |
| `Activation.ActivatingChangesTheFile` | src/quickprice/managed_config.py:1482-1505 | activating a draft always changes the file |
| `CreditBudget.Aggregate` | src/quickprice/catalog_runtime.py:281-290 | committed lines are added up by identity |
| `CreditBudget.RetainedCommittedCredits` | src/quickprice/catalog_runtime.py:267-306 | credits eligible for grandfathering are the sums of the common parts per provider and per quota scope |
| `CreditBudget.CommittedIsSum` | src/quickprice/catalog_runtime.py:281-290 | a committed total is the sum of the demands of its identities |
| `CreditBudget.RetainedBounds` | src/quickprice/catalog_runtime.py:291-306 | retained credits never exceed either plan, and reach the candidate's total exactly when nothing grows |
| `CreditBudget.AdmittedIff` | src/quickprice/catalog_runtime.py:664-724 | a demand is admitted if and only if it fits the limit or none of its identities asks for more than the active plan has |
| `CreditBudget.CommitmentStaysBounded` | src/quickprice/catalog_runtime.py:664-724 | over any sequence of admitted plans the commitment stays within the limit or what there was at the start, for providers and for the general scope |
| `CreditBudget.IncrementalBudgetErrors` | src/quickprice/catalog_runtime.py:664-724 | no error exactly when the daily limit of every provider, and what the foreign-exchange reserve leaves of the Twelve Data credits, admit the candidate |
| `Batching.GreedyIsPartition` | src/quickprice/providers/coingecko.py:60-77 | the batches are the input in order, none empty, each within both limits |
| `Batching.GreedyIsBest` | src/quickprice/providers/coingecko.py:60-77 | no partition into fitting consecutive groups has fewer of them |
| `Batching.GreedyIff` | src/quickprice/providers/coingecko.py:56-77 | the greedy batches are the one way of cutting the input in which no batch could also take the first item of the next |
| `Batching.JoinedIsLength` | src/quickprice/providers/coingecko.py:60-74 | the length counted for a batch is that of its identifiers written with one separator between neighbours |
| `Batching.SimplePriceIdBatches` | src/quickprice/providers/coingecko.py:49-77 | refused exactly when one identifier alone is too long, otherwise the batches are as full as 250 identifiers and 3500 characters allow |
| `Batching.StreamConnectionBatches` | src/quickprice/providers/binance.py:95-125 | shards as full as 250 streams and 8000 characters allow, or the limit error when there are more than ten |
| `Batching.ShardLimitIff` | src/quickprice/providers/binance.py:118-125 | the limit error comes exactly when no fitting partition has at most ten shards |
| `Paging.PageIs` | src/quickprice/collectors.py:1727-1757 | a page holds exactly the bars from its cursor to the next one, as far as its window goes, wherever the bars lie |
| `Paging.PageGains` | src/quickprice/collectors.py:1727-1757 | a page passes as many bar positions as a generous page has or leaves nothing before the last of them, so two pages gain a full one |
| `Paging.CollectedIs` | src/quickprice/collectors.py:1727-1757 | by induction over the pages: a run holds exactly the bars from its cursor up to some instant that it does not pass over between two windows; that instant is the end when the pages suffice |
| `Paging.HistoryIs` | src/quickprice/collectors.py:1709-1762 | from a source whose bars lie on one grid at any offset from the start, a history is a prefix of the range but for the bars it passes over, and reaches the end when the range is shorter than 32 generous pages |
| `Paging.SkippedIff` | src/quickprice/collectors.py:1728-1757 | exactly which bars are passed over from an off-grid start: the one behind the j-th window, for as long as every window so far moved the cursor by a whole window |
| `Paging.KeepsOffIff` | src/quickprice/collectors.py:1740-1756 | a full window does that exactly when its page is empty or reaches the last bar position of the window |
| `Paging.OffGridCompleteIff` | src/quickprice/collectors.py:1709-1762 | exact condition for one source: its range is fetched completely if and only if none of its bars is passed over so |
| `Paging.OffGridBarIsLost` | src/quickprice/collectors.py:1728-1743 | the run that loses a bar: a one-bar history whose bar lies between the first two windows is fetched without it |
| `Paging.HistoryIsCompleteIff` | src/quickprice/collectors.py:1709-1762 | exact condition: over ranges the pages suffice for, every honest source is fetched completely if and only if its bars lie on the grid of the start or the first position behind the first window is past the end |
| `Paging.DailyHistoryIs` | src/quickprice/collectors.py:1745-1748 | a daily range within one window is complete wherever its bars lie |
| `Paging.FetchHistoryPages` | src/quickprice/collectors.py:1709-1762 | the loop returns the history the lemmas are about, sorted and once each, and refuses an unknown interval |
| `Scheduler.StartingKeeps` | src/quickprice/collectors.py:985-991 | starting a poll moves its symbol from the heap to the polls in flight |
| `Scheduler.FinishingKeeps` | src/quickprice/collectors.py:1005-1017 | a finished poll puts its symbol back at its recorded due time |
| `Scheduler.FindLeast` | src/quickprice/collectors.py:986 | the heap's least entry by due time, then order of entry |
| `Scheduler.QuoteScheduler.constructor` | src/quickprice/collectors.py:961-977 | every routed symbol is entered once, at its remembered due time or now |
| `Scheduler.QuoteScheduler.Launch` | src/quickprice/collectors.py:984-991 | due polls are started earliest first until nothing is due or 32 are in flight |
| `Scheduler.QuoteScheduler.Collect` | src/quickprice/collectors.py:1005-1017 | exactly the finished symbols are due again, each after its own interval or a quarter second, whichever is longer |
| `Scheduler.QuoteScheduler.CollectUntilFailure` | src/quickprice/collectors.py:1005-1022 | finished polls are collected in order up to the first that raises; everything else in flight is cancelled |
| `Scheduler.FinishedTooLate` | src/quickprice/collectors.py:1005-1022 | a poll that finished after the failing one is not collected but cancelled |
| `Scheduler.RunScheduler` | src/quickprice/collectors.py:981-1022 | over every run each scheduled symbol is in the heap or in flight, once in all, and a failing poll ends the loop and cancels exactly the other polls in flight |
| `EnvFile.ParseEnv` | src/quickprice/managed_config.py:325-346 | parses exactly the files each line of which is legal, to the settings their lines enter; otherwise the first offending line decides the error |
| `EnvFile.ParsesIff` | src/quickprice/managed_config.py:325-346 | a file parses if and only if each line is blank, a comment, or enters an allowed setting no earlier line has, and then holds exactly the entered settings |
| `EnvFile.ParsedIsClean` | src/quickprice/managed_config.py:325-346 | whatever a file parses to has allowed names and trimmed one-line values |
| `EnvFile.SplitAtBreak` | src/quickprice/managed_config.py:331 | a text is cut at its first line separator, a carriage return with its line feed counting as one |
| `EnvFile.SplitTerminated` | src/quickprice/managed_config.py:331 | splitting undoes joining lines that hold no line separator |
| `EnvFile.AssignmentParses` | src/quickprice/managed_config.py:332-345 | a printed assignment is read back as it was meant |
| `EnvFile.ParseUndoesSerialize` | src/quickprice/managed_config.py:349-356 | parsing what was printed gives the same settings, whatever the order and the comments |
| `EnvFile.ReadsBackIff` | src/quickprice/managed_config.py:325-356 | exact condition: printed settings are read back if and only if every name is allowed and every value is trimmed, on one line and without a zero byte |
| `EnvFile.KeysReadBackIff` | src/quickprice/managed_config.py:523-555 | accepted provider keys are read back if and only if each is trimmed and holds no character that ends a line |
| `EnvFile.PatchChangesOnlyTheNamed` | src/quickprice/managed_config.py:420-445 | a patch of a readable file changes exactly the named settings and keeps all others as they were read |

## Left out

- HistoryRuns.AddLeavesEntryFreshIff: spelled out for symbols with their own rings; for a synthetic dependent the condition of `HistoryRuns.EntryStaysFreshIff` is left as two lookups, because whether an input point shows depends on the recipe's arithmetic.
- Paging.HistoryIs: the range is shorter than 32 generous pages, or a prefix of it is fetched but for the bars passed over; how far a source with shorter pages gets is not stated.
- Registry.Build: names only; the checks of plugin identifiers, versions and route paths before it, and of the text of a name, are not modelled.
- TokenBucket.BoundedDecidesLikeLedger: runs in which an identity is evicted to make room are excluded, because that eviction really forgets spent tokens.
- TokenBucket.DefaultLimiterIff: the limiter computes in floating point and the model in reals; the boundary of this condition, and that of `TokenBucket.RetryAfterIsEnough`, is exact for reals only.
- QuoteRuns.PublishedChangesAreExact: a published quote is one step, as it runs on the event loop without an await; for synthetic symbols, whose inputs are quoted on their own clocks, the condition of `HistoryRuns.SafeRunIsCoherent` remains. The check that a quote is at most a minute ahead of the clock is not part of this model, and the result does not need it.
- Activation.QuickPriceService.CommitCatalogActivation: a second cancellation inside the exception handler is not modelled; between the release of the lease by the restore and the last marker no other writer is given a turn. What others do to the price history is given by a script and takes effect before and after the archive is restored; a cleanup that fails is taken to have run.
- Coordinator.Coordinator.ReconcileGeneration: cancelled components are gone at once; a cancellation while they wind down is the fault `CancelledWhilePreparing`. Quotes waiting to be published are not part of this model.
- CatalogStore.InstrumentPolicyStore.AdminEdit: one method over all administrator operations, which the source has as separate methods with the same guards; the file-size limit is not modelled.
- Scheduler.FindLeast: the heap is a set of entries; the array layout of the standard library's heap is not modelled.
- Decimal prices: arithmetic is a partial operation given to the cache, so rounding and Decimal exceptions appear only as a missing result.
- Price points reject prices outside the range of floating-point numbers; the model's prices are positive reals.
- Field validators of catalog definitions that look at one field (patterns, ranges, text lengths) and the staking and treasury rules; definitions are already typed.
- The removal of one obsolete staking field before version 2 documents are parsed, and the backup of version 1 files.
- The order of CoinGecko identifiers (a sorted set) and the mapping of Binance symbols to stream names: batching starts from the normalised list.
- Reading configuration limits from settings, credit estimation itself, warm-up, binding verification and the job states of the catalog runtime.
- Snapshot store, metadata maps and persistence queues of the runtime data state.
- Provider adapters, HTTP and WebSocket sessions, response parsing and quotas.
- Web routes, dashboard, command line, logging and schemas.
- Passwords, one-time codes, file permissions and process-level file locking.
- Threads and the event loop, other than as atomic steps between awaits or under locks.
