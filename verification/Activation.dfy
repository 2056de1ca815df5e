/**
 Activating a catalog: one transaction over the catalog file, the runtime pointer and the collector,
 with a failure or a cancellation possible at every step, and its rollback.
 */
module Activation {
  import opened Basics
  import opened SymbolGraph
  import opened Reconciliation
  import opened Catalog
  import opened CatalogMigration
  import opened ManagedCatalog
  import opened CatalogStore
  import opened Coordinator
  import HistoryModel
  import HistoryRuns
  import StoredBars

  /** One immutable view of the data plane; its revision is that of its catalog. */
  datatype RuntimeGeneration = RuntimeGeneration(id: nat, catalog: CatalogGeneration, registry: Registry,
                                                 dataState: nat)

  /** Publishes complete generations with one pointer swap. */
  class RuntimeGenerationManager {
    var current: RuntimeGeneration

    constructor (current: RuntimeGeneration)
      ensures this.current == current
    {
      this.current := current;
    }

    /** What a publication made for `id` may write to: nothing once another generation is current. */
    function PublicationContext(id: Option<nat>): Option<RuntimeGeneration>
      reads this
    {
      if id.Some? && id.value != current.id then None else Some(current)
    }

    method Activate(generation: RuntimeGeneration) returns (previous: RuntimeGeneration)
      modifies this
      ensures current == generation && previous == old(current)
    {
      previous := current;
      current := generation;
    }
  }

  datatype Mode = NoCollector | Reuse | Reconcile | Reconnect

  /** What becomes of the wait for the file worker that marks the new revision as live. */
  datatype Mark = Marked | MarkRefused | MarkOrphaned(point: nat)

  datatype Cleanup = Cleaned | CleanupFailed | CancelledButCleaned | CancelledAndFailed | CancelledTwice

  /** Everything outside the service's control during one activation. */
  datatype Script = Script(
    leaseCancelled: bool, prepareFails: bool, startFails: bool, write: WriteFault, moveCancelled: bool,
    verifyFails: bool,
    mark: Mark, handover: HandoverFault, confirmFails: bool, commitFails: bool, cleanup: Cleanup,
    restore: WriteFault, remarkFails: bool, others: seq<(Edit, Content)>, traffic: HistoryRuns.Traffic)

  /** How far the file steps have come: what the rollback looks at, and whether the worker that marks was started. */
  datatype Progress = Progress(token: Option<Token>, snapshot: Option<Content>, fileCommitted: bool, marking: bool)

  /** The file, its lease and the revision marked as live. */
  datatype FileView = FileView(content: Content, lease: Option<nat>, marker: Option<CatalogGeneration>)

  function FileOf(store: InstrumentPolicyStore): FileView
    reads store
  {
    FileView(store.content, store.transitionId, store.runtimeActiveRevision)
  }

  /** The file an operation makes of `content`; none when the operation is refused. */
  function MovedContent(content: Content, operation: Operation, baseline: seq<Definition>): Option<Content> {
    var loaded := Load(content, baseline);
    if loaded == None then None
    else
      var next := Apply(loaded.value.document, EditOf(operation), baseline);
      if next == None then None else Some(Encoded(next.value, 0))
  }

  function ActiveOf(content: Content, baseline: seq<Definition>): Option<CatalogGeneration> {
    var loaded := Load(content, baseline);
    if loaded == None then None else Some(loaded.value.document.active)
  }

  /** The file operation is reached when nothing failed before it. */
  predicate ReachesMove(script: Script, mode: Mode) {
    !script.leaseCancelled && !script.prepareFails && !(mode == Reconnect && script.startFails)
  }

  /** The file was replaced but the transaction never learnt of it. */
  predicate Torn(script: Script, mode: Mode, content: Content, operation: Operation, baseline: seq<Definition>) {
    ReachesMove(script, mode) && MovedContent(content, operation, baseline).Some? && script.write.AfterReplace?
  }

  predicate FileCommitted(script: Script, mode: Mode, content: Content, operation: Operation,
                          baseline: seq<Definition>) {
    ReachesMove(script, mode) && MovedContent(content, operation, baseline).Some? && script.write.NoFault?
  }

  predicate Moves(script: Script, mode: Mode, content: Content, operation: Operation, baseline: seq<Definition>) {
    Torn(script, mode, content, operation, baseline) || FileCommitted(script, mode, content, operation, baseline)
  }

  /** A failing activation leaves the moved file behind exactly when one of its two writes broke on the wrong side. */
  predicate StaysMoved(script: Script, mode: Mode, content: Content, operation: Operation, baseline: seq<Definition>) {
    Torn(script, mode, content, operation, baseline)
    || (FileCommitted(script, mode, content, operation, baseline) && script.restore.BeforeReplace?)
  }

  function MovedIf(moves: bool, content: Content, operation: Operation, baseline: seq<Definition>): Content {
    var moved := MovedContent(content, operation, baseline);
    if moves && moved.Some? then moved.value else content
  }

  /** Nobody else holds a lease and the file is the one the request was made for. */
  predicate LeaseTaken(file: FileView, expected: Content, baseline: seq<Definition>) {
    file.lease == None && file.content == expected && Load(expected, baseline).Some?
  }

  /** The file was moved and the transaction knows it. */
  predicate FileMoved(script: Script, mode: Mode, file: FileView, expected: Content, operation: Operation,
                      baseline: seq<Definition>) {
    LeaseTaken(file, expected, baseline) && FileCommitted(script, mode, expected, operation, baseline)
  }

  /** The moved file is the target, and the worker that marks it as live is started. */
  predicate Marks(script: Script, mode: Mode, file: FileView, expected: Content, operation: Operation,
                  target: CatalogGeneration, baseline: seq<Definition>)
  {
    && FileMoved(script, mode, file, expected, operation, baseline)
    && !script.moveCancelled && !script.verifyFails
    && ActiveOf(MovedContent(expected, operation, baseline).value, baseline) == Some(target)
  }

  /** Every step on the file succeeds. */
  predicate FileGoes(script: Script, mode: Mode, file: FileView, expected: Content, operation: Operation,
                     target: CatalogGeneration, baseline: seq<Definition>)
  {
    Marks(script, mode, file, expected, operation, target, baseline) && script.mark.Marked?
  }

  /** Every step up to the commit succeeds. */
  predicate Goes(script: Script, mode: Mode, file: FileView, expected: Content, operation: Operation,
                 target: CatalogGeneration, baseline: seq<Definition>, collectorGoes: bool)
  {
    && FileGoes(script, mode, file, expected, operation, target, baseline) && collectorGoes
    && !(mode == Reconcile && script.confirmFails) && !script.commitFails
  }

  /**
   What the guarded block does to the file, whether it fails or not; only a commit releases the lease before the
   handler.
   */
  ghost predicate FileTried(script: Script, mode: Mode, operation: Operation, expected: Content,
                            target: CatalogGeneration, before: FileView, after: FileView, p: Progress,
                            baseline: seq<Definition>) {
    && (p.token.Some? <==> LeaseTaken(before, expected, baseline))
    && (p.token == None ==> after == before && !p.fileCommitted)
    && (p.token.Some? ==>
          && p.token.value.content == expected
          && after.content == MovedIf(Moves(script, mode, expected, operation, baseline), expected, operation, baseline)
          && p.fileCommitted == FileCommitted(script, mode, expected, operation, baseline))
    && (p.marking <==> Marks(script, mode, before, expected, operation, target, baseline))
    && after.marker == if p.marking && script.mark.Marked? then Some(target) else before.marker
  }

  /** An orphaned worker that gets to run while the file is the one it was started for. */
  predicate MarksLate(mark: Mark, stillMoved: bool) {
    mark == MarkOrphaned(0) || (stillMoved && mark in {MarkOrphaned(1), MarkOrphaned(2)})
  }

  /** What the exception handler makes of the file it finds. */
  ghost predicate FileRolledBack(script: Script, p: Progress, tried: FileView, after: FileView,
                                 baseline: seq<Definition>) {
    && (p.token == None ==> after.lease == tried.lease && after.content == tried.content)
    && (p.token.Some? ==>
          after.lease == None
          && after.content == if p.fileCommitted && !script.restore.BeforeReplace? then p.token.value.content
               else tried.content)
    && after.marker ==
         if p.fileCommitted && Remarked(script) then ActiveOf(after.content, baseline)
         else if p.marking && MarksLate(script.mark, after.content == tried.content)
           then ActiveOf(tried.content, baseline)
         else tried.marker
  }

  /** The restored revision was marked as live again. */
  predicate Remarked(script: Script) {
    script.restore.NoFault? && !script.remarkFails
  }

  /** The moved revision was marked as live, in time or late, and nothing has marked the restored one since. */
  predicate StaysMarked(script: Script, mode: Mode, operation: Operation, target: CatalogGeneration, before: FileView,
                        baseline: seq<Definition>) {
    && Marks(script, mode, before, before.content, operation, target, baseline)
    && (script.mark.Marked?
        || MarksLate(script.mark, script.restore.BeforeReplace?
                     || MovedContent(before.content, operation, baseline) == Some(before.content)))
  }

  /**
   The file, its lease and its marker after a failed activation, for every script. Without the lease nothing has
   changed. A file torn by its first write stays moved and unmarked. A moved file is the captured one again unless the
   restoring write broke before replacing it; its marker is what the restored file holds if that could be marked, else
   the target if that had been marked, else what it was.
   */
  function FileAfterFailure(script: Script, mode: Mode, operation: Operation, expected: Content,
                            target: CatalogGeneration, before: FileView, baseline: seq<Definition>): FileView
  {
    if !LeaseTaken(before, expected, baseline) then before
    else if Torn(script, mode, expected, operation, baseline)
      then before.(content := MovedContent(expected, operation, baseline).value)
    else if !FileCommitted(script, mode, expected, operation, baseline) then before
    else
      FileView(if script.restore.BeforeReplace? then MovedContent(expected, operation, baseline).value
               else before.content,
               None,
               if Remarked(script) then ActiveOf(before.content, baseline)
               else if StaysMarked(script, mode, operation, target, before, baseline) then Some(target)
               else before.marker)
  }

  /** The guarded block and the handler together. */
  lemma RolledBackIsRestored(script: Script, mode: Mode, operation: Operation, expected: Content,
                             target: CatalogGeneration, before: FileView, tried: FileView, after: FileView, p: Progress,
                             baseline: seq<Definition>)
    requires FileTried(script, mode, operation, expected, target, before, tried, p, baseline)
    requires FileRolledBack(script, p, tried, after, baseline)
    ensures after == FileAfterFailure(script, mode, operation, expected, target, before, baseline)
  {
    hide MovedContent, Load, ActiveOf;
  }

  /**
   Exactly when a failed activation leaves the file, its lease and its marker as they were: neither write broke on the
   wrong side, unless the move changed nothing, and the marker named what it is left naming.
   */
  lemma FailureUndoneIff(script: Script, mode: Mode, operation: Operation, expected: Content, target: CatalogGeneration,
                         before: FileView, baseline: seq<Definition>)
    ensures FileAfterFailure(script, mode, operation, expected, target, before, baseline) == before <==>
      (LeaseTaken(before, expected, baseline) ==>
        && (StaysMoved(script, mode, expected, operation, baseline) ==>
            MovedContent(expected, operation, baseline) == Some(expected))
        && (FileCommitted(script, mode, expected, operation, baseline) ==>
              if Remarked(script) then before.marker == ActiveOf(before.content, baseline)
              else StaysMarked(script, mode, operation, target, before, baseline) ==> before.marker == Some(target)))
  {
    hide MovedContent, Load, ActiveOf;
  }

  /** A committed file is the moved one, and its lease had been taken without a cancellation. */
  lemma CommittedIsMoved(script: Script, mode: Mode, operation: Operation, expected: Content, target: CatalogGeneration,
                         before: FileView, after: FileView, p: Progress, baseline: seq<Definition>)
    requires FileTried(script, mode, operation, expected, target, before, after, p, baseline) && p.fileCommitted
    ensures p.token.Some? && !script.leaseCancelled
      && MovedContent(expected, operation, baseline) == Some(after.content)
  {
    hide MovedContent, Load, ActiveOf;
  }

  /** Only an attempt without a lease is told by the lease. */
  lemma TriedWithoutLease(script: Script, mode: Mode, operation: Operation, expected: Content,
                          target: CatalogGeneration,
                          before: FileView, a: FileView, b: FileView, p: Progress, baseline: seq<Definition>)
    requires FileTried(script, mode, operation, expected, target, before, a, p, baseline)
    requires p.token.Some? && a.content == b.content && a.marker == b.marker
    ensures FileTried(script, mode, operation, expected, target, before, b, p, baseline)
  {
    hide MovedContent, Load, ActiveOf;
  }

  /** The outcome of the first half in terms of what it started from. */
  lemma MovedIsTried(script: Script, mode: Mode, operation: Operation, expected: Content, target: CatalogGeneration,
                     before: FileView, after: FileView, p: Progress, ok: bool, baseline: seq<Definition>)
    requires p.token == None <==>
      before.lease.Some? || Load(before.content, baseline) == None || before.content != expected
    requires p.token == None ==>
      !ok && !p.fileCommitted && after.content == before.content && after.lease == before.lease
    requires p.token.Some? ==>
      && before.content == expected && p.token.value.content == expected
      && p.fileCommitted == FileCommitted(script, mode, expected, operation, baseline)
      && after.content == if Torn(script, mode, expected, operation, baseline)
         || FileCommitted(script, mode, expected, operation, baseline)
                          then MovedContent(expected, operation, baseline).value else expected
    requires p.marking == (p.fileCommitted && !script.moveCancelled && !script.verifyFails
                           && ActiveOf(after.content, baseline) == Some(target))
    requires ok == (p.marking && script.mark.Marked?)
    requires after.marker == if ok then Some(target) else before.marker
    ensures FileTried(script, mode, operation, expected, target, before, after, p, baseline)
    ensures ok == FileGoes(script, mode, before, expected, operation, target, baseline)
  {
    hide MovedContent, Load, ActiveOf;
  }

  // ----- a torn file and the attempt after it

  const QUIET := Script(
    false, false, false, CatalogStore.WriteFault.NoFault, false, false, Marked, HandoverFault.NoFault, false, false,
    Cleaned,
    CatalogStore.WriteFault.NoFault, false, [], HistoryRuns.Traffic([], [], [], []))

  /** What the administrator is shown: the active generation of the file is not the one marked as live. */
  predicate RestartRequired(file: FileView, baseline: seq<Definition>) {
    ActiveOf(file.content, baseline) != file.marker
  }

  /**
   An activation whose write breaks after replacing the file leaves a file that asks for a restart. The next activation
   that fails, however cleanly it is undone, marks that file's generation as live although it never ran, and the request
   for a restart is gone.
   */
  lemma TornThenFailing(content: Content, first: Operation, target: CatalogGeneration, second: Operation,
                        other: CatalogGeneration, baseline: seq<Definition>)
    requires GoodBaseline(baseline) && Load(content, baseline).Some? && MovedContent(content, first, baseline).Some?
    requires ActiveOf(MovedContent(content, first, baseline).value, baseline) != ActiveOf(content, baseline)
    requires MovedContent(MovedContent(content, first, baseline).value, second, baseline).Some?
    ensures var start := FileView(content, None, ActiveOf(content, baseline));
            var torn := FileAfterFailure(QUIET.(write := AfterReplace), Reuse, first, content, target, start, baseline);
            var again := FileAfterFailure(QUIET.(commitFails := true), Reuse, second, torn.content, other, torn,
                                          baseline);
            && !RestartRequired(start, baseline) && RestartRequired(torn, baseline) && torn.marker == start.marker
            && again.content == torn.content && again.marker == ActiveOf(torn.content, baseline) != start.marker
            && !RestartRequired(again, baseline)
  {
    hide MovedContent, Load, ActiveOf, GoodBaseline, FileAfterFailure;
    var start := FileView(content, None, ActiveOf(content, baseline));
    var torn := start.(content := MovedContent(content, first, baseline).value);
    MovedIsReadable(content, first, baseline);
    TornIsMoved(QUIET.(write := AfterReplace), Reuse, first, target, start, baseline);
    CleanlyUndone(QUIET.(commitFails := true), Reuse, second, other, torn, baseline);
  }

  /** Any readable file with two different generations to go back and forth between is such a file. */
  lemma TwoGenerationsSuffice(content: Content, baseline: seq<Definition>)
    requires GoodBaseline(baseline) && Load(content, baseline).Some?
    requires var d := Load(content, baseline).value.document; d.lastKnownGood.Some? && d.lastKnownGood.value != d.active
    ensures var moved := MovedContent(content, RollingBack, baseline);
            && moved.Some? && ActiveOf(moved.value, baseline) != ActiveOf(content, baseline)
            && MovedContent(moved.value, RollingBack, baseline).Some?
  {
    hide GoodBaseline, Load, Apply;
    var d := Load(content, baseline).value.document;
    ApplyRollback(d, baseline);
    MoveReadsBack(content, RollingBack, baseline);
    ApplyRollback(Apply(d, Rollback, baseline).value, baseline);
  }

  lemma MovedIsReadable(content: Content, operation: Operation, baseline: seq<Definition>)
    requires GoodBaseline(baseline) && MovedContent(content, operation, baseline).Some?
    ensures Load(MovedContent(content, operation, baseline).value, baseline).Some?
  {
    hide GoodBaseline, Apply;
    MoveReadsBack(content, operation, baseline);
  }

  lemma TornIsMoved(script: Script, mode: Mode, operation: Operation, target: CatalogGeneration, before: FileView,
                    baseline: seq<Definition>)
    requires before.lease == None && Load(before.content, baseline).Some?
      && Torn(script, mode, before.content, operation, baseline)
    ensures FileAfterFailure(script, mode, operation, before.content, target, before, baseline)
         == before.(content := MovedContent(before.content, operation, baseline).value)
  {
    hide MovedContent, Load, ActiveOf;
  }

  lemma CleanlyUndone(script: Script, mode: Mode, operation: Operation, target: CatalogGeneration, before: FileView,
                      baseline: seq<Definition>)
    requires before.lease == None && Load(before.content, baseline).Some? && Remarked(script)
    requires FileCommitted(script, mode, before.content, operation, baseline)
    ensures FileAfterFailure(script, mode, operation, before.content, target, before, baseline)
         == before.(marker := ActiveOf(before.content, baseline))
  {
    hide MovedContent, Load, ActiveOf;
  }

  /** Administrators trying their edits while a lease is held. */
  method OthersTry(store: InstrumentPolicyStore, others: seq<(Edit, Content)>)
    modifies store`content
    ensures store.transitionId.Some? ==> store.content == old(store.content)
    ensures store.transitionId == None ==> store.content == AfterEdits(old(store.content), others, store.baseline)
  {
    hide AfterEdit;
    assert others[0..] == others;
    for i := 0 to |others|
      invariant store.transitionId == old(store.transitionId)
      invariant store.transitionId.Some? ==> store.content == old(store.content)
      invariant store.transitionId == None ==>
        AfterEdits(store.content, others[i..], store.baseline) == AfterEdits(old(store.content), others, store.baseline)
    {
      assert others[i..][1..] == others[i + 1..];
      var _ := store.AdminEdit(others[i].0, others[i].1);
    }
  }

  /**
   The lease and the file: captured, moved to the target, read back and marked. The lease keeps every
   other writer out, so the file is the captured one or the moved one.
   */
  method MoveFile(store: InstrumentPolicyStore, operation: Operation, expected: Content, target: CatalogGeneration,
                  candidate: Coordinator?, mode: Mode, script: Script)
    returns (p: Progress, ok: bool)
    requires GoodBaseline(store.baseline)
    requires mode == Reconnect ==> candidate != null && candidate.prepared && !candidate.closed
    modifies store, (if mode == Reconnect then {candidate} else {})`running
    ensures mode == Reconnect && ok ==> candidate.running
    ensures p.token == None ==>
      !ok && !p.fileCommitted && store.content == old(store.content) && store.transitionId == old(store.transitionId)
    ensures p.token == None <==>
      old(store.transitionId).Some? || Load(old(store.content), store.baseline) == None
        || old(store.content) != expected
    ensures p.token.Some? ==>
      old(store.content) == expected && p.token.value.content == expected
        && store.transitionId == Some(p.token.value.lease)
    ensures p.token.Some? ==>
      store.content == if Torn(script, mode, expected, operation, store.baseline)
           || FileCommitted(script, mode, expected, operation, store.baseline)
                       then MovedContent(expected, operation, store.baseline).value else expected
    ensures p.token.Some? ==> p.fileCommitted == FileCommitted(script, mode, expected, operation, store.baseline)
    ensures p.fileCommitted ==> p.snapshot == Some(store.content)
    ensures p.snapshot.Some? ==> p.fileCommitted
    ensures p.marking == (p.fileCommitted && !script.moveCancelled && !script.verifyFails
                          && ActiveOf(store.content, store.baseline) == Some(target))
    ensures ok == (p.marking && script.mark.Marked?)
    ensures store.runtimeActiveRevision == if ok then Some(target) else old(store.runtimeActiveRevision)
    ensures p.token.Some? ==> Load(p.token.value.content, store.baseline).Some?
    ensures p.marking ==> Load(store.content, store.baseline).Some?
  {
    hide GoodBaseline, Load, Apply;
    p, ok := Progress(None, None, false, false), false;
    var token := store.CaptureTransition(expected);
    if token == None {
      return;
    }
    p := p.(token := token);
    OthersTry(store, script.others);
    if script.leaseCancelled || script.prepareFails {
      return;
    }
    if mode == Reconnect {
      var _ := candidate.Start();
      if script.startFails {
        return;
      }
    }
    var snapshot := store.Move(operation, expected, token.value, script.write);
    if MovedContent(expected, operation, store.baseline).Some? {
      MoveReadsBack(expected, operation, store.baseline);
    }
    if snapshot == None {
      return;
    }
    p := p.(snapshot := snapshot, fileCommitted := true);
    OthersTry(store, script.others);
    if script.moveCancelled || script.verifyFails {
      return;
    }
    var active := store.ActiveGeneration();
    if active != Some(target) {
      return;
    }
    p := p.(marking := true);
    if !script.mark.Marked? {
      return;
    }
    ok := store.MarkRuntimeApplied(snapshot.value);
  }

  /**
   A file worker the transaction lost track of marks its revision, if that is still the file's when it gets to run.
   */
  method LateMark(store: InstrumentPolicyStore, p: Progress, script: Script, point: nat)
    modifies store`startupRevision, store`runtimeActiveRevision
    ensures store.runtimeActiveRevision ==
      if p.marking && script.mark == MarkOrphaned(point) && p.snapshot == Some(store.content)
           && Load(store.content, store.baseline).Some?
      then ActiveOf(store.content, store.baseline) else old(store.runtimeActiveRevision)
  {
    hide Load;
    if p.marking && script.mark == MarkOrphaned(point) && p.snapshot.Some? {
      var _ := store.MarkRuntimeApplied(p.snapshot.value);
    }
  }

  /**
   The rollback's part in the file: the captured bytes go back unless the restoring write breaks, and the
   lease is free in any case. A late marker cannot outlive the marking of the restored file.
   */
  method RestoreFile(store: InstrumentPolicyStore, p: Progress, script: Script)
    requires p.token.Some? && store.transitionId == Some(p.token.value.lease)
      && Load(p.token.value.content, store.baseline).Some?
    requires p.fileCommitted ==> p.snapshot == Some(store.content)
    requires p.snapshot.Some? ==> p.fileCommitted
    requires p.marking ==> p.fileCommitted && Load(store.content, store.baseline).Some?
    modifies store
    ensures store.transitionId == None && store.leases == old(store.leases)
    ensures store.content == if p.fileCommitted && !script.restore.BeforeReplace? then p.token.value.content
      else old(store.content)
    ensures store.runtimeActiveRevision ==
      if p.fileCommitted && Remarked(script) then ActiveOf(store.content, store.baseline)
      else if p.marking && MarksLate(script.mark, store.content == old(store.content))
        then ActiveOf(old(store.content), store.baseline)
      else old(store.runtimeActiveRevision)
  {
    hide Load;
    var token := p.token;
    OthersTry(store, script.others);
    LateMark(store, p, script, 0);
    if p.fileCommitted {
      var restored := store.RestoreTransition(token.value, p.snapshot.value, script.restore);
      LateMark(store, p, script, 1);
      if restored.Some? && !script.remarkFails {
        var marked := store.MarkRuntimeApplied(restored.value);
        token := if marked then None else token;
      }
    }
    if token.Some? {
      var _ := store.AbortTransition(token.value);
    }
    LateMark(store, p, script, 2);
  }

  /** Nothing to run, the live collector again, a handover by name, or a collector of its own. */
  function ModeOf(previous: Coordinator?, candidate: Coordinator?, names: Option<seq<Name>>): (mode: Mode)
    ensures mode == NoCollector <==> candidate == null
    ensures mode == Reuse <==> candidate != null && candidate == previous
    ensures mode == Reconcile <==> candidate != null && previous != null && candidate != previous && names.Some?
  {
    if candidate == null then NoCollector
    else if candidate == previous then Reuse
    else if names.Some? && previous != null then Reconcile
    else Reconnect
  }

  /**
   The collector that runs once the activation is done: a reconciled one stays, otherwise the candidate takes over.
   */
  function LiveAfter(mode: Mode, previous: Coordinator?, candidate: Coordinator?): Coordinator? {
    if mode == Reconcile then previous else candidate
  }

  // ----- what is promised of the collectors

  /** What an activation finds: the live collector with its streams and graph, and the candidate's own graph. */
  datatype View = View(
    state: CollectorState, streams: map<Name, StreamTask>, live: map<Name, LiveStream>, adapters: map<Name, Instance>,
    chains: Routes, bound: set<Instance>, providers: map<Name, Instance>, routes: Routes, symbols: seq<Symbol>,
    names: seq<Name>)

  function ViewOf(collector: Coordinator, candidate: Coordinator, names: Option<seq<Name>>): View
    reads collector, collector.graph, candidate, candidate.graph
  {
    View(collector.State(), collector.RunningStreams(), collector.LiveStreams(), collector.graph.providers,
         collector.graph.routes, collector.graph.routerBound, candidate.graph.providers, candidate.graph.routes,
         candidate.registry.symbols,
         if names.Some? then names.value else [])
  }

  /** The view an activation may have to restore: that of a collector it retargets. */
  function ViewBefore(collector: Coordinator?, candidate: Coordinator?, names: Option<seq<Name>>): Option<View>
    reads collector, candidate, if collector != null then {collector.graph} else {},
          if candidate != null then {candidate.graph} else {}
  {
    if ModeOf(collector, candidate, names) in {Reuse, Reconcile} then Some(ViewOf(collector, candidate, names))
      else None
  }

  /** The transfers are the reusable adapters both graphs have, but for those bound to the old router. */
  ghost predicate Exchanged(transfers: seq<Transfer>, before: View) {
    && (forall name :: Named(transfers, name) <==>
          name in before.names && name in before.adapters && name in before.providers
            && before.adapters[name] !in before.bound)
    && Holding(before.adapters, transfers) && ReadOff(before.providers, transfers)
  }

  /** The streams those transfers leave alone: same adapter, same subscription. */
  ghost function LeftAlone(declared: map<Instance, set<Symbol>>, before: View,
                           transfers: seq<Transfer>): map<Name, LiveStream> {
    RetainedStreams(before.live, before.streams, transfers, declared, before.symbols,
                    MovedProviders(before.providers, transfers, true), MovedRoutes(before.routes, transfers, true))
  }

  /**
   Nothing was begun, or every stream the handover leaves alone still runs in its task, which nobody has cancelled.
   */
  ghost predicate TasksKept(collector: Coordinator, before: View)
    reads collector
  {
    collector.State() == before.state || exists transfers ::
      Exchanged(transfers, before)
        && Untouched(LeftAlone(collector.declared, before, transfers), collector.LiveStreams(), collector.cancelled)
  }

  /** The collector works for the given generation on the candidate's graph. */
  predicate WorksFor(collector: Coordinator?, candidate: Coordinator?, next: RuntimeGeneration)
    reads collector, candidate
  {
    && collector != null && candidate != null
    && collector.registry == next.registry && collector.generationId == Some(next.id)
    && collector.graph == candidate.graph
  }

  /** A candidate that runs on its own. */
  predicate Serving(candidate: Coordinator?)
    reads candidate
  {
    candidate != null && candidate.running && !candidate.closed
  }

  /**
   The collector runs for the new generation: a reused one with all it had but registry and generation, a reconciled
   one with the wanted streams and every task the handover could leave alone, and otherwise the candidate itself.
   */
  ghost predicate OnTarget(collector: Coordinator?, candidate: Coordinator?, next: RuntimeGeneration, mode: Mode,
                           before: Option<View>)
    reads collector, candidate, if collector != null then {collector.graph} else {}
  {
    match mode
    case NoCollector => true
    case Reconnect => Serving(candidate)
    case Reuse =>
      && WorksFor(collector, candidate, next) && Serving(collector) && before.Some?
      && HasGraph(collector.graph, before.value)
      && collector.State() == before.value.state.(
           target := before.value.state.target.(registry := next.registry, generationId := Some(next.id)))
    case Reconcile =>
      && WorksFor(collector, candidate, next) && Serving(collector) && collector.Sound() && before.Some?
      && TasksKept(collector, before.value)
      && (next.registry.symbols == before.value.symbols ==>
            collector.RunningStreams()
              == WantedStreams(collector.declared, next.registry.symbols, collector.graph.providers,
                               collector.graph.routes))
  }

  /**
   The collector is as before. A reconciled one has its target, its graph and, if it runs, its streams again, the tasks
   the handover left alone never cancelled; it has stopped only when it was stopped under the handover. The candidate
   has its own adapters back.
   */
  ghost predicate CollectorIsBack(collector: Coordinator?, candidate: Coordinator?, before: Option<View>, mode: Mode,
                                  stops: bool)
    reads collector, candidate,
          if collector != null then {collector.graph} else {}, if candidate != null then {candidate.graph} else {}
  {
    before.Some? ==>
      && (mode in {Reuse, Reconcile} ==> collector != null && HasGraph(collector.graph, before.value))
      && (mode == Reuse ==> collector.State() == before.value.state)
      && (mode == Reconcile ==>
            && candidate != null && collector.Valid() && collector.StreamsKnown()
            && collector.Target() == before.value.state.target && SameStanding(collector, before.value)
            && collector.running == (before.value.state.running && !stops)
            && (collector.running ==>
                collector.RunningStreams() == before.value.streams && TasksKept(collector, before.value))
            && candidate.graph.providers == before.value.providers && candidate.graph.routes == before.value.routes)
  }

  /** The graph holds the adapters and chains the live one held. */
  predicate HasGraph(graph: ProviderGraph, before: View)
    reads graph
  {
    graph.providers == before.adapters && graph.routes == before.chains
  }

  predicate SameStanding(collector: Coordinator, before: View)
    reads collector
  {
    collector.Standing() == (before.state.prepared, before.state.closed, before.state.ownsGraph)
  }

  /** The handover is reached by a collector that can hand over, and it is stopped meanwhile. */
  predicate StopsCollector(collector: Coordinator?, candidate: Coordinator?, names: Option<seq<Name>>,
                           fault: HandoverFault)
    reads collector, candidate, if collector != null then {collector.graph} else {},
          if candidate != null then {candidate.graph} else {}
  {
    ModeOf(collector, candidate, names) == Reconcile && collector.CanHandTo(candidate, names.value)
      && fault.StoppedWhilePreparing?
  }

  function StateOf(collector: Coordinator?): Option<CollectorState>
    reads collector
  {
    if collector == null then None else Some(collector.State())
  }

  /** Stopped for good, and nothing else changed. */
  predicate Retired(collector: Coordinator?, was: Option<CollectorState>)
    reads collector
  {
    && was.Some? && collector != null
    && collector.State() == was.value.(closed := true, running := was.value.closed && was.value.running)
  }

  /**
   What an escape after the commit leaves of the collectors. A reconciled one keeps working for the new generation,
   as its handover is final; otherwise the old one is retired and the new one, though the active one, is stopped.
   */
  ghost predicate Stranded(collector: Coordinator?, candidate: Coordinator?, next: RuntimeGeneration, mode: Mode,
                           before: Option<View>, was: Option<CollectorState>)
    reads collector, candidate, if collector != null then {collector.graph} else {}
  {
    && (candidate != null ==> candidate.closed && !candidate.running)
    && if mode == Reconcile then OnTarget(collector, candidate, next, mode, before) && candidate != null
       && !candidate.ownsGraph
       else Retired(collector, was)
  }

  ghost predicate IsSound(collector: Coordinator?)
    reads collector, if collector != null then {collector.graph} else {}
  {
    collector != null ==> collector.Sound()
  }

  predicate IsClosed(collector: Coordinator?)
    reads collector
  {
    collector != null && collector.closed
  }

  /** A candidate of its own is stopped, which closes the adapters it routes if its graph is still its own. */
  ghost predicate CandidateStopped(collector: Coordinator?, candidate: Coordinator?, wasClosed: bool,
                                   released: seq<Instance>)
    reads candidate, if candidate != null then {candidate.graph} else {}
  {
    if candidate == null || candidate == collector then released == []
    else
      && candidate.closed && (!wasClosed ==> !candidate.running)
      && forall x :: x in released <==> !wasClosed && candidate.ownsGraph && Routed(candidate.graph.routes, x)
  }

  // ----- the collector's part

  /** The collector's share of an activation: what it had before, and the token of a handover. */
  datatype Handover = Handover(previousTarget: Option<(Registry, Option<nat>)>, token: CollectorReconciliation?)

  /** The collector can follow: one that runs adopts, one that can hand adapters over reconciles. */
  predicate CollectorGoes(previous: Coordinator?, candidate: Coordinator?, names: Option<seq<Name>>,
                          fault: HandoverFault)
    reads previous, candidate, if previous != null then {previous.graph} else {},
          if candidate != null then {candidate.graph} else {}
  {
    match ModeOf(previous, candidate, names)
    case Reuse => candidate.running && !candidate.closed
    case Reconcile => previous.CanHandTo(candidate, names.value) && fault.NoFault?
    case _ => true
  }

  /** A token whose rollback gives back the collector target, its streams and the candidate's own graph. */
  ghost predicate Reversible(collector: Coordinator, candidate: Coordinator, token: CollectorReconciliation,
                             before: View)
    reads collector, candidate, candidate.graph, token, token.previous.graph
  {
    && collector.Holds(token) && !token.finalized && token.candidate == candidate && !candidate.ownsGraph
    && token.candidate.graph != token.previous.graph
    && collector.running && before.state.running && SameStanding(collector, before)
    && token.previous == before.state.target && token.previousStreams == before.streams
    && HasGraph(token.previous.graph, before)
    && Exchanged(token.transfers, before) && token.retained == LeftAlone(collector.declared, before, token.transfers)
    && MovedRoutes(candidate.graph.routes, token.transfers, false) == before.routes
    && MovedProviders(candidate.graph.providers, token.transfers, false) == before.providers
  }

  /** No candidate adapter is routed in the graph that was replaced. */
  ghost predicate Retirable(token: CollectorReconciliation)
    reads token.previous.graph
  {
    forall x :: IsReplacement(x, token.transfers) ==> !Routed(token.previous.graph.routes, x)
  }

  /** A handover to the candidate graph, which the candidate no longer owns. */
  ghost predicate HandedOver(collector: Coordinator?, candidate: Coordinator?, token: CollectorReconciliation?)
    reads candidate, if token != null then {token.previous.graph} else {}
  {
    && token != null && collector != null && candidate != null && candidate != collector
    && token.candidate == candidate && !candidate.ownsGraph && !candidate.closed && Retirable(token)
  }

  /** What the collector had before is in its token, in its noted target, or still in place. */
  ghost predicate CollectorUndoable(collector: Coordinator?, candidate: Coordinator?, handover: Handover, mode: Mode,
                                    before: Option<View>, stops: bool)
    reads collector, candidate, handover.token,
          if collector != null then {collector.graph} else {}, if candidate != null then {candidate.graph} else {},
          if handover.token != null then {handover.token.previous.graph} else {}
  {
    && (mode == NoCollector ==> candidate == null)
    && (mode == Reuse ==> handover.token == null && candidate != null && candidate == collector)
    && (mode in {Reconcile, Reconnect} ==> candidate != null && candidate != collector)
    && (handover.previousTarget.Some? ==> mode == Reuse)
    && (handover.token != null ==>
          && mode == Reconcile && collector != null && collector.Valid() && before.Some? && !stops
          && Reversible(collector, candidate, handover.token, before.value))
    && (mode == Reuse && before.Some? ==>
          && collector != null && HasGraph(collector.graph, before.value)
          && before.value.state == (if handover.previousTarget == None then collector.State()
               else collector.State().(target := collector.Target().(
                 registry := handover.previousTarget.value.0, generationId := handover.previousTarget.value.1))))
    && (mode == Reconcile && handover.token == null ==> CollectorIsBack(collector, candidate, before, mode, stops))
  }

  /** Nothing has been done to the collector yet. */
  lemma NothingToUndo(collector: Coordinator?, candidate: Coordinator?, names: Option<seq<Name>>)
    requires ModeOf(collector, candidate, names) == Reconcile ==> collector.Valid() && collector.StreamsKnown()
    ensures CollectorUndoable(collector, candidate, Handover(None, null), ModeOf(collector, candidate, names),
                              ViewBefore(collector, candidate, names), false)
  {
    hide ValidTasks, LiveIn;
  }

  /** Without a reuse or a handover there is no collector to move and nothing to restore. */
  lemma NoneToMove(collector: Coordinator?, candidate: Coordinator?, names: Option<seq<Name>>, fault: HandoverFault)
    requires ModeOf(collector, candidate, names) in {NoCollector, Reconnect}
    ensures ViewBefore(collector, candidate, names) == None
    ensures CollectorGoes(collector, candidate, names, fault) && !StopsCollector(collector, candidate, names, fault)
  {
  }

  lemma IsExchanged(transfers: seq<Transfer>, before: View)
    requires forall name :: Named(transfers, name) <==>
      name in before.names && name in before.adapters && name in before.providers
        && before.adapters[name] !in before.bound
    requires Holding(before.adapters, transfers) && ReadOff(before.providers, transfers)
    ensures Exchanged(transfers, before)
  {
    hide Named, Holding, ReadOff;
  }

  lemma RefusedIsBack(collector: Coordinator, candidate: Coordinator, before: View, transfers: seq<Transfer>,
                      stops: bool)
    requires collector.Valid() && collector.StreamsKnown() && Exchanged(transfers, before)
      && HasGraph(collector.graph, before)
    requires collector.Target() == before.state.target && SameStanding(collector, before)
    requires collector.running == (before.state.running && !stops)
    requires collector.running ==>
      && collector.RunningStreams() == before.streams
      && Untouched(LeftAlone(collector.declared, before, transfers), collector.LiveStreams(), collector.cancelled)
    requires candidate.graph.providers == before.providers && candidate.graph.routes == before.routes
    ensures CollectorIsBack(collector, candidate, Some(before), Reconcile, stops)
  {
    hide Exchanged, Untouched, LeftAlone, Coordinator.Valid, Coordinator.StreamsKnown, Coordinator.RunningStreams,
         Coordinator.LiveStreams;
  }

  lemma HandedIsOnTarget(collector: Coordinator, candidate: Coordinator, next: RuntimeGeneration, before: View,
                         transfers: seq<Transfer>)
    requires WorksFor(collector, candidate, next) && Serving(collector) && collector.Sound()
      && Exchanged(transfers, before)
    requires Untouched(LeftAlone(collector.declared, before, transfers), collector.LiveStreams(), collector.cancelled)
    requires next.registry.symbols == before.symbols ==>
      collector.RunningStreams()
        == WantedStreams(collector.declared, next.registry.symbols, collector.graph.providers, collector.graph.routes)
    ensures OnTarget(collector, candidate, next, Reconcile, Some(before))
  {
    hide Exchanged, Untouched, LeftAlone, Coordinator.Sound, Coordinator.RunningStreams, Coordinator.LiveStreams,
         WantedStreams;
  }

  /** A handover leaves a token whose rollback gives everything back, or the collector is back already. */
  method HandTo(previous: Coordinator, candidate: Coordinator, next: RuntimeGeneration, names: seq<Name>,
                fault: HandoverFault)
    returns (token: CollectorReconciliation?, ok: bool)
    requires previous.Valid() && previous.StreamsKnown() && previous.Independent(candidate)
    modifies previous, candidate`ownsGraph, candidate.graph
    ensures previous.Valid() && previous.StreamsKnown() && Injective(previous.graph.providers)
    ensures ok == (token != null)
      && (ok ==> fresh(token) && HandedOver(previous, candidate, token) && previous.Confirmed(token))
    ensures ok <==> old(previous.CanHandTo(candidate, names)) && fault.NoFault?
    ensures ok ==> Reversible(previous, candidate, token, old(ViewOf(previous, candidate, Some(names))))
    ensures ok ==> OnTarget(previous, candidate, next, Reconcile, Some(old(ViewOf(previous, candidate, Some(names)))))
    ensures !ok ==>
      CollectorIsBack(previous, candidate, Some(old(ViewOf(previous, candidate, Some(names)))), Reconcile,
                      old(previous.CanHandTo(candidate, names)) && fault.StoppedWhilePreparing?)
  {
    hide Injective, Apart, Holding, ReadOff, Routed, Named, Untouched, RetainedStreams, WantedStreams, Separate,
         MovedRoutes, MovedProviders, Exchanged, OnTarget, CollectorIsBack, IsPrevious, IsReplacement,
         PreviousInstances,
         Coordinator.Sound, Coordinator.RunningStreams, Coordinator.LiveStreams, Coordinator.Valid,
         Coordinator.StreamsKnown;
    ghost var before, transfers := ViewOf(previous, candidate, Some(names)), [];
    token, transfers := previous.ReconcileGeneration(candidate, next.registry, Some(next.id), names, fault);
    ok := token != null;
    SomebodyIsNamed(transfers);
    IsExchanged(transfers, before);
    if ok {
      previous.SoundMeans();
      TransfersJoin(before.adapters, before.chains, before.providers, before.routes, transfers);
      CandidateThereAndBack(before.adapters, before.chains, before.providers, before.routes, transfers);
      MovedIsInjective(before.adapters, before.chains, before.providers, before.routes, transfers);
      HandedIsOnTarget(previous, candidate, next, before, transfers);
    } else {
      RefusedIsBack(previous, candidate, before, transfers, old(previous.CanHandTo(candidate, names))
                    && fault.StoppedWhilePreparing?);
    }
  }

  /** A running collector adopts the registry, or is handed over to the candidate graph. */
  method Coordinate(previous: Coordinator?, candidate: Coordinator?, next: RuntimeGeneration,
                    names: Option<seq<Name>>, mode: Mode, fault: HandoverFault)
    returns (handover: Handover, ok: bool)
    requires mode == ModeOf(previous, candidate, names)
    requires mode == Reconcile ==> previous.Valid() && previous.StreamsKnown() && previous.Independent(candidate)
    requires mode == Reconnect ==> Serving(candidate)
    modifies match mode case Reuse => {candidate} case Reconcile => {previous, candidate, candidate.graph} case _ => {}
    ensures CollectorUndoable(previous, candidate, handover, mode, old(ViewBefore(previous, candidate, names)),
                              old(StopsCollector(previous, candidate, names, fault)))
    ensures ok ==>
      OnTarget(LiveAfter(mode, previous, candidate), candidate, next, mode, old(ViewBefore(previous, candidate, names)))
    ensures handover.token != null ==>
      ok && fresh(handover.token) && HandedOver(previous, candidate, handover.token)
        && previous.Confirmed(handover.token)
    ensures ok ==> (handover.token != null <==> mode == Reconcile)
    ensures ok == old(CollectorGoes(previous, candidate, names, fault))
    ensures candidate != null ==> candidate.graph == old(candidate.graph) && candidate.closed == old(candidate.closed)
  {
    hide Reversible, Retirable, TasksKept, Injective, WantedStreams, SoundIn;
    handover, ok := Handover(None, null), true;
    match mode {
      case Reuse =>
        var was := candidate.AdoptGeneration(next.registry, Some(next.id));
        handover, ok := handover.(previousTarget := was), was.Some?;
      case Reconcile =>
        var token, ok' := HandTo(previous, candidate, next, names.value, fault);
        handover, ok := handover.(token := token), ok';
      case _ =>
    }
  }

  /** The rollback's part in the collector. */
  method Uncoordinate(collector: Coordinator?, candidate: Coordinator?, handover: Handover, mode: Mode,
                      ghost before: Option<View>, ghost stops: bool)
    requires CollectorUndoable(collector, candidate, handover, mode, before, stops)
    requires handover.token != null || handover.previousTarget.Some?
    modifies (if mode == Reuse then {candidate} else {})`registry,
             (if mode == Reuse then {candidate} else {})`generationId
    modifies (if mode == Reconcile then {candidate} else {})`ownsGraph
    modifies if mode == Reconcile then {candidate.graph} else {}
    modifies if handover.token != null then {collector} else {}
    ensures CollectorIsBack(collector, candidate, before, mode, stops)
  {
    hide MovedRoutes, MovedProviders, Separate, RunsOn, LeftAlone, Exchanged;
    if handover.token != null {
      var _ := collector.RollbackReconciliation(handover.token);
    } else {
      var registry, id := handover.previousTarget.value.0, handover.previousTarget.value.1;
      var again := candidate.AdoptGeneration(registry, id);
      if again == None {
        candidate.registry, candidate.generationId := registry, id;
      }
    }
  }

  datatype Outcome = Completed | Raised | RaisedAfterCommit

  /** The lease is still held, and a replaced file is the one the transition reported. */
  ghost predicate FileUndoable(store: InstrumentPolicyStore, p: Progress)
    reads store
  {
    && (p.token.Some? ==>
        store.transitionId == Some(p.token.value.lease) && Load(p.token.value.content, store.baseline).Some?)
    && (p.fileCommitted ==> p.token.Some? && p.snapshot == Some(store.content))
    && (p.snapshot.Some? ==> p.fileCommitted)
    && (p.marking ==> p.fileCommitted && Load(store.content, store.baseline).Some?)
  }

  /** The handler's part in the collectors: the handover is undone and a candidate of its own is stopped. */
  method RollBackCollector(collector: Coordinator?, candidate: Coordinator?, handover: Handover, mode: Mode,
                           ghost before: Option<View>, ghost stops: bool)
    returns (released: seq<Instance>)
    requires CollectorUndoable(collector, candidate, handover, mode, before, stops)
    modifies match mode case NoCollector => {} case Reconcile => {collector, candidate, candidate.graph}
      case _ => {candidate}
    ensures CollectorIsBack(collector, candidate, before, mode, stops)
    ensures CandidateStopped(collector, candidate, old(IsClosed(candidate)), released)
    ensures candidate != null ==> candidate.graph == old(candidate.graph)
  {
    hide Separate, RunsOn, MovedRoutes, MovedProviders, Routed, Exchanged, LeftAlone, Reversible, TasksKept,
         ValidTasks, LiveIn;
    released := [];
    if handover.token != null || handover.previousTarget.Some? {
      Uncoordinate(collector, candidate, handover, mode, before, stops);
    }
    if candidate != null && candidate != collector {
      released := candidate.Stop();
    }
  }

  /** The handler's part in the file: nothing without a lease. */
  method RollBackFile(store: InstrumentPolicyStore, p: Progress, script: Script)
    requires FileUndoable(store, p)
    modifies store
    ensures FileRolledBack(script, p, old(FileOf(store)), FileOf(store), store.baseline)
  {
    hide Load, ActiveOf;
    if p.token.Some? {
      RestoreFile(store, p, script);
    }
  }

  /** Collector, then file. */
  method RollBackPlant(store: InstrumentPolicyStore, collector: Coordinator?, candidate: Coordinator?,
                       handover: Handover, mode: Mode, p: Progress, script: Script, ghost before: Option<View>,
                       ghost stops: bool)
    returns (released: seq<Instance>)
    requires FileUndoable(store, p) && CollectorUndoable(collector, candidate, handover, mode, before, stops)
    modifies store
    modifies match mode case NoCollector => {} case Reconcile => {collector, candidate, candidate.graph}
      case _ => {candidate}
    ensures FileRolledBack(script, p, old(FileOf(store)), FileOf(store), store.baseline)
    ensures CollectorIsBack(collector, candidate, before, mode, stops)
    ensures CandidateStopped(collector, candidate, old(IsClosed(candidate)), released)
    ensures candidate != null ==> candidate.graph == old(candidate.graph)
  {
    hide FileUndoable, CollectorIsBack, FileRolledBack, CandidateStopped, Reversible;
    released := RollBackCollector(collector, candidate, handover, mode, before, stops);
    RollBackFile(store, p, script);
  }

  /** A cancellation that meets a failing cleanup, or a second one, gets past the handlers of the cleanup. */
  predicate Escapes(cleanup: Cleanup): (escapes: bool)
    ensures escapes <==> cleanup in {CancelledAndFailed, CancelledTwice}
  {
    cleanup.CancelledAndFailed? || cleanup.CancelledTwice?
  }

  function SymbolSet(registry: Registry): (symbols: set<Symbol>)
    ensures forall s :: s in symbols <==> s in registry.symbols
  {
    set s | s in registry.symbols
  }

  /** What an activation starts from: file, history, live collector, and whether the collector can follow. */
  datatype Origin = Origin(
    file: FileView, history: HistoryModel.HistoryState, view: Option<View>, state: Option<CollectorState>, closed: bool,
    goes: bool, stops: bool, apart: bool, sound: bool)

  class QuickPriceService {
    const store: InstrumentPolicyStore
    const generations: RuntimeGenerationManager
    var coordinator: Coordinator?
    var collectorStartError: Option<nat>
    /** The data state the service's own attributes are bound to. */
    var bound: nat
    /** The price history all data states share. */
    ghost var history: HistoryModel.HistoryState
    const compute: HistoryModel.Arithmetic

    constructor (store: InstrumentPolicyStore, generations: RuntimeGenerationManager, coordinator: Coordinator?,
                 compute: HistoryModel.Arithmetic)
      ensures this.store == store && this.generations == generations && this.coordinator == coordinator
      ensures collectorStartError == None && bound == generations.current.dataState
      ensures this.compute == compute && history == HistoryModel.EMPTY
    {
      this.store, this.generations, this.coordinator := store, generations, coordinator;
      collectorStartError, bound := None, generations.current.dataState;
      this.compute, history := compute, HistoryModel.EMPTY;
    }

    /** What activating `next` needs from the service and its collectors. */
    ghost predicate Prepared(candidate: Coordinator?, next: RuntimeGeneration, names: Option<seq<Name>>)
      reads this, generations, coordinator, candidate,
            if coordinator != null then {coordinator.graph} else {}, if candidate != null then {candidate.graph} else {}
    {
      var mode := ModeOf(coordinator, candidate, names);
      && GoodBaseline(store.baseline)
      && bound == generations.current.dataState
      && HistoryModel.WellFormed(history)
      && next.id != generations.current.id
      && (mode == Reconnect ==> candidate.prepared && !candidate.closed)
      && (mode == Reconcile ==> coordinator.Valid() && coordinator.StreamsKnown() && coordinator.Independent(candidate))
    }

    lemma PreparedMeans(candidate: Coordinator?, next: RuntimeGeneration, names: Option<seq<Name>>)
      requires Prepared(candidate, next, names)
      ensures GoodBaseline(store.baseline) && HistoryModel.WellFormed(history)
      ensures bound == generations.current.dataState && next.id != generations.current.id
      ensures ModeOf(coordinator, candidate, names) == Reconnect ==> candidate.prepared && !candidate.closed
      ensures ModeOf(coordinator, candidate, names) == Reconcile ==>
        coordinator.Valid() && coordinator.StreamsKnown() && coordinator.Independent(candidate)
    {
    }

    /** One pointer publication makes the generation, its data state and its collector current together. */
    method Publish(next: RuntimeGeneration, active: Coordinator?)
      modifies this`coordinator, this`collectorStartError, this`bound, generations
      ensures generations.current == next && bound == next.dataState && coordinator == active
        && collectorStartError == None
    {
      var _ := generations.Activate(next);
      bound := next.dataState;
      coordinator, collectorStartError := active, None;
    }

    /** The pointer goes back when it had been moved. */
    method Unpublish(previous: RuntimeGeneration, collector: Coordinator?, startError: Option<nat>)
      requires generations.current.id == previous.id ==> generations.current == previous && bound == previous.dataState
      modifies this`coordinator, this`collectorStartError, this`bound, generations
      ensures generations.current == previous && bound == previous.dataState && coordinator == collector
        && collectorStartError == startError
    {
      if generations.current.id != previous.id {
        var _ := generations.Activate(previous);
        bound := previous.dataState;
      }
      coordinator, collectorStartError := collector, startError;
    }

    /**
     The handler's part in the runtime: the pointer goes back and the shared history keeps what that generation needs.
     */
    method RestoreRuntime(previous: RuntimeGeneration, collector: Coordinator?, startError: Option<nat>,
                          ghost attempted: HistoryModel.HistoryState)
      requires generations.current.id == previous.id ==> generations.current == previous && bound == previous.dataState
      modifies this, generations
      ensures generations.current == previous && bound == previous.dataState && coordinator == collector
        && collectorStartError == startError
      ensures history == HistoryModel.Retain(attempted, SymbolSet(previous.registry))
    {
      Unpublish(previous, collector, startError);
      history := HistoryModel.Retain(attempted, SymbolSet(previous.registry));
    }

    /** Publishes the generation, checks a handed-over collector once more and commits the lease. */
    method PublishAndCommit(p: Progress, next: RuntimeGeneration, active: Coordinator?,
                            token: CollectorReconciliation?, script: Script)
      returns (committed: bool)
      requires token != null ==> active != null
      requires p.token.Some? && p.snapshot == Some(store.content) && store.transitionId == Some(p.token.value.lease)
      modifies this`coordinator, this`collectorStartError, this`bound, generations, store`content, store`transitionId
      ensures store.content == old(store.content)
        && store.transitionId == if committed then None else old(store.transitionId)
      ensures generations.current == next && bound == next.dataState && coordinator == active
        && collectorStartError == None
      ensures committed <==>
        !(token != null && (script.confirmFails || !active.Confirmed(token))) && !script.commitFails
    {
      Publish(next, active);
      OthersTry(store, script.others);
      committed := false;
      if token != null && (script.confirmFails || !active.Confirmed(token)) {
        return;
      }
      if !script.commitFails {
        committed := store.CommitTransition(p.token.value, p.snapshot.value);
      }
    }

    /**
     Releases what the new generation replaced; true when the cancellation and the failure come together and escape.
     */
    method Retire(collector: Coordinator?, active: Coordinator?, token: CollectorReconciliation?,
                  cleanup: Cleanup) returns (escapes: bool)
      requires token != null ==> collector != null && Retirable(token)
      modifies if token != null then {token} else {}
      modifies (if token == null && collector != active then {collector} else {})`running
      modifies (if token == null && collector != active then {collector} else {})`closed
      ensures escapes <==> (token != null || (collector != null && collector != active)) && Escapes(cleanup)
      ensures token != null ==> token.finalized
      ensures token == null && collector != null && collector != active ==> Retired(collector, old(StateOf(collector)))
      ensures old(IsSound(collector)) ==> IsSound(collector)
    {
      hide SoundIn;
      if token != null {
        var _ := collector.FinalizeReconciliation(token);
      } else if collector != null && collector != active {
        var _ := collector.Stop();
        if old(IsSound(collector)) {
          SoundWithTheseTasks(old(collector.State()), collector.State(), collector.graph.providers);
        }
      } else {
        return false;
      }
      escapes := Escapes(cleanup);
    }

    /**
     The exception handler after the commit: the pointer goes back, a finalized handover cannot be rolled back, the
     candidate is stopped, and the released lease leaves the file alone. A reused collector never comes here, as
     there is nothing to retire then.
     */
    method EscapeAfterCommit(previous: RuntimeGeneration, collector: Coordinator?, startError: Option<nat>,
                             candidate: Coordinator?, token: CollectorReconciliation?, ghost next: RuntimeGeneration,
                             ghost before: Option<View>, ghost attempted: HistoryModel.HistoryState)
      returns (released: seq<Instance>)
      requires generations.current.id == previous.id ==> generations.current == previous && bound == previous.dataState
      requires token != null ==>
        && collector != null && candidate != null && candidate != collector && token.candidate == candidate
        && token.finalized
        && !candidate.ownsGraph && !candidate.closed && OnTarget(collector, candidate, next, Reconcile, before)
      modifies this, generations
      modifies if candidate != null && candidate != collector then {candidate} else {}
      modifies if token != null then {collector, candidate.graph} else {}
      ensures PointsBack(previous, collector, startError)
      ensures history == HistoryModel.Retain(attempted, SymbolSet(previous.registry))
      ensures token != null ==>
        OnTarget(collector, candidate, next, Reconcile, before) && !candidate.ownsGraph && !candidate.running
      ensures CandidateStopped(collector, candidate, old(IsClosed(candidate)), released)
      ensures old(IsSound(collector)) ==> IsSound(collector)
      ensures (token == null && candidate != collector ==> old(BuiltApart(collector, candidate))) ==>
        NoneOwned(released, collector)
    {
      hide Routed, HistoryModel.Retain, TasksKept, Coordinator.Sound, Coordinator.RunningStreams, WantedStreams, Apart,
           HasGraph;
      RestoreRuntime(previous, collector, startError, attempted);
      if token != null {
        var _ := collector.RollbackReconciliation(token);
      }
      released := [];
      if candidate != null && candidate != collector {
        released := candidate.Stop();
      }
      if token == null && old(BuiltApart(collector, candidate)) {
        StoppedApart(collector, candidate, old(IsClosed(candidate)), released);
      }
    }

    static lemma NothingIsOwned(collector: Coordinator?)
      ensures NoneOwned([], collector)
    {
    }

    static lemma StoppedApart(collector: Coordinator?, candidate: Coordinator?, wasClosed: bool,
                              released: seq<Instance>)
      requires CandidateStopped(collector, candidate, wasClosed, released) && BuiltApart(collector, candidate)
      ensures NoneOwned(released, collector)
    {
      hide Routed;
    }

    /** The two graphs share no adapter. */
    static ghost predicate BuiltApart(collector: Coordinator?, candidate: Coordinator?)
      reads collector, candidate, if collector != null then {collector.graph} else {},
            if candidate != null then {candidate.graph} else {}
    {
      collector != null && candidate != null ==>
        Apart(collector.graph.providers, collector.graph.routes, candidate.graph.providers, candidate.graph.routes)
    }

    /** Everything an activation starts from that its outcome is compared with. */
    ghost function Finds(candidate: Coordinator?, names: Option<seq<Name>>, fault: HandoverFault): Origin
      reads this, store, coordinator, candidate,
            if coordinator != null then {coordinator.graph} else {}, if candidate != null then {candidate.graph} else {}
    {
      Origin(FileOf(store), history, ViewBefore(coordinator, candidate, names), StateOf(coordinator),
             IsClosed(candidate),
            CollectorGoes(coordinator, candidate, names, fault), StopsCollector(coordinator, candidate, names, fault),
            BuiltApart(coordinator, candidate), IsSound(coordinator) && IsSound(candidate))
    }

    /** What is left of the start after a failing attempt: enough to tell that the collector is back. */
    ghost predicate StandsStill(was: Origin, collector: Coordinator?, candidate: Coordinator?, mode: Mode)
      reads collector, candidate, if collector != null then {collector.graph} else {},
            if candidate != null then {candidate.graph} else {}
    {
      && was.closed == IsClosed(candidate)
      && if mode in {Reuse, Reconcile} then was.view.Some? && SameView(was)
         && (mode == Reuse ==> candidate == collector)
         else
           && (mode == Reconnect ==> candidate != collector)
           && was.view == None && StateOf(collector) == was.state && (was.sound ==> IsSound(collector))
           && (was.apart ==> BuiltApart(collector, candidate))
    }

    static ghost predicate SameView(was: Origin)
      requires was.view.Some?
    {
      var view := was.view.value;
      && was.state == Some(view.state) && (was.sound ==> SoundIn(view.state, view.adapters))
      && (was.apart ==> Apart(view.adapters, view.chains, view.providers, view.routes))
    }

    lemma StandsAtFirst(candidate: Coordinator?, names: Option<seq<Name>>, fault: HandoverFault)
      ensures StandsStill(Finds(candidate, names, fault), coordinator, candidate, ModeOf(coordinator, candidate, names))
    {
      hide SoundIn, Apart, CollectorGoes, StopsCollector, Injective;
    }

    /** What the exception handler finds, whichever step failed. */
    ghost predicate Undoable(previous: RuntimeGeneration, collector: Coordinator?, candidate: Coordinator?,
                             handover: Handover, mode: Mode, p: Progress, before: Option<View>, stops: bool)
      reads this`bound, generations, store, collector, candidate, handover.token,
            if collector != null then {collector.graph} else {}, if candidate != null then {candidate.graph} else {},
            if handover.token != null then {handover.token.previous.graph} else {}
    {
      && (generations.current.id == previous.id ==> generations.current == previous && bound == previous.dataState)
      && FileUndoable(store, p)
      && CollectorUndoable(collector, candidate, handover, mode, before, stops)
    }

    /** The exception handler: pointer, history, collector, candidate and file, in this order. */
    method RollBack(previous: RuntimeGeneration, collector: Coordinator?, startError: Option<nat>,
                    candidate: Coordinator?, handover: Handover, mode: Mode, p: Progress, script: Script,
                    ghost before: Option<View>, ghost stops: bool, ghost attempted: HistoryModel.HistoryState)
      returns (released: seq<Instance>)
      requires Undoable(previous, collector, candidate, handover, mode, p, before, stops)
      modifies this, generations, store
      modifies match mode case NoCollector => {} case Reconcile => {collector, candidate, candidate.graph}
        case _ => {candidate}
      ensures PointsBack(previous, collector, startError)
      ensures FileRolledBack(script, p, old(FileOf(store)), FileOf(store), store.baseline)
      ensures CollectorIsBack(collector, candidate, before, mode, stops)
      ensures CandidateStopped(collector, candidate, old(IsClosed(candidate)), released)
      ensures candidate != null ==> candidate.graph == old(candidate.graph)
      ensures history == HistoryModel.Retain(attempted, SymbolSet(previous.registry))
    {
      hide FileUndoable, CollectorIsBack, FileRolledBack, CandidateStopped, Reversible, HistoryModel.Retain;
      ghost var kept: object := if handover.token != null then handover.token.previous.graph else store;
      assert handover.token != null ==> kept !in {this, generations, store};
      RestoreRuntime(previous, collector, startError, attempted);
      released := RollBackPlant(store, collector, candidate, handover, mode, p, script, before, stops);
    }

    /** The steps on the file, before anything else is touched. */
    method AdvanceFile(operation: Operation, expected: Content, next: RuntimeGeneration, candidate: Coordinator?,
                       mode: Mode, script: Script)
      returns (p: Progress, ok: bool)
      requires GoodBaseline(store.baseline)
      requires mode == Reconnect ==> candidate != null && candidate.prepared && !candidate.closed
      modifies store, (if mode == Reconnect then {candidate} else {})`running
      ensures FileUndoable(store, p)
      ensures FileTried(script, mode, operation, expected, next.catalog, old(FileOf(store)), FileOf(store), p,
                        store.baseline)
      ensures ok == FileGoes(script, mode, old(FileOf(store)), expected, operation, next.catalog, store.baseline)
      ensures ok ==> p.fileCommitted && OnFile(next)
      ensures ok && mode == Reconnect ==> Serving(candidate)
      ensures old(IsSound(candidate)) ==> IsSound(candidate)
    {
      hide Load, GoodBaseline, FileTried, FileGoes, MovedContent, ActiveOf, Torn, FileCommitted, SoundIn;
      p, ok := MoveFile(store, operation, expected, next.catalog, candidate, mode, script);
      MovedIsTried(script, mode, operation, expected, next.catalog, old(FileOf(store)), FileOf(store), p, ok,
                   store.baseline);
      if mode == Reconnect && old(IsSound(candidate)) {
        SoundWithTheseTasks(old(candidate.State()), candidate.State(), candidate.graph.providers);
      }
    }

    /** The file holds the new catalog, and its revision is marked as live. */
    predicate OnFile(next: RuntimeGeneration)
      reads store
    {
      ActiveOf(store.content, store.baseline) == Some(next.catalog) && store.runtimeActiveRevision == Some(next.catalog)
    }

    /**
     What a successful step on the collector leaves: it runs for the new generation, and a handover can be taken back.
     */
    ghost predicate CollectorMoved(next: RuntimeGeneration, collector: Coordinator?, candidate: Coordinator?,
                                   mode: Mode,
                                   token: CollectorReconciliation?, before: Option<View>)
      reads collector, candidate, token,
            if collector != null then {collector.graph} else {}, if candidate != null then {candidate.graph} else {},
            if token != null then {token.previous.graph} else {}
    {
      && OnTarget(LiveAfter(mode, collector, candidate), candidate, next, mode, before)
      && (token != null <==> mode == Reconcile)
      && (token != null ==> HandedOver(collector, candidate, token) && collector.Confirmed(token))
    }

    /** File, then collector. */
    method Advance(operation: Operation, expected: Content, next: RuntimeGeneration, candidate: Coordinator?,
                   names: Option<seq<Name>>, mode: Mode, script: Script, ghost was: Origin)
      returns (p: Progress, handover: Handover, ok: bool)
      requires mode == ModeOf(coordinator, candidate, names)
      requires Prepared(candidate, next, names) && was == Finds(candidate, names, script.handover)
      modifies store
      modifies match mode case NoCollector => {} case Reconcile => {coordinator, candidate, candidate.graph}
        case _ => {candidate}
      ensures Undoable(generations.current, coordinator, candidate, handover, mode, p, was.view,
                       FileGoes(script, mode, was.file, expected, operation, next.catalog, store.baseline) && was.stops)
      ensures FileTried(script, mode, operation, expected, next.catalog, was.file, FileOf(store), p, store.baseline)
      ensures ok == (FileGoes(script, mode, was.file, expected, operation, next.catalog, store.baseline) && was.goes)
      ensures ok ==>
        p.fileCommitted && OnFile(next) && CollectorMoved(next, coordinator, candidate, mode, handover.token, was.view)
      ensures handover.token != null ==> mode == Reconcile && (ok ==> fresh(handover.token))
      ensures was.sound && mode == Reconnect ==> IsSound(candidate)
      ensures candidate != null ==> candidate.graph == old(candidate.graph) && candidate.closed == was.closed
    {
      hide Load, GoodBaseline, FileTried, FileGoes, FileUndoable, ActiveOf, HandedOver, Prepared, ViewBefore,
           CollectorUndoable, OnTarget, CollectorGoes, StopsCollector, IsSound, BuiltApart, StateOf,
           Coordinator.Confirmed, Coordinator.Valid, Coordinator.StreamsKnown, Coordinator.Independent;
      handover := Handover(None, null);
      PreparedMeans(candidate, next, names);
      if mode in {NoCollector, Reconnect} {
        NoneToMove(coordinator, candidate, names, script.handover);
      }
      p, ok := AdvanceFile(operation, expected, next, candidate, mode, script);
      NothingToUndo(coordinator, candidate, names);
      if mode in {NoCollector, Reconnect} {
        NoneToMove(coordinator, candidate, names, script.handover);
      }
      if ok {
        handover, ok := Coordinate(coordinator, candidate, next, names, mode, script.handover);
      }
    }

    /** The point of no return is passed: file, marker, pointer and collector stand at the target. */
    ghost predicate Committed(next: RuntimeGeneration, collector: Coordinator?, candidate: Coordinator?, mode: Mode,
                              token: CollectorReconciliation?, before: Option<View>)
      reads this`coordinator, this`bound, this`collectorStartError, generations, store, collector, candidate, token,
            if collector != null then {collector.graph} else {}, if candidate != null then {candidate.graph} else {},
            if token != null then {token.previous.graph} else {}
    {
      && store.transitionId == None && OnFile(next)
      && generations.current == next && bound == next.dataState && collectorStartError == None
      && coordinator == LiveAfter(mode, collector, candidate)
      && CollectorMoved(next, collector, candidate, mode, token, before)
    }

    lemma CommittedIsAtTarget(operation: Operation, expected: Content, next: RuntimeGeneration, collector: Coordinator?,
                              candidate: Coordinator?, mode: Mode, token: CollectorReconciliation?, was: Origin)
      requires Committed(next, collector, candidate, mode, token, was.view)
      requires MovedContent(expected, operation, store.baseline) == Some(store.content)
      ensures FileAtTarget(operation, expected, next)
      ensures PointsBack(next, LiveAfter(mode, collector, candidate), None)
      ensures OnTarget(coordinator, candidate, next, mode, was.view)
      ensures token != null <==> mode == Reconcile
      ensures token != null ==> HandedOver(collector, candidate, token) && !candidate.closed
    {
      hide OnTarget, ActiveOf, MovedContent, Retirable;
    }

    /** The guarded block up to the commit of the lease, but for what it does to the price history. */
    method Try(operation: Operation, expected: Content, next: RuntimeGeneration, candidate: Coordinator?,
               names: Option<seq<Name>>, mode: Mode, script: Script, ghost was: Origin)
      returns (p: Progress, handover: Handover, committed: bool)
      requires mode == ModeOf(coordinator, candidate, names)
      requires Prepared(candidate, next, names) && was == Finds(candidate, names, script.handover)
      modifies this`coordinator, this`collectorStartError, this`bound, generations, store
      modifies match mode case NoCollector => {} case Reconcile => {coordinator, candidate, candidate.graph}
        case _ => {candidate}
      ensures FileTried(script, mode, operation, expected, next.catalog, was.file, FileOf(store), p, store.baseline)
      ensures if committed
              then p.fileCommitted && Committed(next, old(coordinator), candidate, mode, handover.token, was.view)
                   && (handover.token != null ==> fresh(handover.token))
              else Undoable(old(generations.current), old(coordinator), candidate, handover, mode, p, was.view,
                            FileGoes(script, mode, was.file, expected, operation, next.catalog, store.baseline)
                              && was.stops)
      ensures handover.token != null ==> mode == Reconcile
      ensures was.sound && mode == Reconnect ==> IsSound(candidate)
      ensures candidate != null ==> candidate.graph == old(candidate.graph) && candidate.closed == was.closed
      ensures committed == Goes(script, mode, was.file, expected, operation, next.catalog, store.baseline, was.goes)
    {
      hide Load, GoodBaseline, FileGoes, Prepared, Finds, Undoable, CollectorMoved, OnFile, Committed, IsSound,
           ActiveOf, FileTried;
      PreparedMeans(candidate, next, names);
      var ok;
      committed := false;
      p, handover, ok := Advance(operation, expected, next, candidate, names, mode, script, was);
      if ok {
        ghost var tried := FileOf(store);
        committed := Settle(p, next, candidate, handover, mode, script, was.view,
                            FileGoes(script, mode, was.file, expected, operation, next.catalog, store.baseline)
                              && was.stops);
        TriedWithoutLease(script, mode, operation, expected, next.catalog, was.file, tried, FileOf(store), p,
                          store.baseline);
      }
    }

    /** Publication, the last check of a handover, and the commit. */
    method Settle(p: Progress, next: RuntimeGeneration, candidate: Coordinator?, handover: Handover, mode: Mode,
                  script: Script,
                  ghost before: Option<View>, ghost stops: bool)
      returns (committed: bool)
      requires Undoable(generations.current, coordinator, candidate, handover, mode, p, before, stops)
      requires p.fileCommitted && OnFile(next)
        && CollectorMoved(next, coordinator, candidate, mode, handover.token, before)
      requires next.id != generations.current.id
      modifies this`coordinator, this`collectorStartError, this`bound, generations, store
      ensures p.token.Some? && FileOf(store).content == old(FileOf(store)).content
        && FileOf(store).marker == old(FileOf(store)).marker
      ensures committed == (!(mode == Reconcile && script.confirmFails) && !script.commitFails)
      ensures if committed then Committed(next, old(coordinator), candidate, mode, handover.token, before)
              else Undoable(old(generations.current), old(coordinator), candidate, handover, mode, p, before, stops)
    {
      hide Load, CollectorUndoable, CollectorMoved, Committed, ActiveOf, Coordinator.Confirmed;
      var collector := coordinator;
      ghost var kept: object := if handover.token != null then handover.token.previous.graph else store;
      assert handover.token != null ==> kept !in {this, generations, store};
      MovedIsConfirmed(next, collector, candidate, mode, handover.token, before);
      committed := PublishAndCommit(p, next, LiveAfter(mode, collector, candidate), handover.token, script);
      if committed {
        IsCommitted(next, collector, candidate, mode, handover.token, before);
      }
    }

    lemma IsCommitted(next: RuntimeGeneration, collector: Coordinator?, candidate: Coordinator?, mode: Mode,
                      token: CollectorReconciliation?, before: Option<View>)
      requires store.transitionId == None && OnFile(next)
        && CollectorMoved(next, collector, candidate, mode, token, before)
      requires PointsBack(next, LiveAfter(mode, collector, candidate), None)
      ensures Committed(next, collector, candidate, mode, token, before)
    {
      hide OnTarget, HandedOver, ActiveOf;
    }

    lemma MovedIsConfirmed(next: RuntimeGeneration, collector: Coordinator?, candidate: Coordinator?, mode: Mode,
                           token: CollectorReconciliation?, before: Option<View>)
      requires CollectorMoved(next, collector, candidate, mode, token, before)
      ensures token != null <==> mode == Reconcile
      ensures token != null ==> collector != null && collector.Confirmed(token)
    {
      hide OnTarget, Retirable;
    }

    /** The file is the moved one, its lease is free and its revision is marked as live. */
    predicate FileAtTarget(operation: Operation, expected: Content, next: RuntimeGeneration)
      reads store
    {
      && MovedContent(expected, operation, store.baseline) == Some(store.content)
      && FileOf(store) == FileView(store.content, None, Some(next.catalog))
      && ActiveOf(store.content, store.baseline) == Some(next.catalog)
    }

    /** The pointer, the data state, the live collector and its start error are those of before. */
    predicate PointsBack(previous: RuntimeGeneration, collector: Coordinator?, startError: Option<nat>)
      reads this, generations
    {
      generations.current == previous && bound == previous.dataState && coordinator == collector
        && collectorStartError == startError
    }

    /** The history holds what it would without the attempt, as far as the previous generation needs it. */
    ghost predicate HistoryIsBack(previous: RuntimeGeneration, script: Script, was: Origin)
      requires HistoryModel.WellFormed(was.history)
      reads this
    {
      HistoryRuns.HistoryKept(history, HistoryRuns.Unattempted(compute, was.history, script.traffic), script.traffic,
                              SymbolSet(previous.registry))
    }

    /** File, marker, pointer, history and collector stand at the target, and a replaced collector is retired. */
    ghost predicate Accomplished(operation: Operation, expected: Content, next: RuntimeGeneration,
                                 collector: Coordinator?,
                                 candidate: Coordinator?, mode: Mode, script: Script, was: Origin)
      requires HistoryModel.WellFormed(was.history)
      reads this, generations, store, coordinator, collector, candidate,
            if coordinator != null then {coordinator.graph} else {}
    {
      && FileAtTarget(operation, expected, next)
      && PointsBack(next, LiveAfter(mode, collector, candidate), None)
      && OnTarget(coordinator, candidate, next, mode, was.view)
      && (mode in {NoCollector, Reconnect} && collector != null ==> Retired(collector, was.state))
      && history == HistoryRuns.AfterSuccess(compute, was.history, script.traffic, SymbolSet(next.registry))
      && StoredBars.HistoryAdvanced(history, HistoryRuns.Unattempted(compute, was.history, script.traffic),
                                    script.traffic.archive, script.traffic.warm, SymbolSet(next.registry))
    }

    /**
     Pointer, history, lease and the collector with its streams are as before and a candidate of its own is stopped. The
     file and its marker are as before but for the exceptions FileAfterFailure names.
     */
    ghost predicate Undone(operation: Operation, expected: Content, next: RuntimeGeneration,
                           previous: RuntimeGeneration,
                           collector: Coordinator?, startError: Option<nat>, candidate: Coordinator?, mode: Mode,
                           script: Script, was: Origin, released: seq<Instance>)
      requires HistoryModel.WellFormed(was.history)
      reads this, generations, store, collector, candidate,
            if collector != null then {collector.graph} else {}, if candidate != null then {candidate.graph} else {}
    {
      && FileOf(store) == FileAfterFailure(script, mode, operation, expected, next.catalog, was.file, store.baseline)
      && PointsBack(previous, collector, startError) && HistoryIsBack(previous, script, was)
      && CollectorIsBack(collector, candidate, was.view, mode,
                         FileGoes(script, mode, was.file, expected, operation, next.catalog, store.baseline)
                           && was.stops)
      && (mode in {NoCollector, Reconnect} ==> StateOf(collector) == was.state)
      && CandidateStopped(collector, candidate, was.closed, released)
    }

    /**
     The file stays at the target, pointer and history are back, and one collector is retired while the other is
     stopped.
     */
    ghost predicate Escaped(operation: Operation, expected: Content, next: RuntimeGeneration,
                            previous: RuntimeGeneration,
                            collector: Coordinator?, startError: Option<nat>, candidate: Coordinator?, mode: Mode,
                            script: Script, was: Origin, released: seq<Instance>)
      requires HistoryModel.WellFormed(was.history)
      reads this, generations, store, collector, candidate,
            if collector != null then {collector.graph} else {}, if candidate != null then {candidate.graph} else {}
    {
      && FileAtTarget(operation, expected, next)
      && PointsBack(previous, collector, startError) && HistoryIsBack(previous, script, was)
      && Stranded(collector, candidate, next, mode, was.view, was.state)
      && CandidateStopped(collector, candidate, was.closed, released)
    }

    /** None of the adapters belongs to the collector's graph. */
    static predicate NoneOwned(released: seq<Instance>, collector: Coordinator?)
      reads collector, if collector != null then {collector.graph} else {}
    {
      collector != null ==> forall x :: x in released ==> !Owns(collector.graph.providers, collector.graph.routes, x)
    }

    /** A collector that is back is as sound as it was. */
    static lemma BackIsSound(collector: Coordinator?, candidate: Coordinator?, mode: Mode, stops: bool, was: Origin)
      requires mode in {Reuse, Reconcile} && was.view.Some? && SameView(was) && was.sound
      requires CollectorIsBack(collector, candidate, was.view, mode, stops)
      ensures IsSound(collector)
    {
      hide ValidTasks, LiveIn, Injective, TasksKept;
      collector.SoundMeans();
    }

    /** Whatever runs after the commit is as sound as what ran before. */
    static lemma TargetIsSound(collector: Coordinator?, active: Coordinator?, candidate: Coordinator?,
                               next: RuntimeGeneration,
                               mode: Mode, was: Origin)
      requires OnTarget(active, candidate, next, mode, was.view)
        && active == LiveAfter(mode, collector, candidate)
      requires was.sound && (mode in {NoCollector, Reconnect} ==> IsSound(active) && IsSound(collector))
      requires mode in {Reuse, Reconcile} ==> was.view.Some? && SameView(was)
      requires mode == Reuse ==> candidate == collector
      ensures IsSound(active) && IsSound(collector)
    {
      hide ValidTasks, LiveIn, Injective, TasksKept;
    }

    /** Stopping a candidate built apart closes no adapter of the graph the live collector has again. */
    static lemma StoppedIsForeign(collector: Coordinator?, candidate: Coordinator?, mode: Mode, stops: bool,
                                  was: Origin,
                                  released: seq<Instance>)
      requires CandidateStopped(collector, candidate, was.closed, released) && was.apart
      requires mode in {Reuse, Reconcile} ==>
        && was.view.Some? && SameView(was) && CollectorIsBack(collector, candidate, was.view, mode, stops)
        && (mode == Reuse ==> candidate == collector)
      requires mode !in {Reuse, Reconcile} ==> BuiltApart(collector, candidate)
      ensures NoneOwned(released, collector)
    {
      hide Routed, TasksKept, ValidTasks, LiveIn, SoundIn;
    }

    lemma IsUndone(operation: Operation, expected: Content, next: RuntimeGeneration, previous: RuntimeGeneration,
                   collector: Coordinator?, startError: Option<nat>, candidate: Coordinator?, mode: Mode,
                   script: Script, was: Origin,
                   stops: bool, released: seq<Instance>, attempted: HistoryModel.HistoryState, restores: bool)
      requires HistoryModel.WellFormed(was.history)
      requires FileOf(store)
        == FileAfterFailure(script, mode, operation, expected, next.catalog, was.file, store.baseline)
      requires PointsBack(previous, collector, startError)
        && CollectorIsBack(collector, candidate, was.view, mode, stops)
      requires stops == (FileGoes(script, mode, was.file, expected, operation, next.catalog, store.baseline)
                         && was.stops)
      requires attempted == HistoryRuns.Attempted(compute, was.history, script.traffic, restores)
      requires history == HistoryModel.Retain(attempted, SymbolSet(previous.registry))
      requires mode in {NoCollector, Reconnect} ==> StateOf(collector) == was.state
      requires CandidateStopped(collector, candidate, was.closed, released)
      ensures Undone(operation, expected, next, previous, collector, startError, candidate, mode, script, was, released)
      ensures HistoryModel.WellFormed(history)
    {
      hide FileAfterFailure, CollectorIsBack, FileGoes, CandidateStopped, StateOf, HistoryModel.WellFormed,
           HistoryModel.Retain,
           HistoryRuns.Attempted, HistoryRuns.Unattempted, HistoryRuns.HistoryKept;
      HistoryRuns.CutHistoryIsKept(compute, was.history, script.traffic, restores, SymbolSet(previous.registry));
      HistoryRuns.RetainIsWellFormed(attempted, SymbolSet(previous.registry));
    }

    /** The exception handler, and what it leaves. */
    method Fail(operation: Operation, expected: Content, next: RuntimeGeneration, previous: RuntimeGeneration,
                collector: Coordinator?, startError: Option<nat>, candidate: Coordinator?, handover: Handover,
                mode: Mode,
                p: Progress, script: Script, ghost was: Origin)
      returns (released: seq<Instance>)
      requires HistoryModel.WellFormed(was.history) && history == was.history
      requires FileTried(script, mode, operation, expected, next.catalog, was.file, FileOf(store), p, store.baseline)
      requires Undoable(previous, collector, candidate, handover, mode, p, was.view,
                        FileGoes(script, mode, was.file, expected, operation, next.catalog, store.baseline)
                          && was.stops)
      requires StandsStill(was, collector, candidate, mode)
      modifies this, generations, store
      modifies match mode case NoCollector => {} case Reconcile => {collector, candidate, candidate.graph}
        case _ => {candidate}
      ensures Undone(operation, expected, next, previous, collector, startError, candidate, mode, script, was, released)
      ensures PointsBack(previous, collector, startError)
      ensures was.sound ==> IsSound(collector)
      ensures was.apart ==> NoneOwned(released, collector)
      ensures HistoryModel.WellFormed(history)
    {
      hide Load, ActiveOf, Undoable, FileGoes, FileTried, FileRolledBack, FileAfterFailure, CollectorIsBack,
           CandidateStopped, SameView,
           NoneOwned, IsSound, StateOf, IsClosed, Apart, Undone, PointsBack, HistoryIsBack, HistoryModel.Retain,
           HistoryModel.WellFormed,
           HistoryRuns.HistoryKept, HistoryRuns.Attempted, HistoryRuns.Unattempted, SymbolSet;
      ghost var stops := FileGoes(script, mode, was.file, expected, operation, next.catalog, store.baseline)
        && was.stops;
      ghost var restores := p.token.Some? && !script.leaseCancelled;
      ghost var attempted, tried := HistoryRuns.Attempted(compute, history, script.traffic, restores), FileOf(store);
      released := RollBack(previous, collector, startError, candidate, handover, mode, p, script, was.view, stops,
                           attempted);
      RolledBackIsRestored(script, mode, operation, expected, next.catalog, was.file, tried, FileOf(store), p,
                           store.baseline);
      IsUndone(operation, expected, next, previous, collector, startError, candidate, mode, script, was, stops,
               released, attempted, restores);
      if was.sound && mode in {Reuse, Reconcile} {
        BackIsSound(collector, candidate, mode, stops, was);
      }
      if was.apart {
        StoppedIsForeign(collector, candidate, mode, stops, was, released);
      }
    }

    lemma IsAccomplished(operation: Operation, expected: Content, next: RuntimeGeneration, collector: Coordinator?,
                         candidate: Coordinator?, mode: Mode, script: Script, was: Origin,
                         attempted: HistoryModel.HistoryState)
      requires HistoryModel.WellFormed(was.history) && FileAtTarget(operation, expected, next)
      requires PointsBack(next, LiveAfter(mode, collector, candidate), None)
      requires OnTarget(coordinator, candidate, next, mode, was.view)
      requires mode in {NoCollector, Reconnect} && collector != null ==> Retired(collector, was.state)
      requires attempted == HistoryRuns.Attempted(compute, was.history, script.traffic, true)
      requires history == HistoryRuns.Warmed(compute, attempted, script.traffic.warm, SymbolSet(next.registry))
      ensures Accomplished(operation, expected, next, collector, candidate, mode, script, was)
        && HistoryModel.WellFormed(history)
    {
      hide FileAtTarget, OnTarget, Retired, HistoryModel.WellFormed, HistoryRuns.Warmed, HistoryRuns.Attempted,
           HistoryRuns.Unattempted, StoredBars.HistoryAdvanced, SymbolSet;
      StoredBars.SuccessAdvances(compute, was.history, script.traffic, SymbolSet(next.registry));
    }

    lemma IsEscaped(operation: Operation, expected: Content, next: RuntimeGeneration, previous: RuntimeGeneration,
                    collector: Coordinator?, startError: Option<nat>, candidate: Coordinator?, mode: Mode,
                    script: Script, was: Origin,
                    released: seq<Instance>, attempted: HistoryModel.HistoryState)
      requires HistoryModel.WellFormed(was.history) && FileAtTarget(operation, expected, next)
      requires PointsBack(previous, collector, startError)
        && CandidateStopped(collector, candidate, was.closed, released)
      requires candidate != null ==> candidate != collector && !was.closed
      requires if mode == Reconcile then candidate != null && OnTarget(collector, candidate, next, mode, was.view)
           && !candidate.ownsGraph
               else Retired(collector, was.state)
      requires attempted == HistoryRuns.Attempted(compute, was.history, script.traffic, true)
      requires history == HistoryModel.Retain(attempted, SymbolSet(previous.registry))
      ensures Escaped(operation, expected, next, previous, collector, startError, candidate, mode, script, was,
                      released)
      ensures HistoryModel.WellFormed(history)
    {
      hide FileAtTarget, OnTarget, Retired, Routed, HistoryModel.WellFormed, HistoryModel.Retain,
           HistoryRuns.Attempted, HistoryRuns.Unattempted, HistoryRuns.HistoryKept;
      HistoryRuns.CutHistoryIsKept(compute, was.history, script.traffic, true, SymbolSet(previous.registry));
      HistoryRuns.RetainIsWellFormed(attempted, SymbolSet(previous.registry));
    }

    /** Past the point of no return: what was replaced is retired, and the new generation gets its warm prices. */
    method AfterCommit(operation: Operation, expected: Content, next: RuntimeGeneration, previous: RuntimeGeneration,
                       collector: Coordinator?, startError: Option<nat>, candidate: Coordinator?,
                       token: CollectorReconciliation?, mode: Mode, script: Script, ghost was: Origin,
                       ghost attempted: HistoryModel.HistoryState)
      returns (outcome: Outcome, released: seq<Instance>)
      requires generations.current == next && next.id != previous.id && FileAtTarget(operation, expected, next)
      requires PointsBack(next, LiveAfter(mode, collector, candidate), None)
      requires OnTarget(coordinator, candidate, next, mode, was.view)
      requires HistoryModel.WellFormed(was.history)
        && attempted == HistoryRuns.Attempted(compute, was.history, script.traffic, true)
      requires (token != null <==> mode == Reconcile) && (token != null ==> HandedOver(collector, candidate, token))
      requires (candidate == null <==> mode == NoCollector)
        && (mode == Reuse <==> candidate != null && candidate == collector)
      requires mode in {Reconcile, Reconnect} ==> !candidate.closed
      requires StandsStill(was, collector, candidate, mode)
      modifies this, generations
      modifies if token != null then {token} else {}
      modifies if collector != null then {collector} else {}
      modifies if candidate != null then {candidate} else {}
      modifies if token != null then {candidate.graph} else {}
      ensures !outcome.Raised?
      ensures outcome.RaisedAfterCommit? <==>
        (mode == Reconcile || (collector != null && collector != candidate)) && Escapes(script.cleanup)
      ensures outcome.Completed? ==>
        Accomplished(operation, expected, next, collector, candidate, mode, script, was) && released == []
      ensures outcome.RaisedAfterCommit? ==>
        Escaped(operation, expected, next, previous, collector, startError, candidate, mode, script, was, released)
      ensures if outcome.Completed? then PointsBack(next, LiveAfter(mode, collector, candidate), None)
              else PointsBack(previous, collector, startError)
      ensures old(IsSound(coordinator) && IsSound(collector)) ==> IsSound(coordinator)
      ensures was.apart ==> NoneOwned(released, coordinator)
      ensures HistoryModel.WellFormed(history)
    {
      hide SameView, FileAtTarget, HistoryModel.WellFormed, HistoryRuns.Warmed, HistoryRuns.Attempted,
           HistoryModel.Retain,
           Accomplished, Escaped, Retirable, CandidateStopped, Retired, OnTarget, IsSound, StateOf, Owns, Apart,
           SymbolSet, NoneOwned, Coordinator.Sound, Coordinator.State, Coordinator.Target, Escapes;
      released := [];
      var escapes := Retire(collector, coordinator, token, script.cleanup);
      if !escapes {
        history := HistoryRuns.Warmed(compute, attempted, script.traffic.warm, SymbolSet(next.registry));
        IsAccomplished(operation, expected, next, collector, candidate, mode, script, was, attempted);
        NothingIsOwned(coordinator);
        return Completed, released;
      }
      released := EscapeAfterCommit(previous, collector, startError, candidate, token, next, was.view, attempted);
      IsEscaped(operation, expected, next, previous, collector, startError, candidate, mode, script, was, released,
                attempted);
      outcome := RaisedAfterCommit;
    }

    /** What follows a commit. */
    method Finish(operation: Operation, expected: Content, next: RuntimeGeneration, previous: RuntimeGeneration,
                  collector: Coordinator?, startError: Option<nat>, candidate: Coordinator?,
                  token: CollectorReconciliation?,
                  mode: Mode, p: Progress, script: Script, ghost was: Origin)
      returns (outcome: Outcome, released: seq<Instance>)
      requires Committed(next, collector, candidate, mode, token, was.view) && next.id != previous.id
      requires FileTried(script, mode, operation, expected, next.catalog, was.file, FileOf(store), p, store.baseline)
        && p.fileCommitted
      requires HistoryModel.WellFormed(was.history) && history == was.history
      requires (candidate == null <==> mode == NoCollector)
        && (mode == Reuse <==> candidate != null && candidate == collector)
      requires mode == Reconnect ==> !candidate.closed && (was.sound ==> IsSound(candidate))
      requires StandsStill(was, collector, candidate, mode)
      modifies this, generations
      modifies if token != null then {token} else {}
      modifies if collector != null then {collector} else {}
      modifies if candidate != null then {candidate} else {}
      modifies if token != null then {candidate.graph} else {}
      ensures !outcome.Raised?
      ensures outcome.RaisedAfterCommit? <==>
        (mode == Reconcile || (collector != null && collector != candidate)) && Escapes(script.cleanup)
      ensures outcome.Completed? ==>
        Accomplished(operation, expected, next, collector, candidate, mode, script, was) && released == []
      ensures outcome.RaisedAfterCommit? ==>
        Escaped(operation, expected, next, previous, collector, startError, candidate, mode, script, was, released)
      ensures if outcome.Completed? then PointsBack(next, LiveAfter(mode, collector, candidate), None)
              else PointsBack(previous, collector, startError)
      ensures was.sound ==> IsSound(coordinator)
      ensures was.apart ==> NoneOwned(released, coordinator)
      ensures HistoryModel.WellFormed(history)
    {
      hide Load, ActiveOf, FileTried, Accomplished, Escaped, Committed, FileAtTarget, Retirable, StateOf, BuiltApart,
           Coordinator.Sound, SameView, NoneOwned,
           OnTarget, Escapes, HistoryRuns.Attempted, HistoryModel.WellFormed;
      CommittedIsMoved(script, mode, operation, expected, next.catalog, was.file, FileOf(store), p, store.baseline);
      CommittedIsAtTarget(operation, expected, next, collector, candidate, mode, token, was);
      if was.sound {
        TargetIsSound(collector, coordinator, candidate, next, mode, was);
      }
      ghost var attempted := HistoryRuns.Attempted(compute, history, script.traffic, true);
      outcome, released :=
        AfterCommit(operation, expected, next, previous, collector, startError, candidate, token, mode, script, was,
                    attempted);
    }

    /**
     One activation. Without a failure after the commit it is all or nothing: either file, marker, runtime
     pointer and collector stand at the target, or pointer, history, lease and the collector with its streams are as
     before, the candidate is stopped and the file holds the captured bytes, unless the write broke after replacing
     the file or the restoring write broke.
     */
    method CommitCatalogActivation(operation: Operation, expected: Content, next: RuntimeGeneration,
                                   candidate: Coordinator?, names: Option<seq<Name>>, script: Script)
      returns (mode: Mode, outcome: Outcome, released: seq<Instance>)
      requires Prepared(candidate, next, names)
      modifies this, generations, store
      modifies if coordinator != null then {coordinator} else {}
      modifies if candidate != null then {candidate} else {}
      modifies if ModeOf(coordinator, candidate, names) == Reconcile then {candidate.graph} else {}
      ensures mode == ModeOf(old(coordinator), candidate, names)
      ensures !outcome.Raised? <==>
        Goes(script, mode, old(FileOf(store)), expected, operation, next.catalog, store.baseline,
             old(CollectorGoes(coordinator, candidate, names, script.handover)))
      ensures outcome.RaisedAfterCommit? <==>
        && !outcome.Raised? && (mode == Reconcile || (old(coordinator) != null && old(coordinator) != candidate))
        && Escapes(script.cleanup)
      ensures var was := old(Finds(candidate, names, script.handover));
        match outcome
        case Completed =>
          Accomplished(operation, expected, next, old(coordinator), candidate, mode, script, was) && released == []
        case Raised =>
          Undone(operation, expected, next, old(generations.current), old(coordinator), old(collectorStartError),
                 candidate, mode, script, was, released)
        case RaisedAfterCommit =>
          Escaped(operation, expected, next, old(generations.current), old(coordinator), old(collectorStartError),
                  candidate, mode, script, was, released)
      ensures var (live, other) := if outcome.Completed? then (next, old(generations.current))
        else (old(generations.current), next);
        generations.PublicationContext(Some(live.id)) == Some(live)
          && generations.PublicationContext(Some(other.id)) == None
      ensures old(BuiltApart(coordinator, candidate)) ==> NoneOwned(released, coordinator)
      ensures bound == generations.current.dataState && HistoryModel.WellFormed(history)
      ensures old(IsSound(coordinator) && IsSound(candidate)) ==> IsSound(coordinator)
    {
      hide Load, GoodBaseline, FileGoes, CollectorGoes, StopsCollector, FileTried, Goes, Undoable, Escapes,
           Accomplished, Escaped, Undone, Committed, Prepared, ViewBefore, StateOf, Apart, IsSound, SameView,
           NoneOwned, HistoryModel.WellFormed;
      PreparedMeans(candidate, next, names);
      ghost var was := Finds(candidate, names, script.handover);
      StandsAtFirst(candidate, names, script.handover);
      var previous, collector, startError := generations.current, coordinator, collectorStartError;
      mode := ModeOf(collector, candidate, names);
      var p, handover, committed := Try(operation, expected, next, candidate, names, mode, script, was);
      if !committed {
        released := Fail(operation, expected, next, previous, collector, startError, candidate, handover, mode, p,
                         script, was);
        outcome := Raised;
      } else {
        outcome, released :=
          Finish(operation, expected, next, previous, collector, startError, candidate, handover.token, mode, p,
                 script, was);
      }
    }
  }

  /** Activating a draft always changes the file, so a write broken on the wrong side leaves a different one behind. */
  lemma ActivatingChangesTheFile(content: Content, target: CatalogGeneration, baseline: seq<Definition>)
    requires MovedContent(content, Activation(target), baseline).Some?
    ensures MovedContent(content, Activation(target), baseline) != Some(content)
  {
    hide ReconcileGeneration, GoodGeneration, FromPolicy;
    var d := Load(content, baseline).value.document;
    assert d.staged.Some?;
    assert content.Encoded? && content.document.staged.Some?;
  }
}
