/**
 The catalog store: administrator edits under compare-and-swap, and the transition lease that keeps
 every other writer out while an activation is in progress.
 */
module CatalogStore {
  import opened Basics
  import opened Catalog
  import opened CatalogMigration
  import opened ManagedCatalog
  import opened CatalogEdits
  import opened CatalogAcceptance

  datatype Reply = Applied(document: Document) | Conflict | Refused | NotReadable

  /** The file after an edit; a refused edit leaves it as it was. */
  function AfterEdit(content: Content, edit: Edit, expected: Content, baseline: seq<Definition>): Content {
    var loaded := Load(content, baseline);
    if loaded == None || content != expected then content
    else
      var written := Apply(loaded.value.document, edit, baseline);
      if written == None then content else Encoded(written.value, 0)
  }

  function AfterEdits(content: Content, edits: seq<(Edit, Content)>, baseline: seq<Definition>): Content
    decreases |edits|
  {
    if edits == [] then content
    else AfterEdits(AfterEdit(content, edits[0].0, edits[0].1, baseline), edits[1..], baseline)
  }

  /** The bytes on disk are a document that keeps the shipped built-ins. */
  predicate KeptOnDisk(content: Content, baseline: seq<Definition>) {
    content.Encoded? && content.form == 0 && Kept(content.document, baseline)
  }

  lemma EditKeepsBuiltins(content: Content, edit: Edit, expected: Content, baseline: seq<Definition>)
    requires GoodBaseline(baseline)
    ensures var after := AfterEdit(content, edit, expected, baseline); after == content || KeptOnDisk(after, baseline)
  {
    hide GoodBaseline, Load, Apply, Kept;
    var loaded := Load(content, baseline);
    if loaded.Some? {
      LoadSettles(content, baseline);
      if Apply(loaded.value.document, edit, baseline).Some? {
        ApplyKeeps(loaded.value.document, edit, baseline);
      }
    }
  }

  /** No sequence of edits ever writes anything but the shipped built-ins with their shipped core. */
  lemma {:induction false} EditsKeepBuiltins(content: Content, edits: seq<(Edit, Content)>, baseline: seq<Definition>)
    requires GoodBaseline(baseline)
    ensures var after := AfterEdits(content, edits, baseline); after == content || KeptOnDisk(after, baseline)
    decreases |edits|
  {
    hide GoodBaseline, KeptOnDisk, AfterEdit;
    if edits != [] {
      EditKeepsBuiltins(content, edits[0].0, edits[0].1, baseline);
      EditsKeepBuiltins(AfterEdit(content, edits[0].0, edits[0].1, baseline), edits[1..], baseline);
    }
  }

  /** A written edit is what the edit says on what was read. */
  lemma EditWrites(content: Content, edit: Edit, baseline: seq<Definition>)
    requires GoodBaseline(baseline) && Load(content, baseline).Some?
    requires Apply(Load(content, baseline).value.document, edit, baseline).Some?
    ensures var d := Load(content, baseline).value.document;
            Kept(d, baseline) && Writes(d, edit, Apply(d, edit, baseline).value)
  {
    hide GoodBaseline, Load, Apply, Kept, Writes;
    LoadSettles(content, baseline);
    ApplyWrites(Load(content, baseline).value.document, edit, baseline);
  }

  /** Both edits of the file are accepted, the second on what the first has written. */
  predicate BothAccepted(content: Content, first: Edit, second: Edit, baseline: seq<Definition>) {
    var loaded := Load(content, baseline);
    && loaded.Some? && Apply(loaded.value.document, first, baseline).Some?
    && var again := Load(AfterEdit(content, first, content, baseline), baseline);
       again.Some? && Apply(again.value.document, second, baseline).Some?
  }

  /**
   Two updates of different custom instruments, one after the other through the file: the draft then holds the first
   item with the first change and the second item with the second change.
   */
  lemma TwoUpdatesSurvive(content: Content, a: Definition, x: Change, b: Definition, y: Change,
                          baseline: seq<Definition>)
    returns (changedA: Definition, changedB: Definition)
    requires GoodBaseline(baseline) && a.id != b.id && a.ownership == Custom && b.ownership == Custom
    requires BothAccepted(content, Update(a.id, x), Update(b.id, y), baseline)
    requires a in Draft(Load(content, baseline).value.document) && b in Draft(Load(content, baseline).value.document)
    ensures var once := AfterEdit(content, Update(a.id, x), content, baseline);
            var twice := AfterEdit(once, Update(b.id, y), once, baseline);
            && twice.Encoded? && changedA in Draft(twice.document) && changedB in Draft(twice.document)
            && IsChanged(a, changedA, x) && IsChanged(b, changedB, y)
  {
    hide GoodBaseline, Load, Apply, Kept, Writes, IsChanged;
    var d := Load(content, baseline).value.document;
    var m := Apply(d, Update(a.id, x), baseline).value;
    var once := AfterEdit(content, Update(a.id, x), content, baseline);
    assert once == Encoded(m, 0);
    EditWrites(content, Update(a.id, x), baseline);
    DraftIsDistinct(d, baseline);
    changedA := UpdateChanges(d, a.id, x, m, a);
    EditLeaves(d, Update(a.id, x), m, b);
    KeepsIdentity(a, changedA, x);
    var again := Load(once, baseline).value.document;
    CustomsAreRead(m, baseline, changedA, Update(a.id, x), d);
    CustomsAreRead(m, baseline, b, Update(a.id, x), d);
    EditWrites(once, Update(b.id, y), baseline);
    DraftIsDistinct(again, baseline);
    var n := Apply(again, Update(b.id, y), baseline).value;
    changedB := UpdateChanges(again, b.id, y, n, b);
    EditLeaves(again, Update(b.id, y), n, changedA);
  }

  lemma KeepsIdentity(before: Definition, after: Definition, change: Change)
    requires IsChanged(before, after, change)
    ensures after.id == before.id && after.ownership == before.ownership
  {
  }

  /** A custom item of a written draft is read back as it is. */
  lemma CustomsAreRead(m: Document, baseline: seq<Definition>, item: Definition, edit: Edit, d: Document)
    requires Load(Encoded(m, 0), baseline).Some? && item in Draft(m) && item.ownership == Custom
    requires edit.Update? && Writes(d, edit, m)
    ensures item in Draft(Load(Encoded(m, 0), baseline).value.document)
  {
    hide ReconcileGeneration, GoodGeneration, UpdatesOne;
    CustomSurvives(m.staged.value, baseline, item);
  }

  /** Rolling back twice restores the active and the last-known-good generation; a staged draft is gone. */
  lemma TwoRollbacksRestore(content: Content, baseline: seq<Definition>)
    requires GoodBaseline(baseline) && Load(content, baseline).Some?
      && Load(content, baseline).value.document.lastKnownGood.Some?
    ensures var d := Load(content, baseline).value.document;
            var once := AfterEdit(content, Rollback, content, baseline);
            var twice := AfterEdit(once, Rollback, once, baseline);
            Load(twice, baseline) == Some(Loaded(Document(d.active, None, d.lastKnownGood), false))
  {
    hide GoodBaseline, Load, AfterEdit;
    RollbackOnce(content, baseline);
    var once := AfterEdit(content, Rollback, content, baseline);
    RollbackOnce(once, baseline);
  }

  lemma RollbackOnce(content: Content, baseline: seq<Definition>)
    requires GoodBaseline(baseline) && Load(content, baseline).Some?
      && Load(content, baseline).value.document.lastKnownGood.Some?
    ensures var d := Load(content, baseline).value.document;
            Load(AfterEdit(content, Rollback, content, baseline), baseline)
              == Some(Loaded(Document(d.lastKnownGood.value, None, Some(d.active)), false))
  {
    var d := Load(content, baseline).value.document;
    var back := Document(d.lastKnownGood.value, None, Some(d.active));
    hide GoodBaseline, Load, SettledDocument, Apply;
    ApplyRollback(d, baseline);
    LoadedIsSettled(content, baseline);
    SettledRollback(d, baseline);
    SettledReadsBack(back, baseline);
  }

  lemma ApplyRollback(d: Document, baseline: seq<Definition>)
    requires d.lastKnownGood.Some?
    ensures Apply(d, Rollback, baseline) == Some(Document(d.lastKnownGood.value, None, Some(d.active)))
  {
    hide Updated, Archived, ReplacedStaged, Imported, Patched, StageDefinitions, ValidDefinition;
  }

  lemma SettledRollback(d: Document, baseline: seq<Definition>)
    requires SettledDocument(d, baseline) && d.lastKnownGood.Some?
    ensures SettledDocument(Document(d.lastKnownGood.value, None, Some(d.active)), baseline)
  {
    hide ReconcileGeneration, GoodGeneration, Preserves;
  }

  lemma SettledActivation(d: Document, baseline: seq<Definition>)
    requires SettledDocument(d, baseline) && d.staged.Some?
    ensures SettledDocument(Document(d.staged.value, None, Some(d.active)), baseline)
  {
    hide ReconcileGeneration, GoodGeneration, Preserves;
  }

  // ----- the store

  datatype Token = Token(content: Content, lease: nat)

  /** When a write breaks: before the file is replaced, or after it. */
  datatype WriteFault = NoFault | BeforeReplace | AfterReplace

  datatype Operation = Activation(target: CatalogGeneration) | RollingBack

  function EditOf(operation: Operation): Edit {
    match operation
    case Activation(target) => ActivateStaged(Some(target))
    case RollingBack => Rollback
  }

  class InstrumentPolicyStore {
    const baseline: seq<Definition>
    var content: Content
    var transitionId: Option<nat>
    /** Leases handed out so far; a lease identifier is never used again. */
    var leases: nat
    var startupRevision: Content
    var runtimeActiveRevision: Option<CatalogGeneration>

    constructor (baseline: seq<Definition>, content: Content)
      ensures this.baseline == baseline && this.content == content && transitionId == None && leases == 0
      ensures runtimeActiveRevision == var l := Load(content, baseline);
        if l == None then None else Some(l.value.document.active)
      ensures startupRevision == content
    {
      this.baseline, this.content, transitionId, leases, startupRevision := baseline, content, None, 0, content;
      var l := Load(content, baseline);
      runtimeActiveRevision := if l == None then None else Some(l.value.document.active);
    }

    /** Writes the migrated document once; refused while a transition is in progress. */
    method PersistMigration() returns (reply: Reply)
      modifies this`content, this`startupRevision, this`runtimeActiveRevision
      ensures transitionId.Some? || Load(old(content), baseline) == None ==>
        content == old(content) && startupRevision == old(startupRevision)
          && runtimeActiveRevision == old(runtimeActiveRevision)
      ensures transitionId == None && Load(old(content), baseline).Some? ==>
        content == if Load(old(content), baseline).value.needsWrite
          then Encoded(Load(old(content), baseline).value.document, 0) else old(content)
    {
      if transitionId.Some? {
        return Conflict;
      }
      var loaded := Load(content, baseline);
      if loaded == None {
        return NotReadable;
      }
      if loaded.value.needsWrite {
        content := Encoded(loaded.value.document, 0);
        startupRevision, runtimeActiveRevision := content, Some(loaded.value.document.active);
      }
      reply := Applied(loaded.value.document);
    }

    /** An administrator request. While a lease is held nothing is written. */
    method AdminEdit(edit: Edit, expected: Content) returns (reply: Reply)
      modifies this`content
      ensures content == if transitionId.Some? then old(content) else AfterEdit(old(content), edit, expected, baseline)
      ensures reply.Applied? ==>
        transitionId == None && Load(content, baseline).Some?
          && Load(content, baseline).value.document == reply.document
      ensures reply.Applied? || reply.NotReadable? || content == old(content)
      ensures reply.Applied? || content != old(content) ==>
        old(content) == expected && content.Encoded? && content.form == 0
      ensures (reply.Applied? || content != old(content)) && GoodBaseline(baseline) ==>
        Writes(Load(expected, baseline).value.document, edit, content.document)
      ensures GoodBaseline(baseline) && old(content) == expected && Load(expected, baseline).Some? ==>
        (reply.Refused? <==>
         !(Permits(edit, baseline) && HasOutcome(Load(expected, baseline).value.document, edit, baseline)))
    {
      hide GoodBaseline, Load, Apply, Writes, Kept, Permits, HasOutcome;
      var loaded := Load(content, baseline);
      if loaded == None {
        return NotReadable;
      }
      if content != expected {
        return Conflict;
      }
      ghost var good := GoodBaseline(baseline);
      if good {
        LoadSettles(content, baseline);
        AcceptedIff(loaded.value.document, edit, baseline);
      }
      var written := Apply(loaded.value.document, edit, baseline);
      if written == None {
        return Refused;
      }
      if transitionId.Some? {
        return Conflict;
      }
      if good {
        EditWrites(content, edit, baseline);
      }
      content := Encoded(written.value, 0);
      var back := Load(content, baseline);
      reply := if back == None then NotReadable else Applied(back.value.document);
    }

    /** Takes the lease on the exact content the caller expects. */
    method CaptureTransition(expected: Content) returns (token: Option<Token>)
      modifies this`transitionId, this`leases
      ensures token.Some? <==> old(transitionId) == None && Load(content, baseline).Some? && content == expected
      ensures token.Some? ==>
        token == Some(Token(content, old(leases))) && transitionId == Some(old(leases)) && leases == old(leases) + 1
      ensures token == None ==> transitionId == old(transitionId) && leases == old(leases)
    {
      if transitionId.Some? || Load(content, baseline) == None || content != expected {
        return None;
      }
      token := Some(Token(content, leases));
      transitionId := Some(leases);
      leases := leases + 1;
    }

    predicate Current(token: Token)
      reads this`transitionId
    {
      transitionId == Some(token.lease)
    }

    method CommitTransition(token: Token, expected: Content) returns (ok: bool)
      modifies this`transitionId
      ensures ok <==> old(Current(token)) && content == expected
      ensures transitionId == if ok then None else old(transitionId)
    {
      ok := Current(token) && content == expected;
      if ok {
        transitionId := None;
      }
    }

    method AbortTransition(token: Token) returns (ok: bool)
      modifies this`transitionId
      ensures ok == old(Current(token))
      ensures transitionId == if ok then None else old(transitionId)
    {
      ok := Current(token);
      if ok {
        transitionId := None;
      }
    }

    /** Puts the captured bytes back and releases the lease; the revision of the restored file on success. */
    method RestoreTransition(token: Token, expected: Content, fault: WriteFault) returns (restored: Option<Content>)
      modifies this`content, this`transitionId
      ensures restored.Some? <==>
        old(Current(token)) && old(content) == expected && Load(token.content, baseline).Some? && fault.NoFault?
      ensures restored.Some? ==> restored == Some(token.content) && transitionId == None
      ensures restored == None ==> transitionId == old(transitionId)
      ensures content ==
        if old(Current(token)) && old(content) == expected && Load(token.content, baseline).Some?
             && !fault.BeforeReplace?
        then token.content else old(content)
    {
      if Load(token.content, baseline) == None || !Current(token) || content != expected || fault.BeforeReplace? {
        return None;
      }
      content := token.content;
      if fault.AfterReplace? {
        return None;
      }
      transitionId := None;
      restored := Some(content);
    }

    /** The document a transition would write, if it is one that may be written now. */
    function Next(operation: Operation, expected: Content, token: Token): Option<Document>
      reads this`content, this`transitionId
    {
      var loaded := Load(content, baseline);
      if loaded == None || content != expected || (transitionId.Some? && !Current(token)) then None
      else Apply(loaded.value.document, EditOf(operation), baseline)
    }

    /** Moves the active pointer of the document; the new file revision when the caller learns of it. */
    method Move(operation: Operation, expected: Content, token: Token,
                fault: WriteFault) returns (snapshot: Option<Content>)
      modifies this`content
      ensures content == if old(Next(operation, expected, token)).Some? && !fault.BeforeReplace?
                         then Encoded(old(Next(operation, expected, token)).value, 0) else old(content)
      ensures snapshot == if old(Next(operation, expected, token)).Some? && fault.NoFault?
           && Load(content, baseline).Some?
                          then Some(content) else None
    {
      var next := Next(operation, expected, token);
      if next == None || fault.BeforeReplace? {
        return None;
      }
      content := Encoded(next.value, 0);
      if fault.AfterReplace? || Load(content, baseline) == None {
        return None;
      }
      snapshot := Some(content);
    }

    method ActiveGeneration() returns (active: Option<CatalogGeneration>)
      ensures active == var l := Load(content, baseline); if l == None then None else Some(l.value.document.active)
    {
      var l := Load(content, baseline);
      active := if l == None then None else Some(l.value.document.active);
    }

    /** Records a file revision as live, unless the file has moved on. */
    method MarkRuntimeApplied(revision: Content) returns (ok: bool)
      modifies this`startupRevision, this`runtimeActiveRevision
      ensures ok <==> content == revision && Load(content, baseline).Some?
      ensures ok ==>
        startupRevision == content && runtimeActiveRevision == Some(Load(content, baseline).value.document.active)
      ensures !ok ==> startupRevision == old(startupRevision) && runtimeActiveRevision == old(runtimeActiveRevision)
    {
      ok := false;
      if content == revision {
        var l := Load(content, baseline);
        if l.Some? {
          startupRevision, runtimeActiveRevision := content, Some(l.value.document.active);
          ok := true;
        }
      }
    }
  }

  /** From a readable file a transition writes one that can be read back and whose active generation is the target. */
  lemma MoveReadsBack(content: Content, operation: Operation, baseline: seq<Definition>)
    requires GoodBaseline(baseline) && Load(content, baseline).Some?
    requires Apply(Load(content, baseline).value.document, EditOf(operation), baseline).Some?
    ensures var d := Load(content, baseline).value.document;
            var next := Apply(d, EditOf(operation), baseline).value;
            && Load(Encoded(next, 0), baseline) == Some(Loaded(next, false))
            && next.lastKnownGood == Some(d.active)
            && (if operation.RollingBack? then Some(next.active) == d.lastKnownGood
                else next.active == operation.target && d.staged == Some(next.active))
  {
    hide GoodBaseline, Load, SettledDocument;
    var d := Load(content, baseline).value.document;
    LoadedIsSettled(content, baseline);
    match operation {
      case Activation(target) => SettledActivation(d, baseline);
      case RollingBack => SettledRollback(d, baseline);
    }
    SettledReadsBack(Apply(d, EditOf(operation), baseline).value, baseline);
  }
}
