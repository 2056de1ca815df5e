/**
 What an administrator's edit writes, field by field, told by the draft it was made on: the staged generation, or the
 active one while nothing is staged. Two edits one after the other both survive.
 */
module CatalogEdits {
  import opened Basics
  import opened SymbolGraph
  import opened Catalog
  import opened CatalogMigration
  import opened ManagedCatalog

  // ----- what an edit is to write

  /** A field takes the value an update names and keeps its own otherwise. */
  predicate Takes<T(==)>(change: Option<T>, before: T, after: T) {
    match change
    case Some(value) => after == value
    case None => after == before
  }

  predicate IsChanged(before: Definition, after: Definition, change: Change) {
    && after.id == before.id && after.ownership == before.ownership
    && Takes(change.symbol, before.symbol, after.symbol) && Takes(change.enabled, before.enabled, after.enabled)
    && Takes(change.archived, before.archived, after.archived) && Takes(change.aliases, before.aliases, after.aliases)
    && Takes(change.quotePollSeconds, before.quotePollSeconds, after.quotePollSeconds)
    && Takes(change.staleAfterSeconds, before.staleAfterSeconds, after.staleAfterSeconds)
    && Takes(change.history, before.history, after.history) && Takes(change.routes, before.routes, after.routes)
    && Takes(change.synthetic, before.synthetic, after.synthetic)
    && Takes(change.description, before.description, after.description)
  }

  predicate IsArchived(before: Definition, after: Definition) {
    before.ownership == Custom && after == before.(enabled := false, archived := true)
  }

  predicate HasPolicy(before: Definition, after: Definition, update: PolicyUpdate) {
    && after.enabled == update.enabled
    && Takes(update.quotePollSeconds, before.quotePollSeconds, after.quotePollSeconds)
    && Takes(update.staleAfterSeconds, before.staleAfterSeconds, after.staleAfterSeconds)
    && after == before.(enabled := after.enabled, quotePollSeconds := after.quotePollSeconds,
                        staleAfterSeconds := after.staleAfterSeconds)
  }

  /** The same list but for the place `i`. */
  predicate SameBut(before: seq<Definition>, after: seq<Definition>, i: int) {
    |after| == |before| && forall j :: 0 <= j < |before| && j != i ==> after[j] == before[j]
  }

  ghost predicate UpdatesOne(before: seq<Definition>, after: seq<Definition>, id: Ident, change: Change) {
    exists i ::
      && 0 <= i < |before| && before[i].id == id && SameBut(before, after, i) && IsChanged(before[i], after[i], change)
  }

  ghost predicate ArchivesOne(before: seq<Definition>, after: seq<Definition>, id: Ident) {
    exists i :: 0 <= i < |before| && before[i].id == id && SameBut(before, after, i) && IsArchived(before[i], after[i])
  }

  predicate IsNamed(updates: seq<PolicyUpdate>, symbol: Symbol) {
    exists u :: 0 <= u < |updates| && updates[u].symbol == symbol
  }

  /** A named item has the given switch and intervals, any other is as before. */
  ghost predicate PolicyAt(before: Definition, after: Definition, updates: seq<PolicyUpdate>) {
    && (!IsNamed(updates, before.symbol) ==> after == before)
    && forall u :: 0 <= u < |updates| && updates[u].symbol == before.symbol ==> HasPolicy(before, after, updates[u])
  }

  /** Exactly the named symbols have the given switch and intervals; each is named once and all of them are there. */
  ghost predicate AppliesPolicy(before: seq<Definition>, after: seq<Definition>, updates: seq<PolicyUpdate>) {
    && |after| == |before|
    && (forall u, v :: 0 <= u < v < |updates| ==> updates[u].symbol != updates[v].symbol)
    && (forall u :: 0 <= u < |updates| ==> exists i :: 0 <= i < |before| && before[i].symbol == updates[u].symbol)
    && (forall i :: 0 <= i < |before| ==> PolicyAt(before[i], after[i], updates))
  }

  /** The last imported item of its identifier. */
  predicate IsLastImport(items: seq<Definition>, d: Definition) {
    exists i :: 0 <= i < |items| && items[i] == d && forall j :: i < j < |items| ==> items[j].id != d.id
  }

  predicate IsImported(items: seq<Definition>, id: Ident) {
    exists i :: 0 <= i < |items| && items[i].id == id
  }

  /** The last import of every identifier, and of the draft what is not imported: all of it, or its built-ins. */
  ghost predicate Imports(before: seq<Definition>, after: seq<Definition>, items: seq<Definition>, mode: ImportMode) {
    forall d :: d in after <==>
      IsLastImport(items, d) || (d in before && (mode == Merge || d.ownership == Builtin) && !IsImported(items, d.id))
  }

  /** Only the draft changes. */
  predicate Drafts(d: Document, after: Document) {
    after.active == d.active && after.lastKnownGood == d.lastKnownGood && after.staged.Some?
  }

  /** The list edits are made on: the staged generation, or the active one while nothing is staged. */
  function Draft(d: Document): seq<Definition> {
    match d.staged
    case Some(g) => g.instruments
    case None => d.active.instruments
  }

  ghost predicate Writes(d: Document, edit: Edit, after: Document) {
    var draft := Draft(d);
    match edit
    case Create(item, uuid) =>
      Drafts(d, after) && after.staged.value.instruments == draft + [item.(id := CustomId(uuid), ownership := Custom)]
    case Update(id, change) => Drafts(d, after) && UpdatesOne(draft, after.staged.value.instruments, id, change)
    case Archive(id) => Drafts(d, after) && ArchivesOne(draft, after.staged.value.instruments, id)
    case ReplaceStaged(candidate) => Drafts(d, after) && after.staged == Some(candidate)
    case Import(items, mode) => Drafts(d, after) && Imports(draft, after.staged.value.instruments, items, mode)
    case StagePatch(updates) => Drafts(d, after) && AppliesPolicy(draft, after.staged.value.instruments, updates)
    case Patch(updates) =>
      && AppliesPolicy(d.active.instruments, after.active.instruments, updates)
      && after.staged == d.staged && after.lastKnownGood == Some(d.active)
    case ActivateStaged(expected) =>
      && d.staged == Some(after.active) && (expected.Some? ==> expected == d.staged)
      && after.staged == None && after.lastKnownGood == Some(d.active)
    case Rollback =>
      d.lastKnownGood == Some(after.active) && after.staged == None && after.lastKnownGood == Some(d.active)
  }

  // ----- every accepted edit writes just that

  lemma ChangedIs(d: Definition, change: Change)
    ensures IsChanged(d, Changed(d, change), change)
  {
  }

  lemma PolicyAppliedIs(d: Definition, update: PolicyUpdate)
    ensures HasPolicy(d, PolicyApplied(d, update), update) && PolicyApplied(d, update).symbol == d.symbol
  {
  }

  lemma ReplacedIsSameBut(items: seq<Definition>, i: nat, item: Definition)
    requires i < |items|
    ensures SameBut(items, items[i := item], i)
  {
  }

  lemma {:induction false} PolicyOnApplies(items: seq<Definition>, updates: seq<PolicyUpdate>, installed: set<Symbol>)
    requires DistinctSymbols(items) && PolicyOn(items, updates, installed).Some?
    ensures AppliesPolicy(items, PolicyOn(items, updates, installed).value, updates)
    ensures forall u :: 0 <= u < |updates| ==> updates[u].symbol in installed
    decreases |updates|
  {
    hide ValidDefinition, PolicyApplied, HasPolicy, PolicyAt;
    if updates == [] {
      NoPolicy(items);
    } else {
      var update, rest := updates[0], updates[1..];
      var index := IndexOfSymbol(items, update.symbol).value;
      var patched := PolicyApplied(items[index], update);
      PolicyAppliedIs(items[index], update);
      PolicyOnApplies(items[index := patched], rest, installed - {update.symbol});
      PolicyStep(items, index, patched, PolicyOn(items, updates, installed).value, update, rest);
      assert updates == [update] + rest;
    }
  }

  lemma NoPolicy(items: seq<Definition>)
    ensures AppliesPolicy(items, items, [])
  {
  }

  lemma PolicyStep(items: seq<Definition>, index: nat, patched: Definition, after: seq<Definition>,
                   update: PolicyUpdate,
                   rest: seq<PolicyUpdate>)
    requires DistinctSymbols(items) && index < |items| && items[index].symbol == update.symbol == patched.symbol
    requires HasPolicy(items[index], patched, update) && AppliesPolicy(items[index := patched], after, rest)
    requires forall u :: 0 <= u < |rest| ==> rest[u].symbol != update.symbol
    ensures AppliesPolicy(items, after, [update] + rest)
  {
    hide HasPolicy, PolicyAt;
    var middle, updates := items[index := patched], [update] + rest;
    assert forall u :: 1 <= u < |updates| ==> updates[u] == rest[u - 1];
    forall u | 0 <= u < |updates| ensures exists i :: 0 <= i < |items| && items[i].symbol == updates[u].symbol {
      if u > 0 {
        var i :| 0 <= i < |middle| && middle[i].symbol == rest[u - 1].symbol;
        assert items[i].symbol == updates[u].symbol;
      } else {
        assert items[index].symbol == updates[u].symbol;
      }
    }
    forall i | 0 <= i < |items| ensures PolicyAt(items[i], after[i], updates) {
      assert PolicyAt(middle[i], after[i], rest);
      if i == index {
        UnnamedStays(patched, after[i], rest);
        PolicyAtNamed(items[i], patched, update, rest);
      } else {
        PolicyAtOther(items[i], after[i], update, rest);
      }
    }
  }

  lemma UnnamedStays(before: Definition, after: Definition, updates: seq<PolicyUpdate>)
    requires PolicyAt(before, after, updates)
    requires forall u :: 0 <= u < |updates| ==> updates[u].symbol != before.symbol
    ensures after == before
  {
  }

  lemma PolicyAtNamed(before: Definition, after: Definition, update: PolicyUpdate, rest: seq<PolicyUpdate>)
    requires before.symbol == update.symbol && HasPolicy(before, after, update)
    requires forall u :: 0 <= u < |rest| ==> rest[u].symbol != before.symbol
    ensures PolicyAt(before, after, [update] + rest)
  {
    hide HasPolicy;
    var updates := [update] + rest;
    assert updates[0] == update && forall u :: 1 <= u < |updates| ==> updates[u] == rest[u - 1];
  }

  lemma PolicyAtOther(before: Definition, after: Definition, update: PolicyUpdate, rest: seq<PolicyUpdate>)
    requires before.symbol != update.symbol && PolicyAt(before, after, rest)
    ensures PolicyAt(before, after, [update] + rest)
  {
    hide HasPolicy;
    var updates := [update] + rest;
    assert updates[0] == update && forall u :: 1 <= u < |updates| ==> updates[u] == rest[u - 1];
    if u :| 0 <= u < |rest| && rest[u].symbol == before.symbol {
      assert updates[u + 1].symbol == before.symbol;
    }
  }

  /** Putting an item in replaces the one of its identifier and leaves the others. */
  lemma PutItemContents(items: seq<Definition>, item: Definition)
    requires DistinctIds(items)
    ensures DistinctIds(PutItem(items, item))
    ensures forall d :: d in PutItem(items, item) <==> d == item || (d in items && d.id != item.id)
  {
    var index, put := IndexOf(items, item.id), PutItem(items, item);
    if index == None {
      assert forall d :: d in put <==> d in items || d == item;
      forall i, j | 0 <= i < j < |put| ensures put[i].id != put[j].id {
        if j == |items| {
          assert put[i] in items;
        }
      }
    } else {
      var k := index.value;
      forall d | d in items && d.id != item.id ensures d in put {
        var i :| 0 <= i < |items| && items[i] == d;
        assert put[i] == d;
      }
      forall d | d in put ensures d == item || (d in items && d.id != item.id) {
        var i :| 0 <= i < |put| && put[i] == d;
        if i != k {
          assert items[i] == d;
        }
      }
      assert put[k] == item;
    }
  }

  lemma {:induction false} PutItemsContents(base: seq<Definition>, items: seq<Definition>)
    requires DistinctIds(base)
    ensures DistinctIds(PutItems(base, items))
    ensures forall d :: d in PutItems(base, items) <==>
      IsLastImport(items, d) || (d in base && !IsImported(items, d.id))
    decreases |items|
  {
    hide PutItem, DistinctIds, IsLastImport, IsImported;
    if items == [] {
      NothingImported();
    } else {
      var n := |items| - 1;
      var front, last := items[..n], items[n];
      assert items == front + [last];
      PutItemsContents(base, front);
      PutItemContents(PutItems(base, front), last);
      forall d ensures IsLastImport(items, d) <==> d == last || (d.id != last.id && IsLastImport(front, d))
               ensures IsImported(items, d.id) <==> d.id == last.id || IsImported(front, d.id)
      {
        ImportedSnoc(front, last, d);
      }
    }
  }

  lemma NothingImported()
    ensures forall d :: !IsLastImport([], d)
    ensures forall id :: !IsImported([], id)
  {
  }

  lemma ImportedSnoc(front: seq<Definition>, last: Definition, d: Definition)
    ensures IsLastImport(front + [last], d) <==> d == last || (d.id != last.id && IsLastImport(front, d))
    ensures IsImported(front + [last], d.id) <==> d.id == last.id || IsImported(front, d.id)
  {
    var items := front + [last];
    assert items[|front|] == last && forall j :: 0 <= j < |front| ==> items[j] == front[j];
  }

  lemma {:induction false} BuiltinsAreDistinct(items: seq<Definition>)
    requires DistinctIds(items)
    ensures DistinctIds(Builtins(items))
    decreases |items|
  {
    if items != [] {
      BuiltinsAreDistinct(items[1..]);
      var rest := Builtins(items[1..]);
      forall j | 0 <= j < |rest| ensures rest[j].id != items[0].id {
        assert rest[j] in items[1..];
        var k :| 0 <= k < |items[1..]| && items[1..][k] == rest[j];
        assert items[k + 1] == rest[j];
      }
    }
  }

  lemma ImportedIs(d: Document, items: seq<Definition>, mode: ImportMode)
    requires DistinctIds(StagedBase(d).instruments) && Imported(d, items, mode).Some?
    ensures Writes(d, Import(items, mode), Imported(d, items, mode).value)
  {
    hide DistinctIds, PutItems, IsLastImport, IsImported, Admissible, ValidDefinition, ImportAllowed, Builtins;
    BuiltinsAreDistinct(StagedBase(d).instruments);
    PutItemsContents(ImportBase(d, mode), items);
  }

  lemma UpdatedIs(d: Document, id: Ident, change: Change)
    requires Updated(d, id, change).Some?
    ensures Writes(d, Update(id, change), Updated(d, id, change).value)
  {
    hide Changed, IsChanged, Admissible, ValidDefinition, UpdateAllowed, SameBut;
    var items := StagedBase(d).instruments;
    var index := IndexOf(items, id).value;
    ChangedIs(items[index], change);
    ReplacedIsSameBut(items, index, Changed(items[index], change));
  }

  lemma ArchivedIs(d: Document, id: Ident)
    requires Archived(d, id).Some?
    ensures Writes(d, Archive(id), Archived(d, id).value)
  {
    hide Admissible, SameBut;
    var items := StagedBase(d).instruments;
    var index := IndexOf(items, id).value;
    ReplacedIsSameBut(items, index, items[index].(enabled := false, archived := true));
  }

  lemma PatchedIs(g: CatalogGeneration, updates: seq<PolicyUpdate>, baseline: seq<Definition>)
    requires GoodGeneration(g) && Patched(g, updates, baseline).Some?
    ensures AppliesPolicy(g.instruments, Patched(g, updates, baseline).value.instruments, updates)
  {
    hide ValidDefinition, AppliesPolicy, PolicyOn, DistinctSymbols, Once, Names, DistinctIds;
    OnceNamedIsDistinct(g.instruments);
    PolicyOnApplies(g.instruments, updates, set d | d in baseline :: d.symbol);
  }

  /** Every edit the store accepts on a document it keeps writes exactly what the edit says. */
  lemma ApplyWrites(d: Document, edit: Edit, baseline: seq<Definition>)
    requires Kept(d, baseline) && Apply(d, edit, baseline).Some?
    ensures Writes(d, edit, Apply(d, edit, baseline).value)
  {
    hide Updated, Archived, Imported, Patched, ValidDefinition, Preserves, Admissible, UpdatesOne, ArchivesOne, Imports,
         AppliesPolicy;
    match edit
    case Update(id, change) => UpdatedIs(d, id, change);
    case Archive(id) => ArchivedIs(d, id);
    case Import(items, mode) =>
      DraftIsDistinct(d, baseline);
      ImportedIs(d, items, mode);
    case StagePatch(updates) => PatchedIs(StagedBase(d), updates, baseline);
    case Patch(updates) => PatchedIs(d.active, updates, baseline);
    case _ =>
  }

  lemma DraftIsDistinct(d: Document, baseline: seq<Definition>)
    requires Kept(d, baseline)
    ensures DistinctIds(StagedBase(d).instruments)
  {
  }

  // ----- edits one after the other

  /** The edit does not name the item. */
  predicate Leaves(edit: Edit, item: Definition) {
    match edit
    case Create(_, _) => true
    case Update(id, _) => id != item.id
    case Archive(id) => id != item.id
    case Import(items, mode) => !IsImported(items, item.id) && (mode == Merge || item.ownership == Builtin)
    case StagePatch(updates) => !IsNamed(updates, item.symbol)
    case _ => false
  }

  /** What an edit does not name stays in the draft as it was. */
  lemma EditLeaves(d: Document, edit: Edit, after: Document, item: Definition)
    requires Writes(d, edit, after) && item in Draft(d) && Leaves(edit, item)
    ensures item in Draft(after)
  {
    hide IsChanged, IsArchived, HasPolicy, IsImported, IsLastImport, IsNamed;
    var i :| 0 <= i < |Draft(d)| && Draft(d)[i] == item;
    match edit
    case Create(added, uuid) => assert Draft(after)[i] == item;
    case Update(id, change) =>
      var k :| 0 <= k < |Draft(d)| && Draft(d)[k].id == id && SameBut(Draft(d), Draft(after), k);
      assert Draft(after)[i] == item;
    case Archive(id) =>
      var k :| 0 <= k < |Draft(d)| && Draft(d)[k].id == id && SameBut(Draft(d), Draft(after), k);
      assert Draft(after)[i] == item;
    case Import(items, mode) =>
    case StagePatch(updates) =>
      assert PolicyAt(Draft(d)[i], Draft(after)[i], updates);
    case _ =>
  }

  /** The one item of its identifier that an update changes. */
  lemma UpdateChanges(d: Document, id: Ident, change: Change, after: Document, item: Definition)
    returns (changed: Definition)
    requires Writes(d, Update(id, change), after) && DistinctIds(Draft(d)) && item in Draft(d) && item.id == id
    ensures changed in Draft(after) && IsChanged(item, changed, change)
  {
    var i :| 0 <= i < |Draft(d)| && Draft(d)[i].id == id && SameBut(Draft(d), Draft(after), i)
             && IsChanged(Draft(d)[i], Draft(after)[i], change);
    var k :| 0 <= k < |Draft(d)| && Draft(d)[k] == item;
    changed := Draft(after)[i];
  }

  lemma {:induction false} CustomSurvives(g: CatalogGeneration, baseline: seq<Definition>, item: Definition)
    requires ReconcileGeneration(g, baseline).Some? && item in g.instruments && item.ownership == Custom
    ensures item in ReconcileGeneration(g, baseline).value.instruments
  {
    hide Missing, BuiltinIds, Admissible, ValidDefinition, Merged;
    var i :| 0 <= i < |g.instruments| && g.instruments[i] == item;
    assert ReconcileItems(g.instruments, baseline).value[i] == item;
  }

  // ----- what every kept item is

  /**
   Of a built-in only the switch, the two intervals, the history settings and the routes may differ from the shipped
   one.
   */
  lemma SameCoreIff(a: Definition, b: Definition)
    ensures SameCore(a, b) <==>
      && a.id == b.id && a.symbol == b.symbol && a.ownership == b.ownership && a.archived == b.archived
      && a.aliases == b.aliases && a.synthetic == b.synthetic && a.description == b.description
  {
  }

  /** The rules every item of a kept document meets, one by one. */
  lemma KeptItemsAreValid(d: Document, baseline: seq<Definition>, item: Definition)
    requires Kept(d, baseline) && (item in Draft(d) || item in d.active.instruments)
    ensures item.ownership == Builtin <==> item.id.BuiltinId?
    ensures item.ownership == Builtin ==> exists shipped :: shipped in baseline && SameCore(shipped, item)
    ensures !(item.archived && item.enabled) && item.staleAfterSeconds >= item.quotePollSeconds
    ensures (forall i, j :: 0 <= i < j < |item.aliases| ==> item.aliases[i] != item.aliases[j])
      && item.symbol !in item.aliases
    ensures forall i, j :: 0 <= i < j < |item.routes| ==> item.routes[i].capability != item.routes[j].capability
    ensures forall route :: route in item.routes ==>
      1 <= |route.providers| <= 4
      && forall i, j :: 0 <= i < j < |route.providers| ==> route.providers[i] != route.providers[j]
    ensures item.synthetic.Some? ==>
      var inputs := item.synthetic.value;
      1 <= |inputs| <= 2 && item.symbol !in inputs && (|inputs| == 2 ==> inputs[0] != inputs[1])
  {
    hide Admissible, SameCore;
    assert ValidDefinition(item);
    if item.ownership == Builtin {
      var shipped := ById(baseline, item.id).value;
      assert shipped in baseline && SameCore(shipped, item);
    }
  }
}
