/**
 When an administrator's edit is accepted: exactly when some document it may write keeps the rules of the catalog.
 Whether a generation is admissible depends on its instruments and not on their order.
 */
module CatalogAcceptance {
  import opened Basics
  import opened SymbolGraph
  import opened Catalog
  import opened CatalogMigration
  import opened ManagedCatalog
  import opened CatalogEdits

  // ----- a generation is judged by its contents

  function OwnNames(d: Definition): seq<Symbol> {
    [d.symbol] + d.aliases
  }

  /** No instrument names itself twice and no two share a name. */
  ghost predicate NamesApart(items: seq<Definition>) {
    && (forall d :: d in items ==> Once(OwnNames(d)))
    && forall d, e, name :: d in items && e in items && name in OwnNames(d) && name in OwnNames(e) ==> d == e
  }

  lemma {:induction false} NameIsSomeones(items: seq<Definition>, name: Symbol)
    ensures name in Names(items) <==> exists d :: d in items && name in OwnNames(d)
    decreases |items|
  {
    if items != [] {
      var front, last := items[..|items| - 1], items[|items| - 1];
      NameIsSomeones(front, name);
      assert items == front + [last];
      assert name in Names(items) <==> name in Names(front) || name in OwnNames(last);
    }
  }

  lemma OnceJoined<T>(a: seq<T>, b: seq<T>)
    ensures Once(a + b) <==> Once(a) && Once(b) && forall x :: x in a ==> x !in b
  {
    var c := a + b;
    assert forall i :: 0 <= i < |a| ==> c[i] == a[i];
    assert forall j :: 0 <= j < |b| ==> c[|a| + j] == b[j];
    if x :| x in a && x in b {
      var i :| 0 <= i < |a| && a[i] == x;
      var j :| 0 <= j < |b| && b[j] == x;
      assert c[i] == c[|a| + j];
    } else if Once(a) && Once(b) {
      forall i, j | 0 <= i < j < |c| ensures c[i] != c[j] {
        assert i < |a| ==> c[i] in a;
        assert j >= |a| ==> c[j] == b[j - |a|] && c[j] in b;
        assert i >= |a| ==> c[i] == b[i - |a|];
      }
    }
  }

  /** Every name is declared once exactly when no instrument repeats one and no two share one. */
  lemma {:induction false} NamesOnceIff(items: seq<Definition>)
    requires DistinctIds(items)
    ensures Once(Names(items)) <==> NamesApart(items)
    decreases |items|
  {
    hide Names, Once, OwnNames, DistinctIds;
    if items == [] {
      NoNames();
    } else {
      var front, last := items[..|items| - 1], items[|items| - 1];
      assert items == front + [last];
      LastIsNew(front, last);
      NamesOnceIff(front);
      NamesOfSnoc(front, last);
      OnceJoined(Names(front), OwnNames(last));
      forall name ensures name in Names(front) <==> exists d :: d in front && name in OwnNames(d) {
        NameIsSomeones(front, name);
      }
    }
  }

  lemma NoNames()
    ensures Once(Names([])) && NamesApart([])
  {
  }

  lemma LastIsNew(front: seq<Definition>, last: Definition)
    requires DistinctIds(front + [last])
    ensures DistinctIds(front) && last !in front
  {
    var items := front + [last];
    assert forall i :: 0 <= i < |front| ==> items[i] == front[i];
    assert items[|front|] == last;
  }

  lemma NamesOfSnoc(front: seq<Definition>, last: Definition)
    ensures Names(front + [last]) == Names(front) + OwnNames(last)
  {
    assert (front + [last])[..|front|] == front;
  }

  function Customs(items: seq<Definition>): set<Definition> {
    set d | d in items && d.ownership == Custom
  }

  lemma {:induction false} CustomsCounted(items: seq<Definition>)
    requires DistinctIds(items)
    ensures CustomCount(items) == |Customs(items)|
    decreases |items|
  {
    if items != [] {
      var front, last := items[..|items| - 1], items[|items| - 1];
      assert items == front + [last];
      LastIsNew(front, last);
      CustomsCounted(front);
      assert Customs(items) == Customs(front) + if last.ownership == Custom then {last} else {};
    }
  }

  ghost predicate SameContents(a: seq<Definition>, b: seq<Definition>) {
    forall d :: d in a <==> d in b
  }

  lemma SameRecipes(a: seq<Definition>, b: seq<Definition>)
    requires SameContents(a, b) && DistinctSymbols(a) && DistinctSymbols(b)
    ensures Recipes(a) == Recipes(b) && ActiveSymbols(a) == ActiveSymbols(b)
  {
    RecipesAre(a);
    RecipesAre(b);
    var x, y := Recipes(a), Recipes(b);
    forall s, inputs ensures (s, inputs) in x.Items <==> (s, inputs) in y.Items {
      assert Prescribes(a, s, inputs) <==> Prescribes(b, s, inputs);
    }
    hide Recipes, Prescribes;
    forall s ensures s in x <==> s in y
             ensures s in x ==> x[s] == y[s]
    {
      if s in x {
        assert (s, x[s]) in y.Items;
      }
      if s in y {
        assert (s, y[s]) in x.Items;
      }
    }
  }

  /** The order of the instruments does not matter. */
  lemma AdmissibleByContents(a: seq<Definition>, b: seq<Definition>)
    requires SameContents(a, b) && DistinctIds(a) && DistinctIds(b)
    ensures Admissible(a) <==> Admissible(b)
  {
    hide DistinctIds, Once, Names, Recipes, ActiveSymbols, InputsAvailable, HasChain, CustomCount, GraphOf;
    NamesOnceIff(a);
    NamesOnceIff(b);
    assert NamesApart(a) <==> NamesApart(b);
    CustomsCounted(a);
    CustomsCounted(b);
    assert Customs(a) == Customs(b);
    if NamesApart(a) {
      OnceNamedIsDistinct(a);
      OnceNamedIsDistinct(b);
      SameRecipes(a, b);
    }
    assert a == [] <==> b == [] by { EmptyByContents(a, b); }
  }

  lemma EmptyByContents(a: seq<Definition>, b: seq<Definition>)
    requires SameContents(a, b)
    ensures a == [] <==> b == []
  {
    if a != [] {
      assert a[0] in b;
    }
    if b != [] {
      assert b[0] in a;
    }
  }

  // ----- when an edit is accepted

  /** What an edit must meet besides: policies name installed symbols only, each imported item is valid by itself. */
  ghost predicate Permits(edit: Edit, baseline: seq<Definition>) {
    match edit
    case Import(items, _) => forall item :: item in items ==> MayStand(item, baseline)
    case StagePatch(updates) => AllInstalled(updates, baseline)
    case Patch(updates) => AllInstalled(updates, baseline)
    case _ => true
  }

  ghost predicate AllInstalled(updates: seq<PolicyUpdate>, baseline: seq<Definition>) {
    forall u :: 0 <= u < |updates| ==> exists b :: b in baseline && b.symbol == updates[u].symbol
  }

  /** Valid, and with the core of a shipped instrument if it is a built-in. */
  ghost predicate MayStand(item: Definition, baseline: seq<Definition>) {
    ValidDefinition(item) && (item.ownership == Builtin ==> exists b :: b in baseline && SameCore(b, item))
  }

  /** Some document the edit may write holds valid generations of exactly the shipped built-ins. */
  ghost predicate HasOutcome(d: Document, edit: Edit, baseline: seq<Definition>) {
    exists after :: Writes(d, edit, after) && Kept(after, baseline)
  }

  lemma SameCoreJoins(shipped: Definition, a: Definition, b: Definition)
    requires SameCore(shipped, a) && SameCore(shipped, b)
    ensures SameCore(a, b)
  {
  }

  /** Of two lists that hold the shipped built-ins, the second may follow the first at every identifier. */
  lemma KeptMayFollow(before: seq<Definition>, after: seq<Definition>, current: Definition, item: Definition,
                      baseline: seq<Definition>)
    requires GoodBaseline(baseline) && Preserves(before, baseline) && Preserves(after, baseline)
    requires DistinctIds(after) && current in before && item in after && current.id == item.id
    ensures UpdateAllowed(current, item)
  {
    if current.ownership == Builtin {
      var shipped := ById(baseline, current.id).value;
      assert shipped in baseline && shipped.id in BuiltinIds(after);
      var mine :| mine in after && mine.ownership == Builtin && mine.id == shipped.id;
      OneById(after, mine, item);
      hide SameCore, ById, GoodBaseline, DistinctIds, BuiltinIds;
      SameCoreJoins(shipped, current, item);
    }
  }

  lemma OneById(items: seq<Definition>, a: Definition, b: Definition)
    requires DistinctIds(items) && a in items && b in items && a.id == b.id
    ensures a == b
  {
    var i :| 0 <= i < |items| && items[i] == a;
    var j :| 0 <= j < |items| && items[j] == b;
  }

  lemma IndexIs(items: seq<Definition>, i: nat)
    requires DistinctIds(items) && i < |items|
    ensures IndexOf(items, items[i].id) == Some(i)
  {
    assert items[i] in items;
  }

  lemma ChangedIsOne(before: Definition, after: Definition, change: Change)
    requires IsChanged(before, after, change)
    ensures after == Changed(before, change)
  {
  }

  lemma SameButIs(before: seq<Definition>, after: seq<Definition>, i: nat)
    requires i < |before| && SameBut(before, after, i)
    ensures after == before[i := after[i]]
  {
  }

  lemma KeptDraft(d: Document, baseline: seq<Definition>)
    requires Kept(d, baseline)
    ensures StagedBase(d).instruments == Draft(d) && KeptGeneration(StagedBase(d), baseline)
    ensures Admissible(Draft(d)) && DistinctIds(Draft(d)) && Preserves(Draft(d), baseline)
    ensures forall item :: item in Draft(d) ==> ValidDefinition(item)
  {
  }

  lemma UpdateAccepted(d: Document, id: Ident, change: Change, after: Document, baseline: seq<Definition>)
    requires GoodBaseline(baseline) && Kept(d, baseline) && Kept(after, baseline)
      && Writes(d, Update(id, change), after)
    ensures Updated(d, id, change).Some?
  {
    hide Kept, GoodBaseline, Admissible, DistinctIds, ValidDefinition, UpdateAllowed, IsChanged, Preserves, Changed;
    var items, changed := Draft(d), Draft(after);
    KeptDraft(d, baseline);
    KeptDraft(after, baseline);
    var i :| 0 <= i < |items| && items[i].id == id && SameBut(items, changed, i)
             && IsChanged(items[i], changed[i], change);
    IndexIs(items, i);
    ChangedIsOne(items[i], changed[i], change);
    KeepsId(items[i], changed[i], change);
    SameButIs(items, changed, i);
    KeptMayFollow(items, changed, items[i], changed[i], baseline);
  }

  lemma KeepsId(before: Definition, after: Definition, change: Change)
    requires IsChanged(before, after, change)
    ensures after.id == before.id
  {
  }

  lemma ArchiveAccepted(d: Document, id: Ident, after: Document, baseline: seq<Definition>)
    requires Kept(d, baseline) && Kept(after, baseline) && Writes(d, Archive(id), after)
    ensures Archived(d, id).Some?
  {
    hide Kept, Admissible, DistinctIds, ValidDefinition, Preserves;
    var items, changed := Draft(d), Draft(after);
    KeptDraft(d, baseline);
    KeptDraft(after, baseline);
    var i :| 0 <= i < |items| && items[i].id == id && SameBut(items, changed, i) && IsArchived(items[i], changed[i]);
    IndexIs(items, i);
    SameButIs(items, changed, i);
  }

  lemma ReplacementAccepted(d: Document, candidate: CatalogGeneration, after: Document, baseline: seq<Definition>)
    requires GoodBaseline(baseline) && Kept(d, baseline) && Kept(after, baseline)
    requires Writes(d, ReplaceStaged(candidate), after)
    ensures ReplacedStaged(d, candidate, baseline).Some?
  {
    hide Kept, GoodBaseline, Admissible, DistinctIds, ValidDefinition, UpdateAllowed, Preserves, BuiltinIds;
    var current, items := Draft(d), candidate.instruments;
    KeptDraft(d, baseline);
    KeptDraft(after, baseline);
    BaselineIsBuiltin(baseline);
    SameBuiltinIds(items, baseline);
    forall item | item in items && ById(current, item.id).Some?
      ensures UpdateAllowed(ById(current, item.id).value, item)
    {
      KeptMayFollow(current, items, ById(current, item.id).value, item, baseline);
    }
  }

  lemma SameBuiltinIds(items: seq<Definition>, baseline: seq<Definition>)
    requires Preserves(items, baseline) && forall b :: b in baseline ==> b.ownership == Builtin
    ensures BuiltinIds(items) == BuiltinIds(baseline)
  {
    hide SameCore;
  }

  // ----- policies

  /** A policy whose outcome is valid goes through. */
  lemma {:induction false} PolicyGoesThrough(items: seq<Definition>, updates: seq<PolicyUpdate>,
                                             installed: set<Symbol>, after: seq<Definition>)
    requires DistinctSymbols(items) && AppliesPolicy(items, after, updates)
    requires forall item :: item in after ==> ValidDefinition(item)
    requires forall u :: 0 <= u < |updates| ==> updates[u].symbol in installed
    ensures PolicyOn(items, updates, installed) == Some(after)
    decreases |updates|
  {
    hide ValidDefinition, PolicyApplied, HasPolicy, PolicyAt;
    if updates == [] {
      NoPolicyIs(items, after);
    } else {
      var update, rest := updates[0], updates[1..];
      var i :| 0 <= i < |items| && items[i].symbol == update.symbol;
      assert IndexOfSymbol(items, update.symbol) == Some(i) by { SymbolIndexIs(items, i); }
      var patched := PolicyApplied(items[i], update);
      NamedHasPolicy(items[i], after[i], updates, 0);
      HasPolicyIs(items[i], after[i], update);
      assert after[i] in after;
      assert updates == [update] + rest;
      PolicyOfRest(items, i, patched, after, update, rest);
      PolicyGoesThrough(items[i := patched], rest, installed - {update.symbol}, after);
    }
  }

  lemma NoPolicyIs(items: seq<Definition>, after: seq<Definition>)
    requires AppliesPolicy(items, after, [])
    ensures after == items
  {
    forall i | 0 <= i < |items| ensures after[i] == items[i] {
      assert PolicyAt(items[i], after[i], []);
    }
  }

  lemma {:induction false} SymbolIndexIs(items: seq<Definition>, i: nat)
    requires DistinctSymbols(items) && i < |items|
    ensures IndexOfSymbol(items, items[i].symbol) == Some(i)
    decreases |items|
  {
    if i > 0 {
      SymbolIndexIs(items[1..], i - 1);
    }
  }

  lemma NamedHasPolicy(before: Definition, after: Definition, updates: seq<PolicyUpdate>, u: nat)
    requires u < |updates| && updates[u].symbol == before.symbol && PolicyAt(before, after, updates)
    ensures HasPolicy(before, after, updates[u])
  {
  }

  lemma HasPolicyIs(before: Definition, after: Definition, update: PolicyUpdate)
    requires HasPolicy(before, after, update)
    ensures after == PolicyApplied(before, update) && after.symbol == before.symbol
  {
  }

  lemma PolicyOfRest(items: seq<Definition>, index: nat, patched: Definition, after: seq<Definition>,
                     update: PolicyUpdate, rest: seq<PolicyUpdate>)
    requires DistinctSymbols(items) && index < |items| && items[index].symbol == update.symbol == patched.symbol
    requires AppliesPolicy(items, after, [update] + rest) && after[index] == patched
    ensures AppliesPolicy(items[index := patched], after, rest)
    ensures forall u :: 0 <= u < |rest| ==> rest[u].symbol != update.symbol
  {
    hide HasPolicy, PolicyAt;
    var updates, middle := [update] + rest, items[index := patched];
    assert forall u :: 0 <= u < |rest| ==> updates[u + 1] == rest[u];
    assert updates[0] == update;
    forall u | 0 <= u < |rest| ensures exists i :: 0 <= i < |middle| && middle[i].symbol == rest[u].symbol {
      var i :| 0 <= i < |items| && items[i].symbol == updates[u + 1].symbol;
      assert middle[i].symbol == rest[u].symbol;
    }
    forall i | 0 <= i < |middle| ensures PolicyAt(middle[i], after[i], rest) {
      assert PolicyAt(items[i], after[i], updates);
      if i == index {
        SettledByNone(patched, rest);
      } else {
        OthersLater(items[i], after[i], update, rest);
      }
    }
  }

  lemma SettledByNone(item: Definition, updates: seq<PolicyUpdate>)
    requires forall u :: 0 <= u < |updates| ==> updates[u].symbol != item.symbol
    ensures PolicyAt(item, item, updates)
  {
  }

  lemma OthersLater(before: Definition, after: Definition, update: PolicyUpdate, rest: seq<PolicyUpdate>)
    requires before.symbol != update.symbol && PolicyAt(before, after, [update] + rest)
    ensures PolicyAt(before, after, rest)
  {
    hide HasPolicy;
    var updates := [update] + rest;
    assert updates[0] == update && forall u :: 0 <= u < |rest| ==> updates[u + 1] == rest[u];
  }

  lemma PolicyAccepted(g: CatalogGeneration, updates: seq<PolicyUpdate>, after: CatalogGeneration,
                       baseline: seq<Definition>)
    requires KeptGeneration(g, baseline) && KeptGeneration(after, baseline) && AllInstalled(updates, baseline)
    requires AppliesPolicy(g.instruments, after.instruments, updates)
    ensures Patched(g, updates, baseline).Some?
  {
    hide Admissible, ValidDefinition, AppliesPolicy, DistinctSymbols, Preserves;
    assert Once(Names(g.instruments)) by { AdmissibleIsOnce(g.instruments); }
    OnceNamedIsDistinct(g.instruments);
    PolicyGoesThrough(g.instruments, updates, set d | d in baseline :: d.symbol, after.instruments);
  }

  lemma AdmissibleIsOnce(items: seq<Definition>)
    requires Admissible(items)
    ensures Once(Names(items)) && DistinctIds(items)
  {
  }

  /** An accepted policy names installed symbols. */
  lemma PolicyIsInstalled(g: CatalogGeneration, updates: seq<PolicyUpdate>, baseline: seq<Definition>)
    requires KeptGeneration(g, baseline) && Patched(g, updates, baseline).Some?
    ensures AllInstalled(updates, baseline)
  {
    hide Admissible, ValidDefinition, AppliesPolicy, DistinctSymbols, Preserves, PolicyOn;
    AdmissibleIsOnce(g.instruments);
    OnceNamedIsDistinct(g.instruments);
    var installed := set d | d in baseline :: d.symbol;
    PolicyOnApplies(g.instruments, updates, installed);
    assert forall u :: 0 <= u < |updates| ==> updates[u].symbol in installed;
  }

  // ----- imports

  /** Against a list that holds the shipped built-ins, an item is allowed exactly when it may stand by itself. */
  lemma AllowedIff(base: seq<Definition>, item: Definition, baseline: seq<Definition>)
    requires GoodBaseline(baseline) && Preserves(base, baseline) && DistinctIds(base) && ValidDefinition(item)
    requires forall d :: d in base ==> ValidDefinition(d)
    ensures ImportAllowed(base, item) <==> MayStand(item, baseline)
  {
    hide ValidDefinition, GoodBaseline, DistinctIds;
    if item.ownership == Builtin {
      if ImportAllowed(base, item) {
        var current := ById(base, item.id).value;
        SameCoreChain(ById(baseline, current.id).value, current, item);
      }
      if b :| b in baseline && SameCore(b, item) {
        assert b.id == item.id && b.id in BuiltinIds(base);
        var mine :| mine in base && mine.ownership == Builtin && mine.id == b.id;
        TheOneById(base, mine);
        assert DistinctIds(baseline) by { GoodIsDistinct(baseline); }
        TheOneById(baseline, b);
        SameCoreJoins(b, mine, item);
      }
    }
  }

  lemma GoodIsDistinct(baseline: seq<Definition>)
    requires GoodBaseline(baseline)
    ensures DistinctIds(baseline)
  {
    hide ValidDefinition, NoRetiredNames;
  }

  lemma ImportAccepted(d: Document, items: seq<Definition>, mode: ImportMode, after: Document,
                       baseline: seq<Definition>)
    requires GoodBaseline(baseline) && Kept(d, baseline) && Kept(after, baseline)
    requires Writes(d, Import(items, mode), after) && Permits(Import(items, mode), baseline)
    ensures Imported(d, items, mode).Some?
  {
    hide GoodBaseline, Kept, Admissible, DistinctIds, ValidDefinition, Preserves, ImportAllowed, PutItems, Builtins,
         IsLastImport, IsImported;
    var base := Draft(d);
    KeptDraft(d, baseline);
    KeptDraft(after, baseline);
    forall item | item in items ensures ValidDefinition(item) && ImportAllowed(base, item) {
      AllowedIff(base, item, baseline);
    }
    BuiltinsAreDistinct(base);
    PutItemsContents(ImportBase(d, mode), items);
    AdmissibleByContents(PutItems(ImportBase(d, mode), items), Draft(after));
  }

  lemma ImportIsPermitted(d: Document, items: seq<Definition>, mode: ImportMode, baseline: seq<Definition>)
    requires GoodBaseline(baseline) && Kept(d, baseline) && Imported(d, items, mode).Some?
    ensures Permits(Import(items, mode), baseline)
  {
    hide GoodBaseline, Kept, Admissible, DistinctIds, ValidDefinition, Preserves, ImportAllowed, PutItems, Builtins,
         MayStand;
    KeptDraft(d, baseline);
    forall item | item in items ensures MayStand(item, baseline) {
      AllowedIff(Draft(d), item, baseline);
    }
  }

  // ----- the nine edits

  lemma AcceptedIsPermitted(d: Document, edit: Edit, baseline: seq<Definition>)
    requires GoodBaseline(baseline) && Kept(d, baseline) && Apply(d, edit, baseline).Some?
    ensures Permits(edit, baseline) && HasOutcome(d, edit, baseline)
  {
    hide Kept, Writes, GoodBaseline, Imported, Patched, AllInstalled, MayStand, Updated, Archived, ReplacedStaged,
         KeptGeneration, Admissible, ValidDefinition;
    ApplyKeeps(d, edit, baseline);
    ApplyWrites(d, edit, baseline);
    match edit
    case Import(items, mode) => ImportIsPermitted(d, items, mode, baseline);
    case StagePatch(updates) =>
      KeptDraft(d, baseline);
      PolicyIsInstalled(StagedBase(d), updates, baseline);
    case Patch(updates) =>
      KeptActive(d, baseline);
      PolicyIsInstalled(d.active, updates, baseline);
    case _ =>
  }

  lemma KeptActive(d: Document, baseline: seq<Definition>)
    requires Kept(d, baseline)
    ensures KeptGeneration(d.active, baseline)
  {
  }

  lemma CreationAccepted(d: Document, item: Definition, uuid: string, after: Document, baseline: seq<Definition>)
    requires Kept(d, baseline) && Kept(after, baseline) && Writes(d, Create(item, uuid), after)
    ensures Apply(d, Create(item, uuid), baseline).Some?
  {
    hide Kept, Admissible, ValidDefinition, DistinctIds, Preserves;
    KeptDraft(d, baseline);
    KeptDraft(after, baseline);
    assert Draft(after)[|Draft(d)|] in Draft(after);
  }

  lemma WrittenIsAccepted(d: Document, edit: Edit, after: Document, baseline: seq<Definition>)
    requires GoodBaseline(baseline) && Kept(d, baseline) && Permits(edit, baseline)
    requires Writes(d, edit, after) && Kept(after, baseline)
    ensures Apply(d, edit, baseline).Some?
  {
    hide Kept, GoodBaseline, Imported, Patched, AllInstalled, MayStand, Updated, Archived, ReplacedStaged,
         KeptGeneration, Admissible, ValidDefinition, UpdatesOne, ArchivesOne, Imports, AppliesPolicy;
    match edit
    case Create(item, uuid) => CreationAccepted(d, item, uuid, after, baseline);
    case Update(id, change) => UpdateAccepted(d, id, change, after, baseline);
    case Archive(id) => ArchiveAccepted(d, id, after, baseline);
    case ReplaceStaged(candidate) => ReplacementAccepted(d, candidate, after, baseline);
    case Import(items, mode) => ImportAccepted(d, items, mode, after, baseline);
    case StagePatch(updates) =>
      KeptDraft(d, baseline);
      KeptDraft(after, baseline);
      PolicyAccepted(StagedBase(d), updates, after.staged.value, baseline);
    case Patch(updates) =>
      KeptActive(d, baseline);
      KeptActive(after, baseline);
      PolicyAccepted(d.active, updates, after.active, baseline);
    case ActivateStaged(_) =>
    case Rollback =>
  }

  /**
   An edit of a kept document is accepted exactly when it is permitted and some document it may write keeps the rules:
   nothing else makes the store refuse it.
   */
  lemma AcceptedIff(d: Document, edit: Edit, baseline: seq<Definition>)
    requires GoodBaseline(baseline) && Kept(d, baseline)
    ensures Apply(d, edit, baseline).Some? <==> Permits(edit, baseline) && HasOutcome(d, edit, baseline)
  {
    hide Kept, Writes, GoodBaseline, Apply, Permits;
    if Apply(d, edit, baseline).Some? {
      AcceptedIsPermitted(d, edit, baseline);
    }
    if Permits(edit, baseline) && HasOutcome(d, edit, baseline) {
      var after :| Writes(d, edit, after) && Kept(after, baseline);
      WrittenIsAccepted(d, edit, after, baseline);
    }
  }
}
