/**
 The declarative sync in projects of any size. A run sees the 50 newest monitors only, and what it
 creates is newer than everything it saw; here is exactly when the next run still sees all that was
 declared, told from the listing and the declaration before the first run.
 */
module Window {
  import opened Text
  import opened Monitors
  import opened ConfigSync
  import opened Convergence
  import opened Sets
  import opened Wrappers

  const WINDOW := 50

  function Project(r: Request, store: Store): set<Uuid>
    requires r.project.Some?
  {
    InProject(store, r.actor.org, r.project.value)
  }

  /** The monitors of a project that a listing puts before this one. */
  function Newer(store: Store, ids: set<Uuid>, id: Uuid): set<Uuid>
    requires id in store.monitors && ids <= store.monitors.Keys
  {
    set x | x in ids && store.monitors[x].createdAt > store.monitors[id].createdAt
  }

  /** No other monitor of the project was created at the same instant. */
  ghost predicate SoleTime(store: Store, ids: set<Uuid>, id: Uuid)
    requires id in store.monitors && ids <= store.monitors.Keys
  {
    forall x | x in ids && x != id :: store.monitors[x].createdAt != store.monitors[id].createdAt
  }

  ghost predicate TimesDiffer(store: Store, ids: set<Uuid>)
    requires ids <= store.monitors.Keys
  {
    forall id | id in ids :: SoleTime(store, ids, id)
  }

  // ---- rank on a page ----

  /** A page shows a monitor exactly if fewer than a page are newer. */
  lemma ShownWhenFewAreNewer(store: Store, org: nat, project: nat, limit: nat, page: seq<Monitor>, id: Uuid)
    requires IsPage(store, org, project, limit, page) && id in InProject(store, org, project)
    requires SoleTime(store, InProject(store, org, project), id)
    ensures OnPage(page, id) <==> |Newer(store, InProject(store, org, project), id)| < limit
  {
    var ids := InProject(store, org, project);
    if OnPage(page, id) {
      var i :| 0 <= i < |page| && page[i].id == id;
      NewerAreBefore(store, org, project, limit, page, i);
      IdsCount(page[..i]);
      SubsetSize(Newer(store, ids, id), IdsOf(page[..i]));
    } else {
      IdsCount(page);
      forall x | x in IdsOf(page) ensures x in Newer(store, ids, id) {
        var i :| 0 <= i < |page| && page[i].id == x;
      }
      SubsetSize(IdsOf(page), Newer(store, ids, id));
    }
  }

  lemma NewerAreBefore(store: Store, org: nat, project: nat, limit: nat, page: seq<Monitor>, i: nat)
    requires IsPage(store, org, project, limit, page) && i < |page|
    ensures Newer(store, InProject(store, org, project), page[i].id) <= IdsOf(page[..i])
  {
    forall x | x in Newer(store, InProject(store, org, project), page[i].id) ensures x in IdsOf(page[..i]) {
      assert OnPage(page, x);
      var j :| 0 <= j < |page| && page[j].id == x;
      assert j < i;
      assert page[..i][j] == page[j];
    }
  }

  /** If creation times differ, what is newer than an entry is exactly what precedes it. */
  lemma BeforeAreNewer(store: Store, org: nat, project: nat, limit: nat, page: seq<Monitor>, i: nat)
    requires IsPage(store, org, project, limit, page) && i < |page| && TimesDiffer(store, InProject(store, org, project))
    ensures Newer(store, InProject(store, org, project), page[i].id) == IdsOf(page[..i])
  {
    NewerAreBefore(store, org, project, limit, page, i);
    forall x | x in IdsOf(page[..i]) ensures x in Newer(store, InProject(store, org, project), page[i].id) {
      var j :| 0 <= j < i && page[..i][j].id == x;
      assert page[j].id != page[i].id;
    }
  }

  // ---- what a run does to the project ----

  /** What the rest needs to know of a run without failures: what was not pruned stays where it is in
      time and under its name, and the unseen declarations have appeared. */
  ghost predicate Follows(r: Request, store: Store, existing: map<string, Monitor>, luck: Luck, store': Store)
    requires r.project.Some?
  {
    && (forall id | id in Project(r, store) && id !in RemovedBy(r, existing) ::
          && id in Project(r, store') && store'.monitors[id].createdAt == store.monitors[id].createdAt
          && Lower(store'.monitors[id].name) == Lower(store.monitors[id].name))
    && (forall k | k in Unseen(existing, r.declared) ::
          && luck.newId(k) in Project(r, store') && store'.monitors[luck.newId(k)].createdAt == luck.now(k)
          && Lower(store'.monitors[luck.newId(k)].name) == k)
    && (forall id | id in Project(r, store') ::
          (id in Project(r, store) && id !in RemovedBy(r, existing)) || IsNew(r, existing, luck, id))
  }

  predicate IsNew(r: Request, existing: map<string, Monitor>, luck: Luck, id: Uuid) {
    exists k :: k in Unseen(existing, r.declared) && luck.newId(k) == id
  }

  lemma SlotOf(r: Request, store: Store, page: seq<Monitor>, visit: seq<string>, luck: Luck, i: nat)
    requires Ready(r, store, page, visit, luck) && NoFailures(Run(r, store, page, visit, luck).1) && i < |r.declared|
    ensures var (existing, store', d) := (Existing(page), Run(r, store, page, visit, luck).0, r.declared[i]);
            var id := Slot(existing, luck, d);
            && id in Project(r, store') && store'.monitors[id].createdAt == Born(existing, luck, d)
            && Lower(store'.monitors[id].name) == Key(d)
  {
    RunSettles(r, store, page, visit, luck);
    var (store', items) := Run(r, store, page, visit, luck);
    assert Holds(r, Existing(page), store', luck, r.declared[i], items[..|r.declared|][i].act);
  }

  lemma KeyIndex(ds: seq<Desired>, k: string) returns (i: nat)
    requires k in DeclaredKeys(ds)
    ensures i < |ds| && Key(ds[i]) == k
  {
    var d :| d in ds && Key(d) == k;
    i :| 0 <= i < |ds| && ds[i] == d;
  }

  lemma OldStays(r: Request, store: Store, page: seq<Monitor>, visit: seq<string>, luck: Luck, id: Uuid)
    requires Ready(r, store, page, visit, luck) && NoFailures(Run(r, store, page, visit, luck).1)
    requires id in Project(r, store) && id !in RemovedBy(r, Existing(page))
    ensures var store' := Run(r, store, page, visit, luck).0;
            && id in Project(r, store') && store'.monitors[id].createdAt == store.monitors[id].createdAt
            && Lower(store'.monitors[id].name) == Lower(store.monitors[id].name)
  {
    var existing := Existing(page);
    RunSettles(r, store, page, visit, luck);
    if id in Slots(existing, luck, r.declared) {
      var i :| 0 <= i < |r.declared| && Slot(existing, luck, r.declared[i]) == id;
      SlotOf(r, store, page, visit, luck, i);
      PageNamesAreTight(r, store, page, Key(r.declared[i]));
    }
  }

  lemma NewAppears(r: Request, store: Store, page: seq<Monitor>, visit: seq<string>, luck: Luck, k: string)
    requires Ready(r, store, page, visit, luck) && NoFailures(Run(r, store, page, visit, luck).1)
    requires k in Unseen(Existing(page), r.declared)
    ensures var (store', id) := (Run(r, store, page, visit, luck).0, luck.newId(k));
            && id in Project(r, store') && store'.monitors[id].createdAt == luck.now(k) && Lower(store'.monitors[id].name) == k
  {
    var i := KeyIndex(r.declared, k);
    SlotOf(r, store, page, visit, luck, i);
  }

  lemma NothingElseAppears(r: Request, store: Store, page: seq<Monitor>, visit: seq<string>, luck: Luck, id: Uuid)
    requires Ready(r, store, page, visit, luck) && NoFailures(Run(r, store, page, visit, luck).1)
    requires id in Project(r, Run(r, store, page, visit, luck).0)
    ensures (id in Project(r, store) && id !in RemovedBy(r, Existing(page))) || IsNew(r, Existing(page), luck, id)
  {
    if id in Slots(Existing(page), luck, r.declared) {
      SlotIsListedOrNew(r, store, page, luck, id);
    } else {
      RunSettles(r, store, page, visit, luck);
    }
  }

  lemma SlotIsListedOrNew(r: Request, store: Store, page: seq<Monitor>, luck: Luck, id: Uuid)
    requires r.project.Some? && Listed(r, store, page) && id in Slots(Existing(page), luck, r.declared)
    ensures (id in Project(r, store) && id !in RemovedBy(r, Existing(page))) || IsNew(r, Existing(page), luck, id)
  {
    var existing := Existing(page);
    var d :| d in r.declared && Slot(existing, luck, d) == id;
    if Key(d) in existing {
      ListedKeepsId(r, store, page, Key(d));
      ListedEntriesDiffer(r, store, page);
    } else {
      assert Key(d) in Unseen(existing, r.declared);
    }
  }

  lemma RunFollows(r: Request, store: Store, page: seq<Monitor>, visit: seq<string>, luck: Luck)
    requires Ready(r, store, page, visit, luck) && NoFailures(Run(r, store, page, visit, luck).1)
    ensures Follows(r, store, Existing(page), luck, Run(r, store, page, visit, luck).0)
  {
    var existing, store' := Existing(page), Run(r, store, page, visit, luck).0;
    forall id | id in Project(r, store) && id !in RemovedBy(r, existing)
      ensures id in Project(r, store') && store'.monitors[id].createdAt == store.monitors[id].createdAt
      ensures Lower(store'.monitors[id].name) == Lower(store.monitors[id].name)
    {
      OldStays(r, store, page, visit, luck, id);
    }
    forall k | k in Unseen(existing, r.declared)
      ensures luck.newId(k) in Project(r, store') && store'.monitors[luck.newId(k)].createdAt == luck.now(k)
      ensures Lower(store'.monitors[luck.newId(k)].name) == k
    {
      NewAppears(r, store, page, visit, luck, k);
    }
    forall id | id in Project(r, store')
      ensures (id in Project(r, store) && id !in RemovedBy(r, existing)) || IsNew(r, existing, luck, id)
    {
      NothingElseAppears(r, store, page, visit, luck, id);
    }
  }

  // ---- what the first listing keeps ----

  predicate Stays(r: Request, m: Monitor) {
    !r.prune || Lower(m.name) in DeclaredKeys(r.declared)
  }

  /** The listed monitors that the run leaves, newest first. */
  function Surviving(r: Request, page: seq<Monitor>): seq<Monitor> {
    if page == [] then []
    else Surviving(r, page[..|page| - 1]) + if Stays(r, page[|page| - 1]) then [page[|page| - 1]] else []
  }

  lemma {:induction false} SurvivingMembers(r: Request, page: seq<Monitor>)
    ensures forall m :: m in Surviving(r, page) <==> m in page && Stays(r, m)
    ensures DistinctIds(page) ==> DistinctIds(Surviving(r, page))
  {
    if page != [] {
      var rest, last := page[..|page| - 1], page[|page| - 1];
      SurvivingMembers(r, rest);
      assert page == rest + [last];
      if DistinctIds(page) {
        forall i | 0 <= i < |Surviving(r, rest)| ensures Surviving(r, rest)[i].id != last.id {
          assert Surviving(r, rest)[i] in Surviving(r, rest);
        }
      }
    }
  }

  /** Where on the page a survivor was. */
  lemma {:induction false} SurvivorPosition(r: Request, page: seq<Monitor>, j: nat) returns (i: nat)
    requires j < |Surviving(r, page)|
    ensures i < |page| && page[i] == Surviving(r, page)[j] && Surviving(r, page[..i]) == Surviving(r, page)[..j]
  {
    var n := |page| - 1;
    if j < |Surviving(r, page[..n])| {
      i := SurvivorPosition(r, page[..n], j);
      assert page[..n][..i] == page[..i];
    } else {
      i := n;
    }
  }

  /** Names on a page of a project with different names identify its entries. */
  lemma PageNames(r: Request, store: Store, page: seq<Monitor>)
    requires r.project.Some? && Listed(r, store, page) && NamesDiffer(store, r.actor.org, r.project.value)
    ensures forall m | m in page :: Lower(m.name) in Existing(page) && Existing(page)[Lower(m.name)] == m
  {
    ExistingFacts(page);
    forall m | m in page ensures Existing(page)[Lower(m.name)] == m {
      var found := Existing(page)[Lower(m.name)];
      var i :| 0 <= i < |page| && page[i] == m;
      var j :| 0 <= j < |page| && page[j] == found;
    }
  }

  /** Pruning takes exactly the listed monitors that do not survive. */
  lemma RemovedOrSurviving(r: Request, store: Store, page: seq<Monitor>, m: Monitor)
    requires r.project.Some? && Listed(r, store, page) && NamesDiffer(store, r.actor.org, r.project.value) && m in page
    ensures m.id in RemovedBy(r, Existing(page)) <==> !Stays(r, m)
  {
    var existing := Existing(page);
    PageNames(r, store, page);
    ExistingFacts(page);
    if m.id in RemovedBy(r, existing) {
      var k :| k in existing.Keys - DeclaredKeys(r.declared) && existing[k].id == m.id;
      assert existing[k] == m;
    }
  }

  lemma UnlistedIsNotRemoved(r: Request, page: seq<Monitor>, id: Uuid)
    requires id !in IdsOf(page)
    ensures id !in RemovedBy(r, Existing(page))
  {
    ExistingFacts(page);
  }

  // ---- how far down the next listing a survivor is ----

  function NewIds(r: Request, existing: map<string, Monitor>, luck: Luck): set<Uuid> {
    set k | k in Unseen(existing, r.declared) :: luck.newId(k)
  }

  lemma {:induction false} NewIdsOf(luck: Luck, keys: set<string>)
    requires forall a, b | a in keys && b in keys && a != b :: luck.newId(a) != luck.newId(b)
    ensures |set k | k in keys :: luck.newId(k)| == |keys|
  {
    if keys != {} {
      var x :| x in keys;
      NewIdsOf(luck, keys - {x});
      assert (set k | k in keys :: luck.newId(k)) == (set k | k in keys - {x} :: luck.newId(k)) + {luck.newId(x)};
    }
  }

  lemma NewIdsCount(r: Request, store: Store, existing: map<string, Monitor>, luck: Luck)
    requires UnusedIds(store, r.declared, luck)
    ensures |NewIds(r, existing, luck)| == |Unseen(existing, r.declared)|
    ensures forall id | id in NewIds(r, existing, luck) :: id !in store.monitors
  {
    var keys := Unseen(existing, r.declared);
    forall a, b | a in keys && b in keys && a != b ensures luck.newId(a) != luck.newId(b) {
      var i := KeyIndex(r.declared, a);
      var j := KeyIndex(r.declared, b);
    }
    forall k | k in keys ensures luck.newId(k) !in store.monitors {
      var i := KeyIndex(r.declared, k);
    }
    NewIdsOf(luck, keys);
  }

  /** Monitors created by the run are newer than all that were there. */
  ghost predicate ClockAdvances(r: Request, store: Store, luck: Luck)
    requires r.project.Some?
  {
    forall id, k | id in Project(r, store) && k in DeclaredKeys(r.declared) :: store.monitors[id].createdAt < luck.now(k)
  }

  /** The circumstances of the first run. */
  ghost predicate Orderly(r: Request, store: Store, page: seq<Monitor>, luck: Luck) {
    && r.project.Some? && Listed(r, store, page) && UnusedIds(store, r.declared, luck)
    && NamesDiffer(store, r.actor.org, r.project.value) && TimesDiffer(store, Project(r, store)) && ClockAdvances(r, store, luck)
  }

  lemma OldIsSole(r: Request, store: Store, page: seq<Monitor>, luck: Luck, store': Store, id: Uuid)
    requires Orderly(r, store, page, luck) && Follows(r, store, Existing(page), luck, store')
    requires id in Project(r, store) && id !in RemovedBy(r, Existing(page))
    ensures id in Project(r, store') && SoleTime(store', Project(r, store'), id)
  {
    forall x | x in Project(r, store') && x != id ensures store'.monitors[x].createdAt != store'.monitors[id].createdAt {
      if IsNew(r, Existing(page), luck, x) {
        var k :| k in Unseen(Existing(page), r.declared) && luck.newId(k) == x;
      } else {
        assert SoleTime(store, Project(r, store), id);
      }
    }
  }

  lemma NewerIsNewOrSurvives(r: Request, store: Store, page: seq<Monitor>, luck: Luck, store': Store, i: nat, y: Uuid)
    requires Orderly(r, store, page, luck) && Follows(r, store, Existing(page), luck, store') && i < |page|
    requires page[i].id in Project(r, store) && page[i].id !in RemovedBy(r, Existing(page))
    ensures y in Newer(store', Project(r, store'), page[i].id)
            <==> y in NewIds(r, Existing(page), luck) + IdsOf(Surviving(r, page[..i]))
  {
    if y in NewIds(r, Existing(page), luck) {
      assert y in Newer(store', Project(r, store'), page[i].id);
    } else if y in Newer(store', Project(r, store'), page[i].id) {
      OldNewerSurvives(r, store, page, luck, store', i, y);
    } else if y in IdsOf(Surviving(r, page[..i])) {
      SurvivorIsNewer(r, store, page, luck, store', i, y);
    }
  }

  /** After the run exactly the new monitors and the survivors above it precede a survivor. */
  lemma NewerAfterwards(r: Request, store: Store, page: seq<Monitor>, luck: Luck, store': Store, j: nat)
    requires Orderly(r, store, page, luck) && Follows(r, store, Existing(page), luck, store')
    requires j < |Surviving(r, page)|
    ensures var x := Surviving(r, page)[j].id;
            && x in Project(r, store) && x !in RemovedBy(r, Existing(page)) && x in Project(r, store')
            && Newer(store', Project(r, store'), x) == NewIds(r, Existing(page), luck) + IdsOf(Surviving(r, page)[..j])
  {
    var existing, m := Existing(page), Surviving(r, page)[j];
    SurvivingMembers(r, page);
    assert m in Surviving(r, page);
    RemovedOrSurviving(r, store, page, m);
    var i := SurvivorPosition(r, page, j);
    forall y ensures y in Newer(store', Project(r, store'), m.id) <==> y in NewIds(r, existing, luck) + IdsOf(Surviving(r, page)[..j]) {
      NewerIsNewOrSurvives(r, store, page, luck, store', i, y);
    }
  }

  lemma OldNewerSurvives(r: Request, store: Store, page: seq<Monitor>, luck: Luck, store': Store, i: nat, y: Uuid)
    requires Orderly(r, store, page, luck) && Follows(r, store, Existing(page), luck, store') && i < |page|
    requires page[i].id in Project(r, store) && page[i].id !in RemovedBy(r, Existing(page))
    requires y in Newer(store', Project(r, store'), page[i].id) && y !in NewIds(r, Existing(page), luck)
    ensures y in IdsOf(Surviving(r, page[..i]))
  {
    BeforeAreNewer(store, r.actor.org, r.project.value, WINDOW, page, i);
    assert !IsNew(r, Existing(page), luck, y);
    assert y in Newer(store, Project(r, store), page[i].id);
    var h :| 0 <= h < i && page[..i][h].id == y;
    RemovedOrSurviving(r, store, page, page[h]);
    SurvivingMembers(r, page[..i]);
    assert page[h] in page[..i];
  }

  lemma SurvivorIsNewer(r: Request, store: Store, page: seq<Monitor>, luck: Luck, store': Store, i: nat, y: Uuid)
    requires Orderly(r, store, page, luck) && Follows(r, store, Existing(page), luck, store') && i < |page|
    requires page[i].id in Project(r, store) && page[i].id !in RemovedBy(r, Existing(page))
    requires y in IdsOf(Surviving(r, page[..i]))
    ensures y in Newer(store', Project(r, store'), page[i].id)
  {
    SurvivingMembers(r, page[..i]);
    var m :| m in Surviving(r, page[..i]) && m.id == y;
    var h :| 0 <= h < i && page[h] == m;
    RemovedOrSurviving(r, store, page, m);
    BeforeAreNewer(store, r.actor.org, r.project.value, WINDOW, page, i);
    assert y in IdsOf(page[..i]) by {
      assert page[..i][h] == m;
    }
  }

  /** A survivor is on the next page exactly if the new monitors and the survivors above leave room. */
  lemma SurvivorIsShown(r: Request, store: Store, page: seq<Monitor>, luck: Luck, store': Store, page': seq<Monitor>, j: nat)
    requires Orderly(r, store, page, luck) && Follows(r, store, Existing(page), luck, store') && Listed(r, store', page')
    requires j < |Surviving(r, page)|
    ensures OnPage(page', Surviving(r, page)[j].id) <==> |Unseen(Existing(page), r.declared)| + j < WINDOW
  {
    var x := Surviving(r, page)[j].id;
    NewerAfterwards(r, store, page, luck, store', j);
    OldIsSole(r, store, page, luck, store', x);
    ShownWhenFewAreNewer(store', r.actor.org, r.project.value, WINDOW, page', x);
    AboveCount(r, store, page, luck, j);
  }

  lemma SurvivorsAreOld(r: Request, store: Store, page: seq<Monitor>, j: nat)
    requires r.project.Some? && Listed(r, store, page) && j <= |Surviving(r, page)|
    ensures |IdsOf(Surviving(r, page)[..j])| == j && IdsOf(Surviving(r, page)[..j]) <= store.monitors.Keys
  {
    var kept := Surviving(r, page);
    SurvivingMembers(r, page);
    IdsCount(kept[..j]);
    forall m | m in kept[..j] ensures m.id in store.monitors {
      assert m in kept;
      var i :| 0 <= i < |page| && page[i] == m;
    }
  }

  /** The new monitors and the first survivors together. */
  lemma AboveCount(r: Request, store: Store, page: seq<Monitor>, luck: Luck, j: nat)
    requires Orderly(r, store, page, luck) && j <= |Surviving(r, page)|
    ensures |NewIds(r, Existing(page), luck) + IdsOf(Surviving(r, page)[..j])| == |Unseen(Existing(page), r.declared)| + j
  {
    NewIdsCount(r, store, Existing(page), luck);
    SurvivorsAreOld(r, store, page, j);
    assert NewIds(r, Existing(page), luck) !! IdsOf(Surviving(r, page)[..j]);
  }

  // ---- what the next listing shows ----

  lemma ShownIsFound(r: Request, store: Store, page: seq<Monitor>, id: Uuid)
    requires r.project.Some? && Listed(r, store, page) && OnPage(page, id)
    ensures id in Project(r, store) && Lower(store.monitors[id].name) in Existing(page)
  {
    ExistingFacts(page);
    var i :| 0 <= i < |page| && page[i].id == id;
  }

  /** If a new monitor is not listed, only new ones are. */
  lemma OnlyNewListed(r: Request, store: Store, page: seq<Monitor>, luck: Luck, store': Store, page': seq<Monitor>, k: string)
    requires Orderly(r, store, page, luck) && Follows(r, store, Existing(page), luck, store') && Listed(r, store', page')
    requires k in Unseen(Existing(page), r.declared) && !OnPage(page', luck.newId(k))
    ensures IdsOf(page') <= NewIds(r, Existing(page), luck) - {luck.newId(k)}
  {
    forall x | x in IdsOf(page') ensures x in NewIds(r, Existing(page), luck) {
      var i :| 0 <= i < |page'| && page'[i].id == x;
      OnlyNewAboveNew(r, store, page, luck, store', page', k, i);
    }
  }

  /** As long as they fit on a page, all new monitors are on it. */
  lemma NewIsShown(r: Request, store: Store, page: seq<Monitor>, luck: Luck, store': Store, page': seq<Monitor>, k: string)
    requires Orderly(r, store, page, luck) && Follows(r, store, Existing(page), luck, store') && Listed(r, store', page')
    requires k in Unseen(Existing(page), r.declared) && |Unseen(Existing(page), r.declared)| <= WINDOW
    ensures OnPage(page', luck.newId(k))
  {
    if !OnPage(page', luck.newId(k)) {
      OnlyNewListed(r, store, page, luck, store', page', k);
      NewIdsCount(r, store, Existing(page), luck);
      IdsCount(page');
      SubsetSize(IdsOf(page'), NewIds(r, Existing(page), luck) - {luck.newId(k)});
    }
  }

  lemma OnlyNewAboveNew(r: Request, store: Store, page: seq<Monitor>, luck: Luck, store': Store, page': seq<Monitor>, k: string, i: nat)
    requires Orderly(r, store, page, luck) && Follows(r, store, Existing(page), luck, store') && Listed(r, store', page')
    requires k in Unseen(Existing(page), r.declared) && !OnPage(page', luck.newId(k)) && i < |page'|
    ensures page'[i].id in NewIds(r, Existing(page), luck)
  {
    var id := page'[i].id;
    assert id in Project(r, store');
    assert store'.monitors[luck.newId(k)].createdAt <= page'[i].createdAt;
    assert k in DeclaredKeys(r.declared);
    assert IsNew(r, Existing(page), luck, id);
  }

  /** A declared name that the first listing showed is found again exactly if its monitor is. */
  lemma SeenIsFoundWhenShown(r: Request, store: Store, page: seq<Monitor>, luck: Luck, store': Store, page': seq<Monitor>, k: string)
    requires Orderly(r, store, page, luck) && Follows(r, store, Existing(page), luck, store') && Listed(r, store', page')
    requires k in Existing(page) && k in DeclaredKeys(r.declared)
    ensures k in Existing(page') <==> OnPage(page', Existing(page)[k].id)
    ensures k in Existing(page') ==> Existing(page')[k].id == Existing(page)[k].id
  {
    var existing := Existing(page);
    ExistingFacts(page);
    var m := existing[k];
    RemovedOrSurviving(r, store, page, m);
    if OnPage(page', m.id) {
      ShownIsFound(r, store', page', m.id);
    }
    if k in Existing(page') {
      ExistingFacts(page');
      var e := Existing(page')[k];
      var i :| 0 <= i < |page'| && page'[i] == e;
      assert !IsNew(r, existing, luck, e.id);
      assert e.id in Project(r, store) && m.id in Project(r, store);
    }
  }

  /** How far down the survivors the last declared one is. */
  function Reach(r: Request, survivors: seq<Monitor>): (n: nat)
    ensures n <= |survivors|
    ensures n > 0 ==> Lower(survivors[n - 1].name) in DeclaredKeys(r.declared)
    ensures forall j | n <= j < |survivors| :: Lower(survivors[j].name) !in DeclaredKeys(r.declared)
  {
    if survivors == [] then 0
    else if Lower(survivors[|survivors| - 1].name) in DeclaredKeys(r.declared) then |survivors|
    else Reach(r, survivors[..|survivors| - 1])
  }

  /** The condition, on the listing and the declaration alone: the declarations it does not show, and
      the entries it keeps down to the last declared one, fit on a page together. */
  predicate Fits(r: Request, page: seq<Monitor>) {
    |Unseen(Existing(page), r.declared)| + Reach(r, Surviving(r, page)) <= WINDOW
  }

  lemma FoundWhenFits(r: Request, store: Store, page: seq<Monitor>, luck: Luck, store': Store, page': seq<Monitor>, k: string)
    requires Orderly(r, store, page, luck) && Follows(r, store, Existing(page), luck, store') && Listed(r, store', page')
    requires Fits(r, page) && k in DeclaredKeys(r.declared)
    ensures k in Existing(page')
  {
    var existing := Existing(page);
    if k in existing {
      var kept := Surviving(r, page);
      ExistingFacts(page);
      SurvivingMembers(r, page);
      assert existing[k] in kept;
      var j :| 0 <= j < |kept| && kept[j] == existing[k];
      assert j < Reach(r, kept);
      SurvivorIsShown(r, store, page, luck, store', page', j);
      SeenIsFoundWhenShown(r, store, page, luck, store', page', k);
    } else {
      NewIsShown(r, store, page, luck, store', page', k);
      ShownIsFound(r, store', page', luck.newId(k));
    }
  }

  lemma FitsWhenFound(r: Request, store: Store, page: seq<Monitor>, luck: Luck, store': Store, page': seq<Monitor>)
    requires Orderly(r, store, page, luck) && Follows(r, store, Existing(page), luck, store') && Listed(r, store', page')
    requires Unseen(Existing(page'), r.declared) == {}
    ensures Fits(r, page)
  {
    var existing, kept := Existing(page), Surviving(r, page);
    var n := Reach(r, kept);
    if n > 0 {
      var m := kept[n - 1];
      SurvivingMembers(r, page);
      PageNames(r, store, page);
      assert m in kept;
      assert Lower(m.name) !in Unseen(Existing(page'), r.declared);
      SeenIsFoundWhenShown(r, store, page, luck, store', page', Lower(m.name));
      SurvivorIsShown(r, store, page, luck, store', page', n - 1);
    } else {
      ExistingFacts(page');
      NoneUnseen(Existing(page'), r.declared);
      SubsetSize(Unseen(existing, r.declared), Existing(page').Keys);
    }
  }

  lemma NoneUnseen(existing: map<string, Monitor>, ds: seq<Desired>)
    requires Unseen(existing, ds) == {}
    ensures DeclaredKeys(ds) <= existing.Keys
  {
    forall k | k in DeclaredKeys(ds) ensures k in existing {
      assert k !in Unseen(existing, ds);
    }
  }

  lemma AllFoundIffItFits(r: Request, store: Store, page: seq<Monitor>, luck: Luck, store': Store, page': seq<Monitor>)
    requires Orderly(r, store, page, luck) && Follows(r, store, Existing(page), luck, store') && Listed(r, store', page')
    ensures Unseen(Existing(page'), r.declared) == {} <==> Fits(r, page)
  {
    var missing := Unseen(Existing(page'), r.declared);
    if missing == {} {
      FitsWhenFound(r, store, page, luck, store', page');
    } else if Fits(r, page) {
      var k :| k in missing;
      FoundWhenFits(r, store, page, luck, store', page', k);
    }
  }

  // ---- the second run ----

  /** Two runs of one declaration, both without failures, the first in orderly circumstances. */
  ghost predicate Twice(r: Request, store: Store, page: seq<Monitor>, visit: seq<string>, luck: Luck,
                        page': seq<Monitor>, visit': seq<string>, luck': Luck) {
    && Ready(r, store, page, visit, luck) && Orderly(r, store, page, luck) && NoFailures(Run(r, store, page, visit, luck).1)
    && Listed(r, Run(r, store, page, visit, luck).0, page') && IsVisit(r, Existing(page'), visit')
    && NoFailures(Run(r, Run(r, store, page, visit, luck).0, page', visit', luck').1)
  }

  /** The second run creates the declared names that its listing lacks, and lacks none exactly if the
      condition held before the first run. */
  lemma SecondRunCreatesNothingIffItFits(r: Request, store: Store, page: seq<Monitor>, visit: seq<string>, luck: Luck,
                                         page': seq<Monitor>, visit': seq<string>, luck': Luck)
    requires Twice(r, store, page, visit, luck, page', visit', luck')
    ensures var second := Run(r, Run(r, store, page, visit, luck).0, page', visit', luck').1;
            TallyOf(second).created == |Unseen(Existing(page'), r.declared)|
            && (TallyOf(second).created == 0 <==> Fits(r, page))
  {
    var store' := Run(r, store, page, visit, luck).0;
    RunFollows(r, store, page, visit, luck);
    AllFoundIffItFits(r, store, page, luck, store', page');
    CreatedAreTheUnseen(r, store', page', visit', luck');
    EmptyHasNone(Unseen(Existing(page'), r.declared));
  }

  lemma EmptyHasNone(keys: set<string>)
    ensures keys == {} <==> |keys| == 0
  {
  }

  function KeysOf(page: seq<Monitor>): set<string> {
    set m | m in page :: Lower(m.name)
  }

  ghost predicate DistinctKeys(page: seq<Monitor>) {
    forall i, j | 0 <= i < j < |page| :: Lower(page[i].name) != Lower(page[j].name)
  }

  lemma {:induction false} PageKeysCount(page: seq<Monitor>)
    requires DistinctKeys(page)
    ensures |KeysOf(page)| == |page|
  {
    if page != [] {
      var rest, last := page[..|page| - 1], page[|page| - 1];
      PageKeysCount(rest);
      assert page == rest + [last];
      assert KeysOf(page) == KeysOf(rest) + {Lower(last.name)};
      assert Lower(last.name) !in KeysOf(rest);
    }
  }

  lemma KeptWhenPruning(r: Request, store: Store, page: seq<Monitor>)
    requires r.prune && r.project.Some? && Listed(r, store, page) && NamesDiffer(store, r.actor.org, r.project.value)
    ensures var kept := Surviving(r, page);
            DistinctKeys(kept) && KeysOf(kept) == DeclaredKeys(r.declared) * Existing(page).Keys && Reach(r, kept) == |kept|
  {
    var kept, both := Surviving(r, page), DeclaredKeys(r.declared) * Existing(page).Keys;
    SurvivingMembers(r, page);
    PageNames(r, store, page);
    ExistingFacts(page);
    forall i, j | 0 <= i < j < |kept| ensures Lower(kept[i].name) != Lower(kept[j].name) {
      assert kept[i] in kept && kept[j] in kept;
    }
    forall k ensures k in KeysOf(kept) <==> k in both {
      if k in both {
        assert Existing(page)[k] in kept;
      }
    }
    assert kept != [] ==> kept[|kept| - 1] in kept;
  }

  lemma SplitSize(declared: set<string>, listed: set<string>)
    ensures |declared| == |declared - listed| + |declared * listed|
  {
    assert declared == (declared - listed) + (declared * listed);
  }

  /** With pruning the condition is that no more is declared than a listing holds. */
  lemma FitsWithPruning(r: Request, store: Store, page: seq<Monitor>)
    requires r.prune && r.project.Some? && Listed(r, store, page) && NamesDiffer(store, r.actor.org, r.project.value)
    requires ValidNames(r.declared)
    ensures Fits(r, page) <==> |r.declared| <= WINDOW
  {
    KeptWhenPruning(r, store, page);
    PageKeysCount(Surviving(r, page));
    KeysCount(r.declared);
    SplitSize(DeclaredKeys(r.declared), Existing(page).Keys);
  }

  // ---- without pruning the second run is then without any effect ----

  lemma DeclareOneKeepsSane(r: Request, existing: map<string, Monitor>, store: Store, d: Desired, luck: Luck)
    requires SaneStore(store)
    ensures SaneStore(DeclareOne(r, existing, store, d, luck).0)
  {
    var k := Key(d);
    if k in existing {
      UpdateIsSane(r.ctx, store, r.actor, existing[k].id, ChangeOf(d), existing[k].id in luck.updateFails);
    } else if r.project.Some? {
      CreationIsSane(r.ctx, store, r.actor, CreationOf(d, r.project.value), luck.newId(k), luck.now(k), k in luck.createFails);
    }
  }

  lemma {:induction false} DeclareAllKeepsSane(r: Request, existing: map<string, Monitor>, store: Store, ds: seq<Desired>, luck: Luck)
    requires SaneStore(store)
    ensures SaneStore(DeclareAll(r, existing, store, ds, luck).0)
  {
    if ds != [] {
      DeclareAllKeepsSane(r, existing, store, ds[..|ds| - 1], luck);
      DeclareOneKeepsSane(r, existing, DeclareAll(r, existing, store, ds[..|ds| - 1], luck).0, ds[|ds| - 1], luck);
    }
  }

  /** A run keeps the stored form of the monitors. */
  lemma RunKeepsSane(r: Request, store: Store, page: seq<Monitor>, visit: seq<string>, luck: Luck)
    requires Listed(r, store, page) && IsVisit(r, Existing(page), visit) && SaneStore(store)
    ensures SaneStore(Run(r, store, page, visit, luck).0)
  {
    DeclareAllKeepsSane(r, Existing(page), store, r.declared, luck);
    ListedEntriesDiffer(r, store, page);
    RemoveAllIsPointwise(r, Existing(page), DeclareAll(r, Existing(page), store, r.declared, luck).0, visit, luck);
  }

  /** If something new appears and nothing is pruned, what was not listed stays unlisted. */
  lemma UnlistedStaysHidden(r: Request, store: Store, page: seq<Monitor>, luck: Luck, store': Store, page': seq<Monitor>, y: Uuid)
    requires Orderly(r, store, page, luck) && Follows(r, store, Existing(page), luck, store') && Listed(r, store', page')
    requires !r.prune && y in Project(r, store) && !OnPage(page, y)
    ensures !OnPage(page', y)
  {
    OldIsSole(r, store, page, luck, store', y);
    IdsCount(page);
    forall x | x in IdsOf(page) ensures x in Newer(store', Project(r, store'), y) {
      var i :| 0 <= i < |page| && page[i].id == x;
      ListedIsNewer(r, store, page, luck, store', y, i);
    }
    SubsetSize(IdsOf(page), Newer(store', Project(r, store'), y));
    ShownWhenFewAreNewer(store', r.actor.org, r.project.value, WINDOW, page', y);
  }

  lemma ListedIsNewer(r: Request, store: Store, page: seq<Monitor>, luck: Luck, store': Store, y: Uuid, i: nat)
    requires Orderly(r, store, page, luck) && Follows(r, store, Existing(page), luck, store') && !r.prune && i < |page|
    requires y in Project(r, store) && y in Project(r, store') && !OnPage(page, y)
    ensures page[i].id in Newer(store', Project(r, store'), y)
  {
    assert page[i].id in Project(r, store);
    assert SoleTime(store, Project(r, store), y);
  }

  /** If nothing is pruned, or nothing unlisted has a declared name, a declared name that is found stands
      for the monitor the first run left for it. */
  lemma FoundIsTheSlot(r: Request, store: Store, page: seq<Monitor>, luck: Luck, store': Store, page': seq<Monitor>, d: Desired)
    requires Orderly(r, store, page, luck) && Follows(r, store, Existing(page), luck, store') && Listed(r, store', page')
    requires (!r.prune || UnlistedAreUndeclared(r, store, page)) && d in r.declared && Key(d) in Existing(page')
    ensures Existing(page')[Key(d)].id == Slot(Existing(page), luck, d)
  {
    var existing, k := Existing(page), Key(d);
    if k in existing {
      SeenIsFoundWhenShown(r, store, page, luck, store', page', k);
    } else {
      ExistingFacts(page');
      var e := Existing(page')[k];
      var i :| 0 <= i < |page'| && page'[i] == e;
      assert OnPage(page', e.id);
      if !IsNew(r, existing, luck, e.id) {
        OldIsNotUnseen(r, store, page, luck, store', page', e.id, k);
      }
    }
  }

  lemma OldIsNotUnseen(r: Request, store: Store, page: seq<Monitor>, luck: Luck, store': Store, page': seq<Monitor>, id: Uuid, k: string)
    requires Orderly(r, store, page, luck) && Follows(r, store, Existing(page), luck, store') && Listed(r, store', page')
    requires !r.prune || UnlistedAreUndeclared(r, store, page)
    requires OnPage(page', id) && id in Project(r, store) && Lower(store.monitors[id].name) == k && k in DeclaredKeys(r.declared)
    ensures k in Existing(page)
  {
    if OnPage(page, id) {
      ShownIsFound(r, store, page, id);
    } else if !r.prune {
      UnlistedStaysHidden(r, store, page, luck, store', page', id);
    }
  }

  lemma FittingRunIdles(r: Request, store: Store, page: seq<Monitor>, visit: seq<string>, luck: Luck,
                        page': seq<Monitor>, visit': seq<string>, luck': Luck)
    requires Ready(r, store, page, visit, luck) && Orderly(r, store, page, luck) && NoFailures(Run(r, store, page, visit, luck).1)
    requires Listed(r, Run(r, store, page, visit, luck).0, page') && IsVisit(r, Existing(page'), visit')
    requires (!r.prune || (UnlistedAreUndeclared(r, store, page) && visit' == [])) && Fits(r, page)
    ensures var store' := Run(r, store, page, visit, luck).0; Run(r, store', page', visit', luck').0 == store'
  {
    var (store', items) := Run(r, store, page, visit, luck);
    RunFollows(r, store, page, visit, luck);
    RunSettles(r, store, page, visit, luck);
    var first := items[..|r.declared|];
    forall i | 0 <= i < |r.declared|
      ensures Found(r, Existing(page'), store', Kinds(Existing(page), r.declared)[i], r.declared[i], first[i].act)
    {
      var d := r.declared[i];
      assert d in r.declared;
      FoundWhenFits(r, store, page, luck, store', page', Key(d));
      FoundIsTheSlot(r, store, page, luck, store', page', d);
      ListedKeepsId(r, store', page', Key(d));
      assert Holds(r, Existing(page), store', luck, d, first[i].act);
    }
    SettledRunIdles(r, store', page', visit', luck', Kinds(Existing(page), r.declared), first);
  }

  lemma OverflowingRunWrites(r: Request, store: Store, page: seq<Monitor>, visit: seq<string>, luck: Luck, k: string)
    requires Ready(r, store, page, visit, luck) && NoFailures(Run(r, store, page, visit, luck).1)
    requires k in Unseen(Existing(page), r.declared)
    ensures Run(r, store, page, visit, luck).0 != store
  {
    var i := KeyIndex(r.declared, k);
    SlotOf(r, store, page, visit, luck, i);
  }

  lemma MissingIsWritten(r: Request, store: Store, page: seq<Monitor>, visit: seq<string>, luck: Luck, store': Store,
                         page': seq<Monitor>, visit': seq<string>, luck': Luck)
    requires Ready(r, store, page, visit, luck) && Orderly(r, store, page, luck) && NoFailures(Run(r, store, page, visit, luck).1)
    requires store' == Run(r, store, page, visit, luck).0 && !Fits(r, page)
    requires Ready(r, store', page', visit', luck') && NoFailures(Run(r, store', page', visit', luck').1)
    ensures Run(r, store', page', visit', luck').0 != store'
  {
    RunFollows(r, store, page, visit, luck);
    AllFoundIffItFits(r, store, page, luck, store', page');
    var k :| k in Unseen(Existing(page'), r.declared);
    OverflowingRunWrites(r, store', page', visit', luck', k);
  }

  /** Convergence in a project of any size. When nothing is pruned, a second run is without any effect
      exactly if the condition held before the first; else it stores duplicates. */
  lemma SecondRunChangesNothingIffItFits(r: Request, store: Store, page: seq<Monitor>, visit: seq<string>, luck: Luck,
                                         page': seq<Monitor>, visit': seq<string>, luck': Luck)
    requires Twice(r, store, page, visit, luck, page', visit', luck') && !r.prune
    requires UnusedIds(Run(r, store, page, visit, luck).0, r.declared, luck')
    ensures var store' := Run(r, store, page, visit, luck).0;
            Run(r, store', page', visit', luck').0 == store' <==> Fits(r, page)
  {
    var store' := Run(r, store, page, visit, luck).0;
    RunKeepsSane(r, store, page, visit, luck);
    if Fits(r, page) {
      FittingRunIdles(r, store, page, visit, luck, page', visit', luck');
    } else {
      MissingIsWritten(r, store, page, visit, luck, store', page', visit', luck');
    }
  }

  // ---- with pruning, what the first listing did not show is next ----

  ghost predicate AllListed(r: Request, store: Store, page: seq<Monitor>)
    requires r.project.Some?
  {
    forall id | id in Project(r, store) :: OnPage(page, id)
  }

  /** No monitor outside the listing has a declared name. */
  ghost predicate UnlistedAreUndeclared(r: Request, store: Store, page: seq<Monitor>)
    requires r.project.Some?
  {
    forall id | id in Project(r, store) && !OnPage(page, id) :: Lower(store.monitors[id].name) !in DeclaredKeys(r.declared)
  }

  /** What the run leaves of what is newer than the unlisted monitors: all that is declared. */
  lemma KeptCount(r: Request, store: Store, page: seq<Monitor>, luck: Luck)
    requires Orderly(r, store, page, luck) && r.prune && ValidNames(r.declared)
    ensures |NewIds(r, Existing(page), luck) + IdsOf(Surviving(r, page))| == |r.declared|
  {
    var kept, added := Surviving(r, page), NewIds(r, Existing(page), luck);
    KeptWhenPruning(r, store, page);
    PageKeysCount(kept);
    KeysCount(r.declared);
    SplitSize(DeclaredKeys(r.declared), Existing(page).Keys);
    NewIdsCount(r, store, Existing(page), luck);
    SurvivingMembers(r, page);
    IdsCount(kept);
    assert added !! IdsOf(kept);
  }

  lemma KeptAreNewer(r: Request, store: Store, page: seq<Monitor>, luck: Luck, store': Store, y: Uuid, x: Uuid)
    requires Orderly(r, store, page, luck) && Follows(r, store, Existing(page), luck, store') && r.prune
    requires y in Project(r, store) && y in Project(r, store') && !OnPage(page, y) && y !in RemovedBy(r, Existing(page))
    requires x in NewIds(r, Existing(page), luck) + IdsOf(Surviving(r, page))
    ensures x in Newer(store', Project(r, store'), y)
  {
    if x in NewIds(r, Existing(page), luck) {
      var k :| k in Unseen(Existing(page), r.declared) && luck.newId(k) == x;
    } else {
      SurvivingMembers(r, page);
      var m :| m in Surviving(r, page) && m.id == x;
      RemovedOrSurviving(r, store, page, m);
      var i :| 0 <= i < |page| && page[i] == m;
      assert SoleTime(store, Project(r, store), y);
    }
  }

  lemma NewerAreKept(r: Request, store: Store, page: seq<Monitor>, luck: Luck, store': Store, y: Uuid, x: Uuid)
    requires Orderly(r, store, page, luck) && Follows(r, store, Existing(page), luck, store') && r.prune
    requires y in Project(r, store) && y in Project(r, store') && !OnPage(page, y) && y !in RemovedBy(r, Existing(page))
    requires forall id | id in Project(r, store) && !OnPage(page, id) :: store.monitors[id].createdAt <= store.monitors[y].createdAt
    requires x in Newer(store', Project(r, store'), y)
    ensures x in NewIds(r, Existing(page), luck) + IdsOf(Surviving(r, page))
  {
    if !IsNew(r, Existing(page), luck, x) {
      var i :| 0 <= i < |page| && page[i].id == x;
      SurvivingMembers(r, page);
      RemovedOrSurviving(r, store, page, page[i]);
      assert page[i] in Surviving(r, page);
    }
  }

  lemma UnlistedIsKept(r: Request, store: Store, page: seq<Monitor>, luck: Luck, store': Store, y: Uuid)
    requires Orderly(r, store, page, luck) && Follows(r, store, Existing(page), luck, store')
    requires y in Project(r, store) && !OnPage(page, y)
    ensures y !in RemovedBy(r, Existing(page)) && y in Project(r, store') && SoleTime(store', Project(r, store'), y)
    ensures store'.monitors[y].createdAt == store.monitors[y].createdAt
    ensures Lower(store'.monitors[y].name) == Lower(store.monitors[y].name)
  {
    UnlistedIsNotRemoved(r, page, y);
    OldIsSole(r, store, page, luck, store', y);
  }

  lemma KeptAllNewer(r: Request, store: Store, page: seq<Monitor>, luck: Luck, store': Store, y: Uuid)
    requires Orderly(r, store, page, luck) && Follows(r, store, Existing(page), luck, store') && r.prune
    requires y in Project(r, store) && y in Project(r, store') && !OnPage(page, y) && y !in RemovedBy(r, Existing(page))
    ensures NewIds(r, Existing(page), luck) + IdsOf(Surviving(r, page)) <= Newer(store', Project(r, store'), y)
  {
    forall x | x in NewIds(r, Existing(page), luck) + IdsOf(Surviving(r, page)) ensures x in Newer(store', Project(r, store'), y) {
      KeptAreNewer(r, store, page, luck, store', y, x);
    }
  }

  lemma ManyAreNewer(r: Request, store: Store, page: seq<Monitor>, luck: Luck, store': Store, y: Uuid)
    requires Orderly(r, store, page, luck) && Follows(r, store, Existing(page), luck, store')
    requires r.prune && ValidNames(r.declared)
    requires y in Project(r, store) && y in Project(r, store') && !OnPage(page, y) && y !in RemovedBy(r, Existing(page))
    ensures |Newer(store', Project(r, store'), y)| >= |r.declared|
  {
    KeptCount(r, store, page, luck);
    KeptAllNewer(r, store, page, luck, store', y);
    SubsetSize(NewIds(r, Existing(page), luck) + IdsOf(Surviving(r, page)), Newer(store', Project(r, store'), y));
  }

  /** Once a page of monitors is declared, nothing unlisted comes up. */
  lemma FullDeclarationHidesTheRest(r: Request, store: Store, page: seq<Monitor>, luck: Luck, store': Store, page': seq<Monitor>, y: Uuid)
    requires Orderly(r, store, page, luck) && Follows(r, store, Existing(page), luck, store') && Listed(r, store', page')
    requires r.prune && ValidNames(r.declared) && |r.declared| >= WINDOW && y in Project(r, store) && !OnPage(page, y)
    ensures !OnPage(page', y)
  {
    UnlistedIsKept(r, store, page, luck, store', y);
    ManyAreNewer(r, store, page, luck, store', y);
    ShownWhenFewAreNewer(store', r.actor.org, r.project.value, WINDOW, page', y);
  }

  lemma NewestUnlisted(r: Request, store: Store, page: seq<Monitor>) returns (y: Uuid)
    requires r.project.Some? && !AllListed(r, store, page)
    ensures y in Project(r, store) && !OnPage(page, y)
    ensures forall id | id in Project(r, store) && !OnPage(page, id) :: store.monitors[id].createdAt <= store.monitors[y].createdAt
  {
    var some :| some in Project(r, store) && !OnPage(page, some);
    var unlisted := set id | id in Project(r, store) && !OnPage(page, id);
    assert some in unlisted;
    y := NewestExists(store, unlisted);
  }

  /** With fewer, the newest unlisted monitor does. */
  lemma NewestUnlistedComesUp(r: Request, store: Store, page: seq<Monitor>, luck: Luck, store': Store, page': seq<Monitor>) returns (y: Uuid)
    requires Orderly(r, store, page, luck) && Follows(r, store, Existing(page), luck, store') && Listed(r, store', page')
    requires r.prune && ValidNames(r.declared) && |r.declared| < WINDOW && !AllListed(r, store, page)
    ensures y in Project(r, store) && !OnPage(page, y) && OnPage(page', y)
  {
    var kept := NewIds(r, Existing(page), luck) + IdsOf(Surviving(r, page));
    y := NewestUnlisted(r, store, page);
    UnlistedIsKept(r, store, page, luck, store', y);
    KeptCount(r, store, page, luck);
    forall x | x in Newer(store', Project(r, store'), y) ensures x in kept {
      NewerAreKept(r, store, page, luck, store', y, x);
    }
    SubsetSize(Newer(store', Project(r, store'), y), kept);
    ShownWhenFewAreNewer(store', r.actor.org, r.project.value, WINDOW, page', y);
  }

  lemma ShownIsDeclared(r: Request, store: Store, page: seq<Monitor>, luck: Luck, store': Store, page': seq<Monitor>, k: string)
    requires Orderly(r, store, page, luck) && Follows(r, store, Existing(page), luck, store') && Listed(r, store', page')
    requires r.prune && ValidNames(r.declared) && (AllListed(r, store, page) || |r.declared| >= WINDOW) && k in Existing(page')
    ensures k in DeclaredKeys(r.declared)
  {
    ExistingFacts(page');
    var e := Existing(page')[k];
    var i :| 0 <= i < |page'| && page'[i] == e;
    assert OnPage(page', e.id);
    if !IsNew(r, Existing(page), luck, e.id) {
      if !OnPage(page, e.id) {
        FullDeclarationHidesTheRest(r, store, page, luck, store', page', e.id);
      }
      var h :| 0 <= h < |page| && page[h].id == e.id;
      RemovedOrSurviving(r, store, page, page[h]);
    }
  }

  /** After a pruning run the next one finds more to delete exactly if monitors were left unlisted and
      the declaration does not fill a page: what it did not see moves up. */
  lemma PruningGoesOnIffTheRestComesUp(r: Request, store: Store, page: seq<Monitor>, visit: seq<string>, luck: Luck,
                                       page': seq<Monitor>, visit': seq<string>, luck': Luck)
    requires Twice(r, store, page, visit, luck, page', visit', luck') && r.prune && UnlistedAreUndeclared(r, store, page)
    ensures visit' == [] <==> AllListed(r, store, page) || |r.declared| >= WINDOW
  {
    var store' := Run(r, store, page, visit, luck).0;
    RunFollows(r, store, page, visit, luck);
    FirstIsIn(visit');
    if AllListed(r, store, page) || |r.declared| >= WINDOW {
      forall k | k in Existing(page') ensures k in DeclaredKeys(r.declared) {
        ShownIsDeclared(r, store, page, luck, store', page', k);
      }
    } else {
      var y := NewestUnlistedComesUp(r, store, page, luck, store', page');
      UnlistedIsKept(r, store, page, luck, store', y);
      ShownIsFound(r, store', page', y);
      assert Lower(store'.monitors[y].name) in visit';
    }
  }

  lemma PruningRunDeletes(r: Request, store: Store, page: seq<Monitor>, visit: seq<string>, luck: Luck)
    requires Ready(r, store, page, visit, luck) && NoFailures(Run(r, store, page, visit, luck).1) && r.prune && visit != []
    ensures Run(r, store, page, visit, luck).0 != store
  {
    var k := visit[0];
    assert k in visit;
    RunSettles(r, store, page, visit, luck);
    RemovedAreNoSlots(r, store, page, visit, luck, k);
    PageNamesAreTight(r, store, page, k);
    assert Existing(page)[k].id in RemovedBy(r, Existing(page));
  }

  /** With pruning the second run is without any effect exactly if no more is declared than a listing
      holds, and the first listing left no monitor out or exactly a page is declared. */
  lemma SecondPruningChangesNothingIff(r: Request, store: Store, page: seq<Monitor>, visit: seq<string>, luck: Luck,
                                       page': seq<Monitor>, visit': seq<string>, luck': Luck)
    requires Twice(r, store, page, visit, luck, page', visit', luck') && r.prune && UnlistedAreUndeclared(r, store, page)
    requires UnusedIds(Run(r, store, page, visit, luck).0, r.declared, luck')
    ensures var store' := Run(r, store, page, visit, luck).0;
            Run(r, store', page', visit', luck').0 == store' <==>
              |r.declared| <= WINDOW && (AllListed(r, store, page) || |r.declared| == WINDOW)
  {
    var store' := Run(r, store, page, visit, luck).0;
    FitsWithPruning(r, store, page);
    PruningGoesOnIffTheRestComesUp(r, store, page, visit, luck, page', visit', luck');
    RunKeepsSane(r, store, page, visit, luck);
    if !Fits(r, page) {
      MissingIsWritten(r, store, page, visit, luck, store', page', visit', luck');
    } else if visit' != [] {
      PruningRunDeletes(r, store', page', visit', luck');
    } else {
      FittingRunIdles(r, store, page, visit, luck, page', visit', luck');
    }
  }

  // ---- a listing always exists ----

  lemma {:induction false} NewestExists(store: Store, ids: set<Uuid>) returns (newest: Uuid)
    requires ids != {} && ids <= store.monitors.Keys
    ensures newest in ids && forall id | id in ids :: store.monitors[id].createdAt <= store.monitors[newest].createdAt
  {
    newest :| newest in ids;
    if ids != {newest} {
      var other := NewestExists(store, ids - {newest});
      if store.monitors[other].createdAt > store.monitors[newest].createdAt {
        newest := other;
      }
    }
  }

  lemma {:induction false} PageExists(store: Store, org: nat, project: nat, limit: nat) returns (page: seq<Monitor>)
    requires SaneStore(store)
    ensures IsPage(store, org, project, limit, page)
  {
    if limit == 0 {
      page := [];
    } else {
      var rest := PageExists(store, org, project, limit - 1);
      var left := InProject(store, org, project) - IdsOf(rest);
      if left == {} {
        page := rest;
        AllOnPage(store, org, project, rest);
      } else {
        var newest := NewestExists(store, left);
        page := rest + [store.monitors[newest]];
        PageGrows(store, org, project, limit - 1, rest, newest);
      }
    }
  }

  lemma AllOnPage(store: Store, org: nat, project: nat, page: seq<Monitor>)
    requires InProject(store, org, project) - IdsOf(page) == {}
    ensures forall id | id in InProject(store, org, project) :: OnPage(page, id)
  {
    forall id | id in InProject(store, org, project) ensures OnPage(page, id) {
      assert id !in InProject(store, org, project) - IdsOf(page);
      var m :| m in page && m.id == id;
    }
  }

  lemma PageGrows(store: Store, org: nat, project: nat, limit: nat, rest: seq<Monitor>, newest: Uuid)
    requires SaneStore(store) && IsPage(store, org, project, limit, rest)
    requires newest in InProject(store, org, project) - IdsOf(rest)
    requires forall id | id in InProject(store, org, project) - IdsOf(rest) :: store.monitors[id].createdAt <= store.monitors[newest].createdAt
    ensures IsPage(store, org, project, limit + 1, rest + [store.monitors[newest]])
  {
    var m := store.monitors[newest];
    var page := rest + [m];
    assert !OnPage(rest, newest);
    forall id | id in InProject(store, org, project) && !OnPage(page, id)
      ensures !OnPage(rest, id) && id in InProject(store, org, project) - IdsOf(rest)
    {
      OnPageSnoc(rest, m, id);
    }
  }

  lemma VisitExists(r: Request, existing: map<string, Monitor>) returns (visit: seq<string>)
    ensures IsVisit(r, existing, visit)
  {
    visit := SortedNames(existing.Keys - DeclaredKeys(r.declared));
    forall i, j | 0 <= i < j < |visit| ensures visit[i] != visit[j] {
      LessIrreflexive(visit[i]);
    }
  }
}
