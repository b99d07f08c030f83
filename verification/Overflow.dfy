/**
 A project that fills the listing, and a declaration of two monitors that does not converge: the
 oldest listed one, and a new one that pushes it off the page.
 */
module Overflow {
  import opened Text
  import opened Monitors
  import opened ConfigSync
  import opened Convergence
  import opened Window
  import opened Sets
  import opened Wrappers

  const PLAIN := Settings("GET", [], "", "", true, map[], false, "", 0, 0, "balanced", "", "", [], "", false)

  function MarkId(i: nat): Uuid
    requires i < 256
  {
    seq(32, k requires 0 <= k < 32 => if k == 0 then i / 16 else if k == 1 then i % 16 else 0)
  }

  function MarkOf(id: Uuid): nat {
    id[0] * 16 + id[1]
  }

  lemma MarksDiffer(i: nat)
    requires i < 256
    ensures MarkOf(MarkId(i)) == i
  {
    assert MarkId(i)[0] == i / 16 && MarkId(i)[1] == i % 16;
  }

  /** The monitors of the project are called m, mm, mmm and so on. */
  function MarkName(i: nat): (name: string)
    ensures |name| == i + 1 && Lower(name) == name && Tight(name) && name[0] == 'm'
  {
    var name := seq(i + 1, k requires 0 <= k < i + 1 => 'm');
    assert Lower(name) == name;
    name
  }

  function Mark(i: nat): Monitor
    requires i < 256
  {
    Monitor(MarkId(i), 1, 1, MarkName(i), Heartbeat, HEARTBEAT_TARGET, true, false, 60, 10, 60, PLAIN, Unknown, i)
  }

  function MarkIds(n: nat): set<Uuid>
    requires n <= 256
  {
    set i | 0 <= i < n :: MarkId(i)
  }

  function Shelf(n: nat): Store
    requires n <= 256
  {
    Store(map id | id in MarkIds(n) :: Mark(MarkOf(id)), {(1, 1)})
  }

  function ShelfPage(n: nat): seq<Monitor>
    requires n <= 256
  {
    seq(n, i requires 0 <= i < n => Mark(n - 1 - i))
  }

  lemma {:induction false} MarkIdsCount(n: nat)
    requires n <= 256
    ensures |MarkIds(n)| <= n
  {
    if n > 0 {
      MarkIdsCount(n - 1);
      assert MarkIds(n) == MarkIds(n - 1) + {MarkId(n - 1)};
    }
  }

  lemma ShelfHolds(n: nat, i: nat)
    requires i < n <= 256
    ensures MarkId(i) in InProject(Shelf(n), 1, 1) && Shelf(n).monitors[MarkId(i)] == Mark(i)
  {
    MarksDiffer(i);
  }

  lemma ShelfHoldsOnly(n: nat, id: Uuid) returns (i: nat)
    requires n <= 256 && id in Shelf(n).monitors
    ensures i < n && id == MarkId(i) && Shelf(n).monitors[id] == Mark(i)
  {
    i :| 0 <= i < n && MarkId(i) == id;
    MarksDiffer(i);
  }

  lemma ShelfFacts(n: nat)
    requires n <= 256
    ensures SaneStore(Shelf(n)) && NamesDiffer(Shelf(n), 1, 1) && TimesDiffer(Shelf(n), InProject(Shelf(n), 1, 1))
    ensures forall id | id in Shelf(n).monitors :: Shelf(n).monitors[id].createdAt < n && IsPlain(Shelf(n).monitors[id])
    ensures |InProject(Shelf(n), 1, 1)| <= n && |OfOrg(Shelf(n), 1)| <= n
  {
    var store := Shelf(n);
    forall id | id in store.monitors
      ensures store.monitors[id].id == id && Sane(store.monitors[id]) && store.monitors[id].createdAt < n && IsPlain(store.monitors[id])
    {
      var i := ShelfHoldsOnly(n, id);
    }
    forall a, b | a in store.monitors && b in store.monitors && a != b
      ensures Lower(store.monitors[a].name) != Lower(store.monitors[b].name) && store.monitors[a].createdAt != store.monitors[b].createdAt
    {
      var i := ShelfHoldsOnly(n, a);
      var j := ShelfHoldsOnly(n, b);
    }
    MarkIdsCount(n);
    SubsetSize(OfOrg(store, 1), MarkIds(n));
    SubsetSize(InProject(store, 1, 1), MarkIds(n));
  }

  lemma ShelfPageDescends(n: nat, i: nat, j: nat)
    requires i < j < n <= 256
    ensures ShelfPage(n)[i].id != ShelfPage(n)[j].id && ShelfPage(n)[i].createdAt > ShelfPage(n)[j].createdAt
  {
    var page := ShelfPage(n);
    assert page[i] == Mark(n - 1 - i) && page[j] == Mark(n - 1 - j);
    MarksDiffer(n - 1 - i);
    MarksDiffer(n - 1 - j);
  }

  lemma ShelfIsOnPage(n: nat, id: Uuid)
    requires n <= 256 && id in Shelf(n).monitors
    ensures OnPage(ShelfPage(n), id)
  {
    var i := ShelfHoldsOnly(n, id);
    assert ShelfPage(n)[n - 1 - i].id == id;
  }

  lemma ShelfIsListed(n: nat)
    requires n <= 256
    ensures IsPage(Shelf(n), 1, 1, n, ShelfPage(n))
  {
    var store, page := Shelf(n), ShelfPage(n);
    forall i | 0 <= i < n ensures page[i].id in InProject(store, 1, 1) && store.monitors[page[i].id] == page[i] {
      ShelfHolds(n, n - 1 - i);
    }
    forall i, j | 0 <= i < j < n ensures page[i].id != page[j].id && page[i].createdAt >= page[j].createdAt {
      ShelfPageDescends(n, i, j);
    }
    forall id | id in InProject(store, 1, 1) ensures OnPage(page, id) {
      ShelfIsOnPage(n, id);
    }
  }

  predicate IsPlain(m: Monitor) {
    m.kind == Heartbeat && m.target == HEARTBEAT_TARGET && m.settings == PLAIN
  }

  predicate PlainStore(store: Store) {
    (1, 1) in store.projects && forall id | id in store.monitors :: IsPlain(store.monitors[id])
  }

  function PlainOf(name: string): Desired {
    Desired(name, Heartbeat, HEARTBEAT_TARGET, 0, 0, 0, None, None, PLAIN)
  }

  predicate PlainRequest(r: Request) {
    && !r.dryRun && r.project == Some(1) && r.actor == Actor(1, true) && !r.prune
    && r.ctx.limits(1) == Limits(1000, 10) && forall d | d in r.declared :: d == PlainOf(d.name)
  }

  lemma PlainBuilds(r: Request, store: Store, name: string, id: Uuid, now: nat)
    requires PlainRequest(r) && PlainStore(store) && |OfOrg(store, 1)| < 1000
    ensures var built := Built(r.ctx, store, r.actor, CreationOf(PlainOf(name), 1), id, now);
            built.Ok? && IsPlain(built.value) && built.value.org == 1
  {
    NoMasksKept(PLAIN.headers, map[]);
  }

  lemma PlainStores(store: Store, id: Uuid, m: Monitor)
    requires PlainStore(store) && IsPlain(m) && m.org == 1
    ensures var store' := store.(monitors := store.monitors[id := m]);
            PlainStore(store') && |OfOrg(store', 1)| <= |OfOrg(store, 1)| + 1
  {
    var store' := store.(monitors := store.monitors[id := m]);
    SubsetSize(OfOrg(store', 1), OfOrg(store, 1) + {id});
  }

  lemma PlainDeclareSucceeds(r: Request, existing: map<string, Monitor>, store: Store, name: string, luck: Luck)
    requires PlainRequest(r) && PlainStore(store) && luck.createFails == {} && |OfOrg(store, 1)| < 1000
    requires forall k | k in existing :: IsPlain(existing[k])
    ensures var (store', item) := DeclareOne(r, existing, store, PlainOf(name), luck);
            item.act != Failed && PlainStore(store') && |OfOrg(store', 1)| <= |OfOrg(store, 1)| + 1
  {
    var k := Key(PlainOf(name));
    if k !in existing {
      PlainBuilds(r, store, name, luck.newId(k), luck.now(k));
      PlainStores(store, luck.newId(k), Built(r.ctx, store, r.actor, CreationOf(PlainOf(name), 1), luck.newId(k), luck.now(k)).value);
    }
  }

  lemma {:induction false} PlainDeclarationsSucceed(r: Request, existing: map<string, Monitor>, store: Store, ds: seq<Desired>, luck: Luck)
    requires PlainRequest(r) && PlainStore(store) && luck.createFails == {} && |OfOrg(store, 1)| + |ds| <= 1000
    requires (forall k | k in existing :: IsPlain(existing[k])) && forall d | d in ds :: d == PlainOf(d.name)
    ensures var (store', items) := DeclareAll(r, existing, store, ds, luck);
            NoFailures(items) && PlainStore(store') && |OfOrg(store', 1)| <= |OfOrg(store, 1)| + |ds|
  {
    if ds != [] {
      var n := |ds| - 1;
      assert ds[n] in ds && forall d | d in ds[..n] :: d in ds;
      PlainDeclarationsSucceed(r, existing, store, ds[..n], luck);
      PlainDeclareSucceeds(r, existing, DeclareAll(r, existing, store, ds[..n], luck).0, ds[n].name, luck);
    }
  }

  lemma PlainRunSucceeds(r: Request, store: Store, page: seq<Monitor>, visit: seq<string>, luck: Luck)
    requires PlainRequest(r) && PlainStore(store) && luck.createFails == {} && |OfOrg(store, 1)| + |r.declared| <= 1000
    requires Listed(r, store, page) && IsVisit(r, Existing(page), visit)
    ensures var (store', items) := Run(r, store, page, visit, luck);
            NoFailures(items) && PlainStore(store') && |OfOrg(store', 1)| <= |OfOrg(store, 1)| + |r.declared|
  {
    var existing := Existing(page);
    PlainListing(r, store, page);
    PlainDeclarationsSucceed(r, existing, store, r.declared, luck);
    KeptRunIsItsDeclarations(r, store, page, visit, luck);
  }

  lemma PlainListing(r: Request, store: Store, page: seq<Monitor>)
    requires PlainRequest(r) && PlainStore(store) && Listed(r, store, page)
    ensures forall k | k in Existing(page) :: IsPlain(Existing(page)[k])
  {
    ExistingFacts(page);
  }

  /** Without pruning a run is what its declarations do, and the rest of its report is no failure. */
  lemma KeptRunIsItsDeclarations(r: Request, store: Store, page: seq<Monitor>, visit: seq<string>, luck: Luck)
    requires !r.prune && IsVisit(r, Existing(page), visit)
    ensures var (store1, items1) := DeclareAll(r, Existing(page), store, r.declared, luck);
            var (store', items) := Run(r, store, page, visit, luck);
            store' == store1 && (NoFailures(items1) ==> NoFailures(items))
  {
    var store1 := DeclareAll(r, Existing(page), store, r.declared, luck).0;
    KeptRemoveWritesNothing(r, Existing(page), store1, visit, luck);
    KeptRemoveReports(r, Existing(page), store1, visit, luck);
  }

  lemma {:induction false} AllSurvive(r: Request, page: seq<Monitor>)
    requires !r.prune
    ensures Surviving(r, page) == page
  {
    if page != [] {
      AllSurvive(r, page[..|page| - 1]);
    }
  }

  lemma NameIsKey(name: string)
    requires Lower(name) == name && Tight(name)
    ensures Key(PlainOf(name)) == name
  {
    TrimIsTight(name, IsSpace);
  }

  // ---- the run ----

  const NEW := "new"

  function TwoNames(): Request {
    Request(Context(Net(s => None, s => None, s => false), org => Limits(1000, 10)), Actor(1, true), Some(1),
            [PlainOf(MarkName(0)), PlainOf(NEW)], false, false)
  }

  function Draws(first: nat, now: nat): Luck
    requires first < 255
  {
    Luck(k => if k == NEW then MarkId(first) else MarkId(first + 1), k => now, {}, {}, {})
  }

  lemma TwoKeys()
    ensures Key(TwoNames().declared[0]) == MarkName(0) && Key(TwoNames().declared[1]) == NEW
    ensures DeclaredKeys(TwoNames().declared) == {MarkName(0), NEW} && MarkName(0) != NEW
  {
    var ds := TwoNames().declared;
    assert Lower(NEW) == NEW;
    NameIsKey(NEW);
    NameIsKey(MarkName(0));
    assert MarkName(0)[0] != NEW[0];
    assert ds[0] in ds && ds[1] in ds;
  }

  lemma MarkIsUnused(n: nat, i: nat)
    requires n <= i < 256
    ensures MarkId(i) !in Shelf(n).monitors
  {
    if MarkId(i) in Shelf(n).monitors {
      var j := ShelfHoldsOnly(n, MarkId(i));
      MarksDiffer(i);
      MarksDiffer(j);
    }
  }

  lemma DrawsAreUnused(store: Store, first: nat, now: nat)
    requires first < 255 && MarkId(first) !in store.monitors && MarkId(first + 1) !in store.monitors
    ensures UnusedIds(store, TwoNames().declared, Draws(first, now))
  {
    TwoKeys();
    MarksDiffer(first);
    MarksDiffer(first + 1);
  }

  lemma TwoNamesAreValid()
    ensures ValidNames(TwoNames().declared) && AllUnmasked(TwoNames().declared) && PlainRequest(TwoNames())
  {
    TwoKeys();
    TwoArePlain();
    assert |TwoNames().declared| == 2;
  }

  lemma TwoArePlain()
    ensures AllUnmasked(TwoNames().declared) && PlainRequest(TwoNames())
  {
    assert PlainOf(MarkName(0)).name == MarkName(0) && PlainOf(NEW).name == NEW;
  }

  lemma FullShelfHasRoom(n: nat)
    requires n == WINDOW
    ensures UnusedIds(Shelf(n), TwoNames().declared, Draws(n, n))
  {
    MarkIsUnused(n, n);
    MarkIsUnused(n, n + 1);
    DrawsAreUnused(Shelf(n), n, n);
  }

  lemma ShelfIsSane(n: nat)
    requires n <= 256
    ensures SaneStore(Shelf(n))
  {
    ShelfFacts(n);
  }

  lemma FullShelfIsReady(n: nat, visit: seq<string>)
    requires n == WINDOW && IsVisit(TwoNames(), Existing(ShelfPage(n)), visit)
    ensures Ready(TwoNames(), Shelf(n), ShelfPage(n), visit, Draws(n, n))
  {
    TwoNamesAreValid();
    ShelfIsSane(n);
    ShelfIsListed(n);
    FullShelfHasRoom(n);
  }

  lemma FullShelfIsOrderly(n: nat)
    requires n == WINDOW
    ensures Orderly(TwoNames(), Shelf(n), ShelfPage(n), Draws(n, n))
  {
    ShelfFacts(n);
    ShelfIsListed(n);
    MarkIsUnused(n, n);
    MarkIsUnused(n, n + 1);
    DrawsAreUnused(Shelf(n), n, n);
  }

  lemma ShelfNames(n: nat)
    requires 0 < n <= 256
    ensures NEW !in Existing(ShelfPage(n)) && MarkName(0) in Existing(ShelfPage(n))
  {
    var page := ShelfPage(n);
    ExistingFacts(page);
    assert page[n - 1] == Mark(0) && Mark(0) in page;
    forall m | m in page ensures Lower(m.name) != NEW {
      MarksAreNotNew(n, m);
    }
  }

  lemma MarksAreNotNew(n: nat, m: Monitor)
    requires n <= 256 && m in ShelfPage(n)
    ensures Lower(m.name) != NEW
  {
    var i :| 0 <= i < n && ShelfPage(n)[i] == m;
    assert m == Mark(n - 1 - i);
    assert Lower(m.name)[0] == 'm' && NEW[0] == 'n';
  }

  lemma FullShelfDoesNotFit(n: nat)
    requires n == WINDOW
    ensures Unseen(Existing(ShelfPage(n)), TwoNames().declared) == {NEW} && !Fits(TwoNames(), ShelfPage(n))
  {
    var r, page := TwoNames(), ShelfPage(n);
    TwoKeys();
    ShelfNames(n);
    AllSurvive(r, page);
    assert page[n - 1] == Mark(0);
    assert Unseen(Existing(page), r.declared) == {NEW};
    assert Reach(r, page) == n;
  }

  /** Declaring one new monitor beside the oldest of 50 listed ones, the latter as it is stored, is not
      settled after one run: without any failure the second run creates the old one again. */
  lemma OldestIsCreatedAgain() returns (n: nat, visit: seq<string>, page': seq<Monitor>, visit': seq<string>)
    ensures n == WINDOW
    ensures var (r, store, page, luck, luck') := (TwoNames(), Shelf(n), ShelfPage(n), Draws(n, n), Draws(n + 2, n + 1));
            && Twice(r, store, page, visit, luck, page', visit', luck')
            && |Project(r, store)| <= WINDOW && MarkName(0) in Existing(page)
            && AllTaken(r, Run(r, store, page, visit, luck).0) && MarkName(0) !in Existing(page')
            && TallyOf(Run(r, Run(r, store, page, visit, luck).0, page', visit', luck').1).created == 1
  {
    n := WINDOW;
    var r, store, page, luck, luck' := TwoNames(), Shelf(n), ShelfPage(n), Draws(n, n), Draws(n + 2, n + 1);
    visit := VisitExists(r, Existing(page));
    ShelfFacts(n);
    FullShelfIsReady(n, visit);
    FullShelfIsOrderly(n);
    TwoNamesAreValid();
    page', visit' := BothSucceed(r, store, page, visit, luck, luck');
    FullShelfDoesNotFit(n);
    ShelfNames(n);
    TwoKeys();
    ApplyingAgainDuplicates(r, store, page, visit, luck, page', visit', luck');
    OneIsCreatedAgain(r, store, page, visit, luck, page', visit', luck', MarkName(0), NEW);
  }

  lemma BothSucceed(r: Request, store: Store, page: seq<Monitor>, visit: seq<string>, luck: Luck, luck': Luck)
    returns (page': seq<Monitor>, visit': seq<string>)
    requires Ready(r, store, page, visit, luck) && Orderly(r, store, page, luck) && PlainRequest(r) && PlainStore(store)
    requires luck.createFails == luck'.createFails == {} && |OfOrg(store, 1)| + 2 * |r.declared| <= 1000
    ensures Twice(r, store, page, visit, luck, page', visit', luck')
  {
    PlainRunSucceeds(r, store, page, visit, luck);
    RunKeepsSane(r, store, page, visit, luck);
    var store' := Run(r, store, page, visit, luck).0;
    page' := PageExists(store', 1, 1, WINDOW);
    visit' := VisitExists(r, Existing(page'));
    PlainRunSucceeds(r, store', page', visit', luck');
  }

  lemma OneIsCreatedAgain(r: Request, store: Store, page: seq<Monitor>, visit: seq<string>, luck: Luck,
                          page': seq<Monitor>, visit': seq<string>, luck': Luck, oldest: string, added: string)
    requires Twice(r, store, page, visit, luck, page', visit', luck') && DeclaredKeys(r.declared) == {oldest, added}
    requires Unseen(Existing(page), r.declared) == {added} && !Fits(r, page)
    ensures oldest !in Existing(page')
    ensures TallyOf(Run(r, Run(r, store, page, visit, luck).0, page', visit', luck').1).created == 1
  {
    var store' := Run(r, store, page, visit, luck).0;
    SecondRunCreatesNothingIffItFits(r, store, page, visit, luck, page', visit', luck');
    RunFollows(r, store, page, visit, luck);
    NewIsShown(r, store, page, luck, store', page', added);
    ShownIsFound(r, store', page', luck.newId(added));
    OnlyOneIsMissing(Existing(page'), r.declared, oldest, added);
  }

  lemma OnlyOneIsMissing(existing: map<string, Monitor>, ds: seq<Desired>, a: string, b: string)
    requires DeclaredKeys(ds) == {a, b} && b in existing && |Unseen(existing, ds)| > 0
    ensures Unseen(existing, ds) == {a} && a !in existing
  {
    var missing := Unseen(existing, ds);
    var k :| k in missing;
    assert k == a;
  }
}
