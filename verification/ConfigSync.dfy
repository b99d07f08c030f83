/**
 The declarative sync: given a declared set of monitors, work out the difference from what a
 project holds and apply it, report it, or both. Which project is meant is decided by the project
 service, which is not part of this model; `None` stands for one a dry run found missing.
 */
module ConfigSync {
  import opened Text
  import opened Monitors
  import opened Wrappers

  datatype Desired = Desired(name: string, kind: Type, target: string, interval: int, timeout: int, grace: int,
                             enabled: Option<bool>, public: Option<bool>, settings: Settings)

  datatype Act = Created | Updated | Unchanged | Removed | WouldRemove | Failed

  datatype Item = Item(name: string, act: Act, id: Option<Uuid>)

  datatype Tally = Tally(created: nat, updated: nat, untouched: nat, removed: nat, wouldRemove: nat, failed: nat)

  /** Who asks, what for, and where. */
  datatype Request = Request(ctx: Context, actor: Actor, project: Option<nat>, declared: seq<Desired>, prune: bool, dryRun: bool)

  /** What the system draws or decides while a request runs: ids and times of new monitors, and
      which of the database writes fail. */
  datatype Luck = Luck(newId: string -> Uuid, now: string -> nat, createFails: set<string>, updateFails: set<Uuid>, deleteFails: set<Uuid>)

  const MAX_DECLARED := 500

  /** A declared name is matched trimmed and ignoring case. */
  function Key(d: Desired): string {
    Lower(Trim(d.name))
  }

  predicate ValidNames(ds: seq<Desired>) {
    && (forall i | 0 <= i < |ds| :: Key(ds[i]) != "")
    && (forall i, j | 0 <= i < j < |ds| :: Key(ds[i]) != Key(ds[j]))
  }

  lemma NamesAreBlankOrNot(ds: seq<Desired>)
    ensures (forall i | 0 <= i < |ds| :: Key(ds[i]) != "") <==> (forall d | d in ds :: Trim(d.name) != "")
    ensures ValidNames(ds) <==> (forall d | d in ds :: Trim(d.name) != "")
                                && (forall i, j | 0 <= i < j < |ds| :: Lower(Trim(ds[i].name)) != Lower(Trim(ds[j].name)))
  {
    forall i | 0 <= i < |ds| ensures Key(ds[i]) == "" <==> Trim(ds[i].name) == "" {
      assert ds[i] in ds;
    }
    forall d | d in ds ensures exists i :: 0 <= i < |ds| && ds[i] == d {}
  }

  /** The listed monitors by lower-case name; of several with one name the last listed counts. */
  function Existing(page: seq<Monitor>): map<string, Monitor> {
    if page == [] then map[]
    else Existing(page[..|page| - 1])[Lower(page[|page| - 1].name) := page[|page| - 1]]
  }

  predicate Changed(cur: Monitor, d: Desired) {
    || !EqualFold(cur.target, d.target)
    || (d.interval > 0 && cur.interval != d.interval)
    || (d.enabled.Some? && cur.enabled != d.enabled.value)
    || (d.public.Some? && cur.public != d.public.value)
    || cur.settings != d.settings
  }

  function CreationOf(d: Desired, project: nat): CreateInput {
    CreateInput(project, d.name, d.kind, d.target, d.enabled, d.public, d.interval, d.timeout, d.settings, d.grace)
  }

  function ChangeOf(d: Desired): UpdateInput {
    UpdateInput(None, Some(d.target), d.enabled, d.public, if d.interval > 0 then Some(d.interval) else None, None, Some(d.settings))
  }

  // ---- what one request does ----

  function CreateOne(r: Request, store: Store, d: Desired, luck: Luck): (Store, Item) {
    if r.dryRun then (store, Item(d.name, Created, None))
    else if r.project.None? then (store, Item(d.name, Failed, None))
    else
      var key := Key(d);
      var (store', m) := Monitors.Created(r.ctx, store, r.actor, CreationOf(d, r.project.value), luck.newId(key), luck.now(key),
                                          key in luck.createFails);
      if m.Ok? then (store', Item(d.name, Created, Some(m.value.id))) else (store', Item(d.name, Failed, None))
  }

  function UpdateOne(r: Request, store: Store, cur: Monitor, d: Desired, luck: Luck): (Store, Item) {
    if r.dryRun then (store, Item(d.name, Updated, Some(cur.id)))
    else
      var (store', m) := Monitors.Updated(r.ctx, store, r.actor, cur.id, ChangeOf(d), cur.id in luck.updateFails);
      (store', Item(d.name, if m.Ok? then Updated else Failed, Some(cur.id)))
  }

  function DeclareOne(r: Request, existing: map<string, Monitor>, store: Store, d: Desired, luck: Luck): (Store, Item) {
    if Key(d) !in existing then CreateOne(r, store, d, luck)
    else if !Changed(existing[Key(d)], d) then (store, Item(d.name, Unchanged, Some(existing[Key(d)].id)))
    else UpdateOne(r, store, existing[Key(d)], d, luck)
  }

  /** The declared monitors in order, each against the same listing. */
  function DeclareAll(r: Request, existing: map<string, Monitor>, store: Store, ds: seq<Desired>, luck: Luck): (Store, seq<Item>) {
    if ds == [] then (store, [])
    else
      var (store1, items) := DeclareAll(r, existing, store, ds[..|ds| - 1], luck);
      var (store2, item) := DeclareOne(r, existing, store1, ds[|ds| - 1], luck);
      (store2, items + [item])
  }

  function RemoveOne(r: Request, store: Store, m: Monitor, luck: Luck): (Store, Item) {
    if !r.prune || r.dryRun then (store, Item(m.name, WouldRemove, Some(m.id)))
    else
      var (store', done) := Deleted(store, r.actor, m.id, m.id in luck.deleteFails);
      (store', Item(m.name, if done.Ok? then Removed else Failed, Some(m.id)))
  }

  /** The monitors no longer declared, in the order the map happens to be visited. */
  function RemoveAll(r: Request, existing: map<string, Monitor>, store: Store, keys: seq<string>, luck: Luck): (Store, seq<Item>)
    requires forall k | k in keys :: k in existing
  {
    if keys == [] then (store, [])
    else
      var last := keys[|keys| - 1];
      assert last in keys;
      assert forall k | k in keys[..|keys| - 1] :: k in keys;
      var (store1, items) := RemoveAll(r, existing, store, keys[..|keys| - 1], luck);
      var (store2, item) := RemoveOne(r, store1, existing[last], luck);
      (store2, items + [item])
  }

  function DeclaredKeys(ds: seq<Desired>): set<string> {
    set d | d in ds :: Key(d)
  }

  /** The listing a request works from. */
  ghost predicate Listed(r: Request, store: Store, page: seq<Monitor>) {
    if r.project.None? then page == [] else IsPage(store, r.actor.org, r.project.value, NormalizedLimit(MAX_DECLARED * 2), page)
  }

  predicate NoRepeats(keys: seq<string>) {
    forall i, j | 0 <= i < j < |keys| :: keys[i] != keys[j]
  }

  /** An order in which the undeclared entries may be visited. */
  ghost predicate IsVisit(r: Request, existing: map<string, Monitor>, keys: seq<string>) {
    NoRepeats(keys) && forall k :: k in keys <==> k in existing && k !in DeclaredKeys(r.declared)
  }

  function Run(r: Request, store: Store, page: seq<Monitor>, visit: seq<string>, luck: Luck): (Store, seq<Item>)
    requires forall k | k in visit :: k in Existing(page)
  {
    var (store1, items1) := DeclareAll(r, Existing(page), store, r.declared, luck);
    var (store2, items2) := RemoveAll(r, Existing(page), store1, visit, luck);
    (store2, items1 + items2)
  }

  // ---- basic facts about the listing ----

  lemma {:induction false} ExistingFacts(page: seq<Monitor>)
    ensures forall k | k in Existing(page) :: Lower(Existing(page)[k].name) == k && Existing(page)[k] in page
    ensures forall m | m in page :: Lower(m.name) in Existing(page)
    ensures |Existing(page)| <= |page|
  {
    if page != [] {
      var rest, last := page[..|page| - 1], page[|page| - 1];
      ExistingFacts(rest);
      assert page == rest + [last];
      assert Existing(page).Keys == Existing(rest).Keys + {Lower(last.name)};
    }
  }

  ghost predicate DistinctIds(page: seq<Monitor>) {
    forall i, j | 0 <= i < j < |page| :: page[i].id != page[j].id
  }

  /** Different names in the listing are different monitors. */
  lemma ExistingIdsDiffer(page: seq<Monitor>, a: string, b: string)
    requires DistinctIds(page) && a in Existing(page) && b in Existing(page) && a != b
    ensures Existing(page)[a].id != Existing(page)[b].id
  {
    ExistingFacts(page);
  }

  // ---- what counts as a difference ----

  /** The monitor has the options that are declared; one that is left out is not asked about. */
  predicate HasOptions(m: Monitor, d: Desired) {
    && (d.interval > 0 ==> m.interval == d.interval)
    && (d.enabled.Some? ==> m.enabled == d.enabled.value)
    && (d.public.Some? ==> m.public == d.public.value)
  }

  /** It is what is declared, but for the case of its target. */
  predicate Has(m: Monitor, d: Desired) {
    Lower(m.target) == Lower(d.target) && m.settings == d.settings && HasOptions(m, d)
  }

  /** The report on an entry of the listing is "unchanged" exactly if it has all that is declared, and on
      any other declaration that it was created, updated or failed. */
  ghost predicate ReportedAsItStands(existing: map<string, Monitor>, d: Desired, item: Item) {
    && item.name == d.name
    && (item.act == Unchanged <==> Key(d) in existing && Has(existing[Key(d)], d))
    && (Key(d) !in existing ==> item.act in {Created, Failed})
    && (Key(d) in existing ==> item.act in {Unchanged, Updated, Failed} && item.id == Some(existing[Key(d)].id))
  }

  /** Dry or real, and whatever else fails. */
  lemma {:induction false} ReportsAreTrue(r: Request, existing: map<string, Monitor>, store: Store, ds: seq<Desired>, luck: Luck)
    ensures var items := DeclareAll(r, existing, store, ds, luck).1;
            |items| == |ds| && forall i | 0 <= i < |ds| :: ReportedAsItStands(existing, ds[i], items[i])
  {
    if ds != [] {
      var n := |ds| - 1;
      ReportsAreTrue(r, existing, store, ds[..n], luck);
      OneReportIsTrue(r, existing, DeclareAll(r, existing, store, ds[..n], luck).0, ds[n], luck);
    }
  }

  lemma OneReportIsTrue(r: Request, existing: map<string, Monitor>, store: Store, d: Desired, luck: Luck)
    ensures ReportedAsItStands(existing, d, DeclareOne(r, existing, store, d, luck).1)
  {
  }

  lemma {:induction false} RemovalReports(r: Request, existing: map<string, Monitor>, store: Store, keys: seq<string>, luck: Luck)
    requires forall k | k in keys :: k in existing
    ensures var items := RemoveAll(r, existing, store, keys, luck).1;
            |items| == |keys| && forall i | 0 <= i < |keys| ::
              && items[i].name == existing[keys[i]].name && items[i].id == Some(existing[keys[i]].id)
              && (if r.prune && !r.dryRun then items[i].act in {Removed, Failed} else items[i].act == WouldRemove)
  {
    if keys != [] {
      assert forall k | k in keys[..|keys| - 1] :: k in keys;
      RemovalReports(r, existing, store, keys[..|keys| - 1], luck);
    }
  }

  /** The whole report: what is declared, in order, then the listed monitors that are not. */
  lemma RunReportsAreTrue(r: Request, store: Store, page: seq<Monitor>, visit: seq<string>, luck: Luck)
    requires forall k | k in visit :: k in Existing(page)
    ensures var (n, items) := (|r.declared|, Run(r, store, page, visit, luck).1);
            && |items| == n + |visit|
            && (forall i | 0 <= i < n :: ReportedAsItStands(Existing(page), r.declared[i], items[i]))
            && (forall i | n <= i < |items| ::
                  if r.prune && !r.dryRun then items[i].act in {Removed, Failed} else items[i].act == WouldRemove)
  {
    ReportsAreTrue(r, Existing(page), store, r.declared, luck);
    RemovalReports(r, Existing(page), DeclareAll(r, Existing(page), store, r.declared, luck).0, visit, luck);
  }

  // ---- a dry run writes nothing; nothing is deleted unless asked ----

  lemma {:induction false} DryDeclareWritesNothing(r: Request, existing: map<string, Monitor>, store: Store, ds: seq<Desired>, luck: Luck)
    requires r.dryRun
    ensures DeclareAll(r, existing, store, ds, luck).0 == store
  {
    if ds != [] {
      DryDeclareWritesNothing(r, existing, store, ds[..|ds| - 1], luck);
    }
  }

  lemma {:induction false} KeptRemoveWritesNothing(r: Request, existing: map<string, Monitor>, store: Store, keys: seq<string>, luck: Luck)
    requires r.dryRun || !r.prune
    requires forall k | k in keys :: k in existing
    ensures RemoveAll(r, existing, store, keys, luck).0 == store
  {
    if keys != [] {
      assert forall k | k in keys[..|keys| - 1] :: k in keys;
      KeptRemoveWritesNothing(r, existing, store, keys[..|keys| - 1], luck);
    }
  }

  lemma DryRunWritesNothing(r: Request, store: Store, page: seq<Monitor>, visit: seq<string>, luck: Luck)
    requires r.dryRun
    requires forall k | k in visit :: k in Existing(page)
    ensures Run(r, store, page, visit, luck).0 == store
  {
    DryDeclareWritesNothing(r, Existing(page), store, r.declared, luck);
    KeptRemoveWritesNothing(r, Existing(page), store, visit, luck);
  }

  lemma {:induction false} DeclareKeepsIds(r: Request, existing: map<string, Monitor>, store: Store, ds: seq<Desired>, luck: Luck)
    ensures store.monitors.Keys <= DeclareAll(r, existing, store, ds, luck).0.monitors.Keys
  {
    if ds != [] {
      DeclareKeepsIds(r, existing, store, ds[..|ds| - 1], luck);
    }
  }

  /** Without pruning every stored monitor survives, whatever was declared, even nothing. */
  lemma NothingDeletedWithoutPrune(r: Request, store: Store, page: seq<Monitor>, visit: seq<string>, luck: Luck)
    requires !r.prune
    requires forall k | k in visit :: k in Existing(page)
    ensures store.monitors.Keys <= Run(r, store, page, visit, luck).0.monitors.Keys
  {
    DeclareKeepsIds(r, Existing(page), store, r.declared, luck);
    KeptRemoveWritesNothing(r, Existing(page), DeclareAll(r, Existing(page), store, r.declared, luck).0, visit, luck);
  }

  // ---- a dry run predicts ----

  function Predicted(item: Item): (string, Act) {
    (item.name, if item.act == Removed then WouldRemove else item.act)
  }

  function PredictedAll(items: seq<Item>): (ps: seq<(string, Act)>)
    ensures |ps| == |items| && forall i | 0 <= i < |items| :: ps[i] == Predicted(items[i])
  {
    seq(|items|, i requires 0 <= i < |items| => Predicted(items[i]))
  }

  predicate NoFailures(items: seq<Item>) {
    forall i | 0 <= i < |items| :: items[i].act != Failed
  }

  lemma {:induction false} DeclarePredicted(r: Request, existing: map<string, Monitor>, store: Store, dryStore: Store, ds: seq<Desired>, luck: Luck)
    requires !r.dryRun && NoFailures(DeclareAll(r, existing, store, ds, luck).1)
    ensures PredictedAll(DeclareAll(r, existing, store, ds, luck).1)
         == PredictedAll(DeclareAll(r.(dryRun := true), existing, dryStore, ds, luck).1)
  {
    if ds != [] {
      var earlier, d := ds[..|ds| - 1], ds[|ds| - 1];
      EarlierDidNotFail(r, existing, store, ds, luck);
      DeclarePredicted(r, existing, store, dryStore, earlier, luck);
      var (store1, items) := DeclareAll(r, existing, store, earlier, luck);
      var (dry1, dryItems) := DeclareAll(r.(dryRun := true), existing, dryStore, earlier, luck);
      DeclareOnePredicted(r, existing, store1, dry1, d, luck);
      PredictedConcat(items, [DeclareOne(r, existing, store1, d, luck).1]);
      PredictedConcat(dryItems, [DeclareOne(r.(dryRun := true), existing, dry1, d, luck).1]);
    }
  }

  lemma DeclareOnePredicted(r: Request, existing: map<string, Monitor>, store: Store, dryStore: Store, d: Desired, luck: Luck)
    requires !r.dryRun && DeclareOne(r, existing, store, d, luck).1.act != Failed
    ensures PredictedAll([DeclareOne(r, existing, store, d, luck).1])
         == PredictedAll([DeclareOne(r.(dryRun := true), existing, dryStore, d, luck).1])
  {
    assert Predicted(DeclareOne(r, existing, store, d, luck).1) == Predicted(DeclareOne(r.(dryRun := true), existing, dryStore, d, luck).1);
  }

  lemma EarlierDidNotFail(r: Request, existing: map<string, Monitor>, store: Store, ds: seq<Desired>, luck: Luck)
    requires ds != [] && NoFailures(DeclareAll(r, existing, store, ds, luck).1)
    ensures NoFailures(DeclareAll(r, existing, store, ds[..|ds| - 1], luck).1)
    ensures DeclareOne(r, existing, DeclareAll(r, existing, store, ds[..|ds| - 1], luck).0, ds[|ds| - 1], luck).1.act != Failed
  {
    var (store1, items1) := DeclareAll(r, existing, store, ds[..|ds| - 1], luck);
    LastDidNotFail(items1, DeclareOne(r, existing, store1, ds[|ds| - 1], luck).1);
  }

  lemma LastDidNotFail(items: seq<Item>, item: Item)
    requires NoFailures(items + [item])
    ensures NoFailures(items) && item.act != Failed
  {
    PartsDidNotFail(items, [item]);
    assert [item][0].act != Failed;
  }

  lemma PartsDidNotFail(a: seq<Item>, b: seq<Item>)
    requires NoFailures(a + b)
    ensures NoFailures(a) && NoFailures(b) && (a + b)[..|a|] == a
  {
    assert forall i | 0 <= i < |a| :: a[i] == (a + b)[i];
    assert forall i | 0 <= i < |b| :: b[i] == (a + b)[|a| + i];
  }

  lemma {:induction false} RemovePredicted(r: Request, existing: map<string, Monitor>, store: Store, dryStore: Store, keys: seq<string>, luck: Luck)
    requires !r.dryRun && (forall k | k in keys :: k in existing)
    requires NoFailures(RemoveAll(r, existing, store, keys, luck).1)
    ensures PredictedAll(RemoveAll(r, existing, store, keys, luck).1)
         == PredictedAll(RemoveAll(r.(dryRun := true), existing, dryStore, keys, luck).1)
  {
    if keys != [] {
      var earlier := keys[..|keys| - 1];
      assert forall k | k in earlier :: k in keys;
      var items := RemoveAll(r, existing, store, earlier, luck).1;
      assert forall i | 0 <= i < |items| :: items[i] == RemoveAll(r, existing, store, keys, luck).1[i];
      RemovePredicted(r, existing, store, dryStore, earlier, luck);
      assert RemoveAll(r, existing, store, keys, luck).1[|items|].act != Failed;
    }
  }

  /** A real run without failures does to each name exactly what the dry run said, removed read as
      would-remove; the dry run may even precede the project's creation. */
  lemma DryRunPredicts(r: Request, store: Store, dryStore: Store, page: seq<Monitor>, visit: seq<string>, luck: Luck)
    requires !r.dryRun && (forall k | k in visit :: k in Existing(page))
    requires NoFailures(Run(r, store, page, visit, luck).1)
    ensures PredictedAll(Run(r, store, page, visit, luck).1)
         == PredictedAll(Run(r.(dryRun := true), dryStore, page, visit, luck).1)
  {
    var existing := Existing(page);
    var (store1, items1) := DeclareAll(r, existing, store, r.declared, luck);
    var items2 := RemoveAll(r, existing, store1, visit, luck).1;
    var all := Run(r, store, page, visit, luck).1;
    assert all == items1 + items2;
    assert forall i | 0 <= i < |items1| :: items1[i] == all[i];
    assert forall i | 0 <= i < |items2| :: items2[i] == all[|items1| + i];
    DeclarePredicted(r, existing, store, dryStore, r.declared, luck);
    var dry1 := DeclareAll(r.(dryRun := true), existing, dryStore, r.declared, luck).0;
    RemovePredicted(r, existing, store1, dry1, visit, luck);
    PredictedConcat(items1, items2);
    PredictedConcat(DeclareAll(r.(dryRun := true), existing, dryStore, r.declared, luck).1,
                    RemoveAll(r.(dryRun := true), existing, dry1, visit, luck).1);
  }

  lemma PredictedConcat(a: seq<Item>, b: seq<Item>)
    ensures PredictedAll(a + b) == PredictedAll(a) + PredictedAll(b)
  {
  }

  // ---- the order in which the map is visited does not matter ----

  function RemovedIds(r: Request, store: Store, existing: map<string, Monitor>, keys: set<string>, luck: Luck): set<Uuid>
    requires forall k | k in keys :: k in existing
  {
    set k | k in keys && RemoveOne(r, store, existing[k], luck).1.act == Removed :: existing[k].id
  }

  function KeySet(keys: seq<string>): set<string> {
    set k | k in keys
  }

  ghost predicate DistinctEntries(existing: map<string, Monitor>) {
    forall a, b | a in existing && b in existing && a != b :: existing[a].id != existing[b].id
  }

  lemma RemovalIsLocal(r: Request, store: Store, gone: set<Uuid>, m: Monitor, luck: Luck)
    requires m.id !in gone
    ensures var (store', item) := RemoveOne(r, store.(monitors := store.monitors - gone), m, luck);
            item == RemoveOne(r, store, m, luck).1
            && store' == store.(monitors := store.monitors - (gone + if item.act == Removed then {m.id} else {}))
  {
    assert store.monitors - gone - {m.id} == store.monitors - (gone + {m.id});
    assert gone + {} == gone;
  }

  lemma RemovedIdsSnoc(r: Request, store: Store, existing: map<string, Monitor>, keys: set<string>, last: string, luck: Luck)
    requires DistinctEntries(existing) && last !in keys && last in existing && forall k | k in keys :: k in existing
    ensures existing[last].id !in RemovedIds(r, store, existing, keys, luck)
    ensures RemovedIds(r, store, existing, keys + {last}, luck)
         == RemovedIds(r, store, existing, keys, luck)
            + if RemoveOne(r, store, existing[last], luck).1.act == Removed then {existing[last].id} else {}
  {
  }

  ghost predicate EachRemoved(r: Request, existing: map<string, Monitor>, store: Store, keys: seq<string>, luck: Luck, items: seq<Item>)
    requires forall k | k in keys :: k in existing
  {
    |items| == |keys| && forall i | 0 <= i < |keys| :: items[i] == RemoveOne(r, store, existing[keys[i]], luck).1
  }

  lemma EachRemovedSnoc(r: Request, existing: map<string, Monitor>, store: Store, keys: seq<string>, last: string, luck: Luck, items: seq<Item>)
    requires (forall k | k in keys :: k in existing) && last in existing && EachRemoved(r, existing, store, keys, luck, items)
    ensures EachRemoved(r, existing, store, keys + [last], luck, items + [RemoveOne(r, store, existing[last], luck).1])
  {
  }

  /** Each removal acts on its own monitor, so all of them together do what each would do alone. */
  lemma {:induction false} RemoveAllIsPointwise(r: Request, existing: map<string, Monitor>, store: Store, keys: seq<string>, luck: Luck)
    requires DistinctEntries(existing) && NoRepeats(keys) && forall k | k in keys :: k in existing
    ensures RemoveAll(r, existing, store, keys, luck).0
         == store.(monitors := store.monitors - RemovedIds(r, store, existing, KeySet(keys), luck))
    ensures EachRemoved(r, existing, store, keys, luck, RemoveAll(r, existing, store, keys, luck).1)
  {
    if keys == [] {
      assert RemovedIds(r, store, existing, KeySet(keys), luck) == {};
      assert store.monitors - {} == store.monitors;
    } else {
      var earlier, last := keys[..|keys| - 1], keys[|keys| - 1];
      assert keys == earlier + [last];
      assert forall k | k in earlier :: k in keys;
      RemoveAllIsPointwise(r, existing, store, earlier, luck);
      assert KeySet(keys) == KeySet(earlier) + {last};
      RemovedIdsSnoc(r, store, existing, KeySet(earlier), last, luck);
      RemovalIsLocal(r, store, RemovedIds(r, store, existing, KeySet(earlier), luck), existing[last], luck);
      EachRemovedSnoc(r, existing, store, earlier, last, luck, RemoveAll(r, existing, store, earlier, luck).1);
    }
  }

  ghost predicate DistinctNames(items: seq<Item>) {
    forall i, j | 0 <= i < j < |items| :: items[i].name != items[j].name
  }

  /** The items ordered by name. */
  ghost predicate IsReport(items: seq<Item>, report: seq<Item>) {
    multiset(report) == multiset(items) && InOrder(report)
  }

  ghost predicate InOrder(report: seq<Item>) {
    forall i, j | 0 <= i < j < |report| :: !Less(report[j].name, report[i].name)
  }

  lemma {:induction false} DistinctCount(items: seq<Item>, x: Item)
    requires DistinctNames(items)
    ensures multiset(items)[x] == if x in items then 1 else 0
  {
    if items != [] {
      var rest := items[1..];
      assert items == [items[0]] + rest;
      DistinctCount(rest, x);
      assert items[0] !in rest;
    }
  }

  lemma SameFirst(a: seq<Item>, b: seq<Item>)
    requires a != [] && b != [] && multiset(a) == multiset(b) && InOrder(a) && InOrder(b)
    ensures a[0].name == b[0].name && a[0] in b
  {
    assert a[0] in multiset(b) && b[0] in multiset(a);
    var i :| 0 <= i < |a| && a[i] == b[0];
    var j :| 0 <= j < |b| && b[j] == a[0];
    LessTotal(a[0].name, b[0].name);
    LessIrreflexive(a[0].name);
    assert !Less(b[0].name, a[0].name) && !Less(a[0].name, b[0].name);
  }

  ghost predicate NamesIdentify(items: seq<Item>) {
    forall x, y | x in items && y in items && x.name == y.name :: x == y
  }

  lemma {:induction false} SortingIsUnique(a: seq<Item>, b: seq<Item>)
    requires multiset(a) == multiset(b) && InOrder(a) && InOrder(b) && NamesIdentify(b)
    ensures a == b
  {
    assert |a| == |multiset(a)| == |multiset(b)| == |b|;
    if a != [] {
      SameFirst(a, b);
      assert a == [a[0]] + a[1..] && b == [b[0]] + b[1..];
      SortingTail(a);
      SortingTail(b);
      SortingIsUnique(a[1..], b[1..]);
    }
  }

  lemma SortingTail(a: seq<Item>)
    requires a != []
    ensures multiset(a[1..]) == multiset(a) - multiset{a[0]}
    ensures InOrder(a) ==> InOrder(a[1..])
    ensures NamesIdentify(a) ==> NamesIdentify(a[1..])
  {
    assert a == [a[0]] + a[1..];
  }

  /** Declared items in the order of the declaration, under the declared names. */
  lemma {:induction false} DeclaredItemNames(r: Request, existing: map<string, Monitor>, store: Store, ds: seq<Desired>, luck: Luck)
    ensures var items := DeclareAll(r, existing, store, ds, luck).1;
            |items| == |ds| && forall i | 0 <= i < |ds| :: items[i].name == ds[i].name
  {
    if ds != [] {
      var n := |ds| - 1;
      DeclaredItemNames(r, existing, store, ds[..n], luck);
      DeclaredItemName(r, existing, DeclareAll(r, existing, store, ds[..n], luck).0, ds[n], luck);
    }
  }

  lemma DeclaredItemName(r: Request, existing: map<string, Monitor>, store: Store, d: Desired, luck: Luck)
    ensures DeclareOne(r, existing, store, d, luck).1.name == d.name
  {
  }

  lemma PageNamesAreTight(r: Request, store: Store, page: seq<Monitor>, k: string)
    requires SaneStore(store) && Listed(r, store, page) && k in Existing(page)
    ensures Existing(page)[k].id in store.monitors && store.monitors[Existing(page)[k].id] == Existing(page)[k]
    ensures Tight(Existing(page)[k].name) && Lower(Existing(page)[k].name) == k
  {
    ExistingFacts(page);
  }

  lemma ListedEntriesDiffer(r: Request, store: Store, page: seq<Monitor>)
    requires Listed(r, store, page)
    ensures DistinctEntries(Existing(page))
  {
    forall a, b | a in Existing(page) && b in Existing(page) && a != b ensures Existing(page)[a].id != Existing(page)[b].id {
      ExistingIdsDiffer(page, a, b);
    }
  }

  lemma NamesAreApart(ds: seq<Desired>, existing: map<string, Monitor>, visit: seq<string>, declared: seq<Item>, rest: seq<Item>)
    requires ValidNames(ds) && NoRepeats(visit)
    requires forall k | k in visit :: k in existing && k !in DeclaredKeys(ds) && Lower(existing[k].name) == k && Tight(existing[k].name)
    requires |declared| == |ds| && forall i | 0 <= i < |ds| :: declared[i].name == ds[i].name
    requires |rest| == |visit| && forall i | 0 <= i < |visit| :: visit[i] in visit && rest[i].name == existing[visit[i]].name
    ensures DistinctNames(declared + rest)
  {
    forall i, j | 0 <= i < |ds| && 0 <= j < |visit| ensures declared[i].name != rest[j].name {
      assert ds[i] in ds;
      TrimIsTight(rest[j].name, IsSpace);
    }
  }

  lemma RemovedItemNames(r: Request, existing: map<string, Monitor>, store: Store, visit: seq<string>, luck: Luck)
    requires DistinctEntries(existing) && NoRepeats(visit) && forall k | k in visit :: k in existing
    ensures var items := RemoveAll(r, existing, store, visit, luck).1;
            |items| == |visit| && forall i | 0 <= i < |visit| :: visit[i] in visit && items[i].name == existing[visit[i]].name
  {
    RemoveAllIsPointwise(r, existing, store, visit, luck);
  }

  /** No two items of a run carry the same name. */
  lemma ItemNamesAreDistinct(r: Request, store: Store, page: seq<Monitor>, visit: seq<string>, luck: Luck)
    requires SaneStore(store) && Listed(r, store, page) && IsVisit(r, Existing(page), visit) && ValidNames(r.declared)
    ensures DistinctNames(Run(r, store, page, visit, luck).1)
    ensures |Run(r, store, page, visit, luck).1| == |r.declared| + |visit|
  {
    var existing := Existing(page);
    var (store1, items1) := DeclareAll(r, existing, store, r.declared, luck);
    DeclaredItemNames(r, existing, store, r.declared, luck);
    ListedEntriesDiffer(r, store, page);
    RemovedItemNames(r, existing, store1, visit, luck);
    forall k | k in visit ensures Lower(existing[k].name) == k && Tight(existing[k].name) {
      PageNamesAreTight(r, store, page, k);
    }
    NamesAreApart(r.declared, existing, visit, items1, RemoveAll(r, existing, store1, visit, luck).1);
  }

  lemma NamesIdentifyReport(items: seq<Item>, report: seq<Item>)
    requires DistinctNames(items) && multiset(report) == multiset(items)
    ensures NamesIdentify(report)
  {
    forall x, y | x in report && y in report && x.name == y.name ensures x == y {
      assert x in multiset(report) && y in multiset(report);
      assert x in items && y in items;
    }
  }

  /** Lists with the same items, all of different names, are sorted into the same report. */
  lemma OneReport(items: seq<Item>, items': seq<Item>, report: seq<Item>, report': seq<Item>)
    requires DistinctNames(items) && DistinctNames(items') && forall x :: x in items <==> x in items'
    requires IsReport(items, report) && IsReport(items', report')
    ensures report == report'
  {
    forall x ensures multiset(items)[x] == multiset(items')[x] {
      DistinctCount(items, x);
      DistinctCount(items', x);
    }
    assert multiset(items) == multiset(items');
    NamesIdentifyReport(items', report');
    SortingIsUnique(report, report');
  }

  lemma SameEntriesSameItems(r: Request, existing: map<string, Monitor>, store: Store, visit: seq<string>, visit': seq<string>, luck: Luck)
    requires DistinctEntries(existing) && IsVisit(r, existing, visit) && IsVisit(r, existing, visit')
    ensures RemoveAll(r, existing, store, visit, luck).0 == RemoveAll(r, existing, store, visit', luck).0
    ensures forall x :: x in RemoveAll(r, existing, store, visit, luck).1 ==> x in RemoveAll(r, existing, store, visit', luck).1
  {
    RemoveAllIsPointwise(r, existing, store, visit, luck);
    RemoveAllIsPointwise(r, existing, store, visit', luck);
    assert KeySet(visit) == KeySet(visit');
    var items := RemoveAll(r, existing, store, visit, luck).1;
    forall x | x in items ensures x in RemoveAll(r, existing, store, visit', luck).1 {
      var i :| 0 <= i < |items| && items[i] == x;
      assert visit[i] in visit;
      assert visit[i] in visit';
    }
  }

  /** Whatever order the map is visited in, a run leaves the same store and reports the same list. */
  lemma VisitOrderDoesNotMatter(r: Request, store: Store, page: seq<Monitor>, visit: seq<string>, visit': seq<string>, luck: Luck,
                                report: seq<Item>, report': seq<Item>)
    requires SaneStore(store) && Listed(r, store, page) && ValidNames(r.declared)
    requires IsVisit(r, Existing(page), visit) && IsVisit(r, Existing(page), visit')
    requires IsReport(Run(r, store, page, visit, luck).1, report) && IsReport(Run(r, store, page, visit', luck).1, report')
    ensures Run(r, store, page, visit, luck).0 == Run(r, store, page, visit', luck).0
    ensures report == report'
  {
    var existing := Existing(page);
    var store1 := DeclareAll(r, existing, store, r.declared, luck).0;
    ListedEntriesDiffer(r, store, page);
    SameEntriesSameItems(r, existing, store1, visit, visit', luck);
    SameEntriesSameItems(r, existing, store1, visit', visit, luck);
    ItemNamesAreDistinct(r, store, page, visit, luck);
    ItemNamesAreDistinct(r, store, page, visit', luck);
    OneReport(Run(r, store, page, visit, luck).1, Run(r, store, page, visit', luck).1, report, report');
  }

  // ---- the counters ----

  function Count(items: seq<Item>, act: Act): nat {
    if items == [] then 0 else Count(items[..|items| - 1], act) + if items[|items| - 1].act == act then 1 else 0
  }

  function TallyOf(items: seq<Item>): Tally {
    Tally(Count(items, Created), Count(items, Updated), Count(items, Unchanged), Count(items, Removed),
          Count(items, WouldRemove), Count(items, Failed))
  }

  /** Every item is counted under exactly one heading. */
  lemma {:induction false} CountersAddUp(items: seq<Item>)
    ensures var t := TallyOf(items);
            t.created + t.updated + t.untouched + t.removed + t.wouldRemove + t.failed == |items|
  {
    if items != [] {
      CountersAddUp(items[..|items| - 1]);
    }
  }

  // ---- the service ----

  datatype Report = Report(items: seq<Item>, tally: Tally)

  /** What a request that was let through did. */
  ghost predicate Applied(r: Request, before: Store, after: Store, report: Report, page: seq<Monitor>, visit: seq<string>, luck: Luck) {
    && Listed(r, before, page) && IsVisit(r, Existing(page), visit)
    && after == Run(r, before, page, visit, luck).0
    && IsReport(Run(r, before, page, visit, luck).1, report.items)
    && report.tally == TallyOf(report.items)
  }

  class Service {
    const monitors: Monitors.Service

    constructor (monitors: Monitors.Service)
      ensures this.monitors == monitors
    {
      this.monitors := monitors;
    }

    method ValidateNames(ds: seq<Desired>) returns (ok: bool)
      ensures ok <==> ValidNames(ds)
      ensures ok <==> (forall d | d in ds :: Trim(d.name) != "")
                      && (forall i, j | 0 <= i < j < |ds| :: Lower(Trim(ds[i].name)) != Lower(Trim(ds[j].name)))
    {
      var seen: set<string> := {};
      for i := 0 to |ds|
        invariant seen == set j | 0 <= j < i :: Key(ds[j])
        invariant forall j | 0 <= j < i :: Key(ds[j]) != ""
        invariant forall j, k | 0 <= j < k < i :: Key(ds[j]) != Key(ds[k])
      {
        if Key(ds[i]) == "" || Key(ds[i]) in seen {
          NamesAreBlankOrNot(ds);
          return false;
        }
        seen := seen + {Key(ds[i])};
      }
      NamesAreBlankOrNot(ds);
      return true;
    }

    method ByName(page: seq<Monitor>) returns (existing: map<string, Monitor>)
      ensures existing == Existing(page)
    {
      existing := map[];
      for i := 0 to |page|
        invariant existing == Existing(page[..i])
      {
        assert page[..i + 1][..i] == page[..i];
        existing := existing[Lower(page[i].name) := page[i]];
      }
      assert page[..|page|] == page;
    }

    method Insert(sorted: seq<Item>, item: Item) returns (report: seq<Item>)
      requires InOrder(sorted)
      ensures multiset(report) == multiset(sorted) + multiset{item} && InOrder(report)
    {
      var i := 0;
      while i < |sorted| && !Less(item.name, sorted[i].name)
        invariant 0 <= i <= |sorted|
        invariant forall j | 0 <= j < i :: !Less(item.name, sorted[j].name)
      {
        i := i + 1;
      }
      report := sorted[..i] + [item] + sorted[i..];
      assert sorted == sorted[..i] + sorted[i..];
      InsertedInOrder(sorted, i, item);
    }

    method SortByName(items: seq<Item>) returns (report: seq<Item>)
      ensures IsReport(items, report)
    {
      report := [];
      for i := 0 to |items|
        invariant IsReport(items[..i], report)
      {
        assert items[..i + 1] == items[..i] + [items[i]];
        report := Insert(report, items[i]);
      }
      assert items[..|items|] == items;
    }

    method CountItems(items: seq<Item>) returns (t: Tally)
      ensures t == TallyOf(items)
    {
      t := Tally(0, 0, 0, 0, 0, 0);
      for i := 0 to |items|
        invariant t == TallyOf(items[..i])
      {
        assert items[..i + 1][..i] == items[..i];
        match items[i].act {
          case Created => t := t.(created := t.created + 1);
          case Updated => t := t.(updated := t.updated + 1);
          case Unchanged => t := t.(untouched := t.untouched + 1);
          case Removed => t := t.(removed := t.removed + 1);
          case WouldRemove => t := t.(wouldRemove := t.wouldRemove + 1);
          case Failed => t := t.(failed := t.failed + 1);
        }
      }
      assert items[..|items|] == items;
    }

    method Create(r: Request, d: Desired, luck: Luck) returns (item: Item)
      requires r.ctx == monitors.ctx && luck.newId(Key(d)) !in monitors.monitors
      modifies monitors
      ensures (monitors.State(), item) == CreateOne(r, old(monitors.State()), d, luck)
    {
      if r.dryRun {
        return Item(d.name, Created, None);
      }
      if r.project.None? {
        return Item(d.name, Failed, None);
      }
      var m := monitors.Create(r.actor, CreationOf(d, r.project.value), luck.newId(Key(d)), luck.now(Key(d)), Key(d) in luck.createFails);
      if m.Err? {
        return Item(d.name, Failed, None);
      }
      return Item(d.name, Created, Some(m.value.id));
    }

    method Update(r: Request, cur: Monitor, d: Desired, luck: Luck) returns (item: Item)
      requires r.ctx == monitors.ctx
      modifies monitors
      ensures (monitors.State(), item) == UpdateOne(r, old(monitors.State()), cur, d, luck)
    {
      if r.dryRun {
        return Item(d.name, Updated, Some(cur.id));
      }
      var m := monitors.Update(r.actor, cur.id, ChangeOf(d), cur.id in luck.updateFails);
      return Item(d.name, if m.Ok? then Updated else Failed, Some(cur.id));
    }

    method DeclareNext(r: Request, existing: map<string, Monitor>, d: Desired, luck: Luck) returns (item: Item)
      requires r.ctx == monitors.ctx && luck.newId(Key(d)) !in monitors.monitors
      modifies monitors
      ensures (monitors.State(), item) == DeclareOne(r, existing, old(monitors.State()), d, luck)
      ensures monitors.monitors.Keys <= old(monitors.monitors).Keys + {luck.newId(Key(d))}
    {
      if Key(d) !in existing {
        item := Create(r, d, luck);
      } else if !Changed(existing[Key(d)], d) {
        item := Item(d.name, Unchanged, Some(existing[Key(d)].id));
      } else {
        item := Update(r, existing[Key(d)], d, luck);
      }
    }

    method Declare(r: Request, existing: map<string, Monitor>, luck: Luck) returns (items: seq<Item>)
      requires r.ctx == monitors.ctx
      requires forall i | 0 <= i < |r.declared| :: luck.newId(Key(r.declared[i])) !in monitors.monitors
      requires forall i, j | 0 <= i < j < |r.declared| :: luck.newId(Key(r.declared[i])) != luck.newId(Key(r.declared[j]))
      modifies monitors
      ensures (monitors.State(), items) == DeclareAll(r, existing, old(monitors.State()), r.declared, luck)
    {
      items := [];
      var ds := r.declared;
      for i := 0 to |ds|
        invariant (monitors.State(), items) == DeclareAll(r, existing, old(monitors.State()), ds[..i], luck)
        invariant forall j | i <= j < |ds| :: luck.newId(Key(ds[j])) !in monitors.monitors
      {
        assert ds[..i + 1][..i] == ds[..i];
        var item := DeclareNext(r, existing, ds[i], luck);
        items := items + [item];
      }
      assert ds[..|ds|] == ds;
    }

    method Remove(r: Request, m: Monitor, luck: Luck) returns (item: Item)
      requires r.ctx == monitors.ctx
      modifies monitors
      ensures (monitors.State(), item) == RemoveOne(r, old(monitors.State()), m, luck)
    {
      if !r.prune {
        return Item(m.name, WouldRemove, Some(m.id));
      }
      if r.dryRun {
        return Item(m.name, WouldRemove, Some(m.id));
      }
      var done := monitors.Delete(r.actor, m.id, m.id in luck.deleteFails);
      if done.Err? {
        return Item(m.name, Failed, Some(m.id));
      }
      return Item(m.name, Removed, Some(m.id));
    }

    method RemoveUndeclared(r: Request, existing: map<string, Monitor>, luck: Luck) returns (items: seq<Item>, ghost visit: seq<string>)
      requires r.ctx == monitors.ctx
      modifies monitors
      ensures IsVisit(r, existing, visit)
      ensures (monitors.State(), items) == RemoveAll(r, existing, old(monitors.State()), visit, luck)
    {
      var declared := DeclaredKeys(r.declared);
      var todo := existing.Keys;
      items, visit := [], [];
      while todo != {}
        invariant todo <= existing.Keys && NoRepeats(visit)
        invariant forall k :: k in visit <==> k in existing && k !in declared && k !in todo
        invariant (monitors.State(), items) == RemoveAll(r, existing, old(monitors.State()), visit, luck)
        decreases todo
      {
        var k :| k in todo;
        todo := todo - {k};
        if k !in declared {
          assert (visit + [k])[..|visit|] == visit;
          var item := Remove(r, existing[k], luck);
          items := items + [item];
          visit := visit + [k];
        }
      }
    }

    /** The request proper, once the listing is known. */
    method Reconcile(r: Request, current: seq<Monitor>, luck: Luck) returns (report: Report, ghost visit: seq<string>)
      requires r.ctx == monitors.ctx && Listed(r, monitors.State(), current)
      requires forall i | 0 <= i < |r.declared| :: luck.newId(Key(r.declared[i])) !in monitors.monitors
      requires forall i, j | 0 <= i < j < |r.declared| :: luck.newId(Key(r.declared[i])) != luck.newId(Key(r.declared[j]))
      modifies monitors
      ensures Applied(r, old(monitors.State()), monitors.State(), report, current, visit, luck)
    {
      var existing := ByName(current);
      var items := Declare(r, existing, luck);
      var rest;
      rest, visit := RemoveUndeclared(r, existing, luck);
      var sorted := SortByName(items + rest);
      var tally := CountItems(sorted);
      report := Report(sorted, tally);
    }

    method Apply(r: Request, luck: Luck, listingFails: bool)
      returns (result: Result<Report, Error>, ghost page: seq<Monitor>, ghost visit: seq<string>)
      requires r.ctx == monitors.ctx && SaneStore(monitors.State())
      requires forall i | 0 <= i < |r.declared| :: luck.newId(Key(r.declared[i])) !in monitors.monitors
      requires forall i, j | 0 <= i < j < |r.declared| && Key(r.declared[i]) != Key(r.declared[j]) ::
                 luck.newId(Key(r.declared[i])) != luck.newId(Key(r.declared[j]))
      modifies monitors
      ensures !r.actor.canWrite ==> result == Err(Forbidden)
      ensures r.actor.canWrite && (|r.declared| > MAX_DECLARED || !ValidNames(r.declared)) ==> result == Err(Validation)
      ensures r.actor.canWrite && |r.declared| <= MAX_DECLARED && ValidNames(r.declared) ==>
                if listingFails && r.project.Some? then result == Err(Internal)
                else result.Ok? && Applied(r, old(monitors.State()), monitors.State(), result.value, page, visit, luck)
      ensures result.Err? ==> monitors.State() == old(monitors.State())
    {
      page, visit := [], [];
      if !r.actor.canWrite {
        return Err(Forbidden), page, visit;
      }
      if |r.declared| > MAX_DECLARED {
        return Err(Validation), page, visit;
      }
      var ok := ValidateNames(r.declared);
      if !ok {
        return Err(Validation), page, visit;
      }
      var current := [];
      if r.project.Some? {
        if listingFails {
          return Err(Internal), page, visit;
        }
        current := monitors.List(r.actor.org, r.project.value, MAX_DECLARED * 2);
      }
      var report, order := Reconcile(r, current, luck);
      return Ok(report), current, order;
    }
  }

  lemma InsertedInOrder(sorted: seq<Item>, i: nat, item: Item)
    requires InOrder(sorted) && i <= |sorted|
    requires forall j | 0 <= j < i :: !Less(item.name, sorted[j].name)
    requires i < |sorted| ==> Less(item.name, sorted[i].name)
    ensures InOrder(sorted[..i] + [item] + sorted[i..])
  {
    forall j | i <= j < |sorted| ensures !Less(sorted[j].name, item.name) {
      LessIrreflexive(sorted[j].name);
      if Less(sorted[j].name, item.name) {
        LessTransitive(sorted[j].name, item.name, sorted[i].name);
      }
    }
  }
}
