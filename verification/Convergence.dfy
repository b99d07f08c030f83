/**
 Running the same declaration twice. Within the 50 monitors a listing can hold the second run is
 without effect; beyond them it creates everything it cannot see again.
 */
module Convergence {
  import opened Text
  import opened Monitors
  import opened ConfigSync
  import opened Sets
  import opened Wrappers

  /** The monitor a declaration is about: the listed one of that name, or the one created for it. */
  function Slot(existing: map<string, Monitor>, luck: Luck, d: Desired): Uuid {
    if Key(d) in existing then existing[Key(d)].id else luck.newId(Key(d))
  }

  /** An existing monitor keeps its type, whatever the declaration says. */
  function KindOf(existing: map<string, Monitor>, d: Desired): Type {
    if Key(d) in existing then existing[Key(d)].kind else d.kind
  }

  /** The declared target and settings are what normalization would make of them. */
  predicate AlreadyNormal(net: Net, t: Type, d: Desired) {
    var n := Normalize(net, t, d.target, d.settings);
    n.Ok? && EqualFold(n.value.0, d.target) && n.value.1 == d.settings
  }

  /** What a run that did `act` for `d` leaves stored for it. */
  ghost predicate Settled(ctx: Context, kind: Type, m: Monitor, d: Desired, act: Act) {
    && Lower(m.name) == Key(d) && m.kind == kind
    && act in {Created, Updated, Unchanged} && HasOptions(m, d)
    && (act == Unchanged ==> Has(m, d) && !Changed(m, d))
    && (act != Unchanged ==>
          Normalize(ctx.net, kind, d.target, d.settings) == Ok((m.target, m.settings)) &&
          Amended(ctx, m, ChangeOf(d)) == Ok(m) && (Changed(m, d) <==> !AlreadyNormal(ctx.net, kind, d)))
  }

  /** What is not declared of a listed monitor stays as it was. */
  predicate KeepsTheRest(cur: Monitor, m: Monitor, d: Desired, act: Act) {
    && (act == Unchanged ==> m == cur)
    && m == cur.(target := m.target, settings := m.settings, interval := m.interval, enabled := m.enabled, public := m.public)
    && (d.interval <= 0 ==> m.interval == cur.interval)
    && (d.enabled.None? ==> m.enabled == cur.enabled) && (d.public.None? ==> m.public == cur.public)
  }

  /** A new monitor is as declared, enabled and private unless said otherwise. */
  predicate IsNewFor(m: Monitor, d: Desired) {
    && m.name == Trim(d.name) && m.kind == d.kind
    && (d.timeout > 0 ==> m.timeout == d.timeout) && (d.kind == Heartbeat && d.grace >= 30 ==> m.grace == d.grace)
    && (d.enabled.None? ==> m.enabled) && (d.public.None? ==> !m.public)
  }

  /** Ids drawn for new monitors are not in use and not drawn twice. */
  ghost predicate UnusedIds(store: Store, ds: seq<Desired>, luck: Luck) {
    && (forall i | 0 <= i < |ds| :: luck.newId(Key(ds[i])) !in store.monitors)
    && (forall i, j | 0 <= i < j < |ds| :: luck.newId(Key(ds[i])) != luck.newId(Key(ds[j])))
  }

  predicate AllUnmasked(ds: seq<Desired>) {
    forall i | 0 <= i < |ds| :: NoMasks(ds[i].settings.headers)
  }

  // ---- one declaration ----

  lemma AmendedSettles(ctx: Context, m: Monitor, d: Desired)
    requires Amended(ctx, m, ChangeOf(d)).Ok? && NoMasks(d.settings.headers) && Lower(m.name) == Key(d)
    ensures Settled(ctx, m.kind, Amended(ctx, m, ChangeOf(d)).value, d, Updated)
  {
    var m' := Amended(ctx, m, ChangeOf(d)).value;
    NoMasksKept(d.settings.headers, m.settings.headers);
    NoMasksKept(d.settings.headers, m'.settings.headers);
    assert d.settings.(headers := d.settings.headers) == d.settings;
  }

  lemma BuiltSettles(ctx: Context, store: Store, actor: Actor, project: nat, d: Desired, id: Uuid, now: nat)
    requires Built(ctx, store, actor, CreationOf(d, project), id, now).Ok? && NoMasks(d.settings.headers)
    ensures Settled(ctx, d.kind, Built(ctx, store, actor, CreationOf(d, project), id, now).value, d, Created)
  {
    var m := Built(ctx, store, actor, CreationOf(d, project), id, now).value;
    NoMasksKept(d.settings.headers, map[]);
    NoMasksKept(d.settings.headers, m.settings.headers);
    assert d.settings.(headers := d.settings.headers) == d.settings;
  }

  ghost predicate SlotsDiffer(existing: map<string, Monitor>, luck: Luck, ds: seq<Desired>) {
    forall i, j | 0 <= i < j < |ds| :: Slot(existing, luck, ds[i]) != Slot(existing, luck, ds[j])
  }

  lemma SlotsOfAPage(r: Request, store: Store, page: seq<Monitor>, luck: Luck)
    requires SaneStore(store) && Listed(r, store, page) && ValidNames(r.declared) && UnusedIds(store, r.declared, luck)
    ensures SlotsDiffer(Existing(page), luck, r.declared)
  {
    forall i, j | 0 <= i < j < |r.declared| ensures Slot(Existing(page), luck, r.declared[i]) != Slot(Existing(page), luck, r.declared[j]) {
      var a, b := Key(r.declared[i]), Key(r.declared[j]);
      if a in Existing(page) {
        PageNamesAreTight(r, store, page, a);
      }
      if b in Existing(page) {
        PageNamesAreTight(r, store, page, b);
      }
      ListedEntriesDiffer(r, store, page);
    }
  }

  /** When the monitor in a slot was created, a new one by this run. */
  function Born(existing: map<string, Monitor>, luck: Luck, d: Desired): nat {
    if Key(d) in existing then existing[Key(d)].createdAt else luck.now(Key(d))
  }

  /** The stored monitor in a slot after a run, and that it belongs to the project. */
  ghost predicate Holds(r: Request, existing: map<string, Monitor>, store: Store, luck: Luck, d: Desired, act: Act) {
    var id := Slot(existing, luck, d);
    && id in store.monitors && r.project.Some?
    && store.monitors[id].org == r.actor.org && store.monitors[id].project == r.project.value
    && store.monitors[id].createdAt == Born(existing, luck, d)
    && (if Key(d) in existing then KeepsTheRest(existing[Key(d)], store.monitors[id], d, act) else IsNewFor(store.monitors[id], d))
    && Settled(r.ctx, KindOf(existing, d), store.monitors[id], d, act)
  }

  function Slots(existing: map<string, Monitor>, luck: Luck, ds: seq<Desired>): set<Uuid> {
    set d | d in ds :: Slot(existing, luck, d)
  }

  ghost predicate OnlyChanges(ids: set<Uuid>, before: Store, after: Store) {
    forall id | id !in ids ::
      (id in before.monitors <==> id in after.monitors) && (id in before.monitors ==> before.monitors[id] == after.monitors[id])
  }

  ghost predicate AllHold(r: Request, existing: map<string, Monitor>, store: Store, luck: Luck, ds: seq<Desired>, items: seq<Item>) {
    |items| == |ds| && forall i | 0 <= i < |ds| :: Holds(r, existing, store, luck, ds[i], items[i].act)
  }

  /** An entry of the listing that is still what is stored. */
  ghost predicate Current(r: Request, store: Store, m: Monitor) {
    && m.id in store.monitors && store.monitors[m.id] == m
    && r.project.Some? && m.org == r.actor.org && m.project == r.project.value
  }

  lemma BuiltIsNew(ctx: Context, store: Store, actor: Actor, project: nat, d: Desired, id: Uuid, now: nat)
    requires Built(ctx, store, actor, CreationOf(d, project), id, now).Ok?
    ensures var m := Built(ctx, store, actor, CreationOf(d, project), id, now).value;
            IsNewFor(m, d) && m.id == id && m.org == actor.org && m.project == project && m.createdAt == now
  {
  }

  lemma NewHolds(r: Request, existing: map<string, Monitor>, store: Store, d: Desired, luck: Luck, m: Monitor)
    requires r.project.Some? && Key(d) !in existing && luck.newId(Key(d)) !in store.monitors
    requires Settled(r.ctx, d.kind, m, d, Created) && IsNewFor(m, d)
    requires m.org == r.actor.org && m.project == r.project.value && m.createdAt == luck.now(Key(d))
    ensures var store' := store.(monitors := store.monitors[luck.newId(Key(d)) := m]);
            Holds(r, existing, store', luck, d, Created) && OnlyChanges({luck.newId(Key(d))}, store, store')
  {
  }

  lemma CreateOneSettles(r: Request, existing: map<string, Monitor>, store: Store, d: Desired, luck: Luck)
    requires !r.dryRun && r.project.Some? && NoMasks(d.settings.headers) && Key(d) !in existing && luck.newId(Key(d)) !in store.monitors
    requires CreateOne(r, store, d, luck).1.act != Failed
    ensures var (store', item) := CreateOne(r, store, d, luck);
            Holds(r, existing, store', luck, d, item.act) && OnlyChanges({luck.newId(Key(d))}, store, store')
  {
    var id, now := luck.newId(Key(d)), luck.now(Key(d));
    var m := Built(r.ctx, store, r.actor, CreationOf(d, r.project.value), id, now).value;
    BuiltSettles(r.ctx, store, r.actor, r.project.value, d, id, now);
    BuiltIsNew(r.ctx, store, r.actor, r.project.value, d, id, now);
    NewHolds(r, existing, store, d, luck, m);
  }

  lemma UpdateOneSettles(r: Request, existing: map<string, Monitor>, store: Store, d: Desired, luck: Luck)
    requires !r.dryRun && NoMasks(d.settings.headers) && Key(d) in existing
    requires Current(r, store, existing[Key(d)]) && Lower(existing[Key(d)].name) == Key(d)
    requires UpdateOne(r, store, existing[Key(d)], d, luck).1.act != Failed
    ensures var (store', item) := UpdateOne(r, store, existing[Key(d)], d, luck);
            Holds(r, existing, store', luck, d, item.act) && OnlyChanges({existing[Key(d)].id}, store, store')
  {
    AmendedSettles(r.ctx, existing[Key(d)], d);
    AmendedKeepsTheRest(r.ctx, existing[Key(d)], d);
  }

  lemma AmendedKeepsTheRest(ctx: Context, m: Monitor, d: Desired)
    requires Amended(ctx, m, ChangeOf(d)).Ok?
    ensures KeepsTheRest(m, Amended(ctx, m, ChangeOf(d)).value, d, Updated)
  {
  }

  lemma DeclareOneSettles(r: Request, existing: map<string, Monitor>, store: Store, d: Desired, luck: Luck)
    requires !r.dryRun && r.project.Some? && NoMasks(d.settings.headers)
    requires Key(d) in existing ==> Current(r, store, existing[Key(d)]) && Lower(existing[Key(d)].name) == Key(d)
    requires Key(d) !in existing ==> luck.newId(Key(d)) !in store.monitors
    requires DeclareOne(r, existing, store, d, luck).1.act != Failed
    ensures var (store', item) := DeclareOne(r, existing, store, d, luck);
            Holds(r, existing, store', luck, d, item.act)
            && OnlyChanges({Slot(existing, luck, d)}, store, store')
  {
    if Key(d) !in existing {
      CreateOneSettles(r, existing, store, d, luck);
    } else if Changed(existing[Key(d)], d) {
      UpdateOneSettles(r, existing, store, d, luck);
    }
  }

  ghost predicate AllCurrent(r: Request, existing: map<string, Monitor>, store: Store) {
    forall k | k in existing :: Current(r, store, existing[k]) && Lower(existing[k].name) == k
  }

  lemma AllHoldSnoc(r: Request, existing: map<string, Monitor>, before: Store, after: Store, luck: Luck,
                    ds: seq<Desired>, items: seq<Item>, d: Desired, item: Item)
    requires AllHold(r, existing, before, luck, ds, items) && Holds(r, existing, after, luck, d, item.act)
    requires OnlyChanges({Slot(existing, luck, d)}, before, after)
    requires forall i | 0 <= i < |ds| :: Slot(existing, luck, ds[i]) != Slot(existing, luck, d)
    ensures AllHold(r, existing, after, luck, ds + [d], items + [item])
  {
    forall i | 0 <= i < |ds| ensures Holds(r, existing, after, luck, ds[i], items[i].act) {
      assert Holds(r, existing, before, luck, ds[i], items[i].act);
    }
  }

  lemma ChangesCompose(a: set<Uuid>, b: set<Uuid>, s0: Store, s1: Store, s2: Store)
    requires OnlyChanges(a, s0, s1) && OnlyChanges(b, s1, s2)
    ensures OnlyChanges(a + b, s0, s2)
  {
  }

  lemma SlotUntouched(r: Request, existing: map<string, Monitor>, store: Store, store1: Store, luck: Luck, earlier: seq<Desired>, d: Desired)
    requires AllCurrent(r, existing, store) && OnlyChanges(Slots(existing, luck, earlier), store, store1)
    requires Slot(existing, luck, d) !in Slots(existing, luck, earlier) && luck.newId(Key(d)) !in store.monitors
    ensures Key(d) in existing ==> Current(r, store1, existing[Key(d)]) && Lower(existing[Key(d)].name) == Key(d)
    ensures Key(d) !in existing ==> luck.newId(Key(d)) !in store1.monitors
  {
  }

  /** After a run without failures every declaration is settled in its slot and nothing else changed. */
  lemma {:induction false} DeclareAllSettles(r: Request, existing: map<string, Monitor>, store: Store, ds: seq<Desired>, luck: Luck)
    requires !r.dryRun && r.project.Some? && AllUnmasked(ds) && AllCurrent(r, existing, store)
    requires SlotsDiffer(existing, luck, ds) && UnusedIds(store, ds, luck)
    requires NoFailures(DeclareAll(r, existing, store, ds, luck).1)
    ensures AllHold(r, existing, DeclareAll(r, existing, store, ds, luck).0, luck, ds, DeclareAll(r, existing, store, ds, luck).1)
    ensures OnlyChanges(Slots(existing, luck, ds), store, DeclareAll(r, existing, store, ds, luck).0)
  {
    if ds != [] {
      var earlier, d := ds[..|ds| - 1], ds[|ds| - 1];
      assert ds == earlier + [d];
      var store1 := DeclareAll(r, existing, store, earlier, luck).0;
      EarlierDidNotFail(r, existing, store, ds, luck);
      DeclareAllSettles(r, existing, store, earlier, luck);
      SlotNotIn(existing, luck, ds);
      SettlesStep(r, existing, store, store1, luck, earlier, DeclareAll(r, existing, store, earlier, luck).1, d);
    }
  }

  lemma SettlesStep(r: Request, existing: map<string, Monitor>, store: Store, store1: Store, luck: Luck, earlier: seq<Desired>,
                    items: seq<Item>, d: Desired)
    requires !r.dryRun && r.project.Some? && NoMasks(d.settings.headers) && AllCurrent(r, existing, store)
    requires Slot(existing, luck, d) !in Slots(existing, luck, earlier) && luck.newId(Key(d)) !in store.monitors
    requires AllHold(r, existing, store1, luck, earlier, items) && OnlyChanges(Slots(existing, luck, earlier), store, store1)
    requires DeclareOne(r, existing, store1, d, luck).1.act != Failed
    ensures var (store2, item) := DeclareOne(r, existing, store1, d, luck);
            AllHold(r, existing, store2, luck, earlier + [d], items + [item])
            && OnlyChanges(Slots(existing, luck, earlier) + {Slot(existing, luck, d)}, store, store2)
  {
    SlotUntouched(r, existing, store, store1, luck, earlier, d);
    DeclareOneSettles(r, existing, store1, d, luck);
    var (store2, item) := DeclareOne(r, existing, store1, d, luck);
    assert forall i | 0 <= i < |earlier| :: earlier[i] in earlier;
    AllHoldSnoc(r, existing, store1, store2, luck, earlier, items, d, item);
    ChangesCompose(Slots(existing, luck, earlier), {Slot(existing, luck, d)}, store, store1, store2);
  }

  lemma SlotNotIn(existing: map<string, Monitor>, luck: Luck, ds: seq<Desired>)
    requires ds != [] && SlotsDiffer(existing, luck, ds)
    ensures var earlier, d := ds[..|ds| - 1], ds[|ds| - 1];
            && Slot(existing, luck, d) !in Slots(existing, luck, earlier)
            && Slots(existing, luck, ds) == Slots(existing, luck, earlier) + {Slot(existing, luck, d)}
  {
    var earlier, d := ds[..|ds| - 1], ds[|ds| - 1];
    assert ds == earlier + [d];
  }

  // ---- the first run ----

  /** A real run against a project, and what it may rely on. */
  ghost predicate Ready(r: Request, store: Store, page: seq<Monitor>, visit: seq<string>, luck: Luck) {
    && !r.dryRun && r.project.Some? && SaneStore(store)
    && Listed(r, store, page) && IsVisit(r, Existing(page), visit)
    && ValidNames(r.declared) && AllUnmasked(r.declared) && UnusedIds(store, r.declared, luck)
  }

  lemma ListingIsCurrent(r: Request, store: Store, page: seq<Monitor>)
    requires r.project.Some? && SaneStore(store) && Listed(r, store, page)
    ensures AllCurrent(r, Existing(page), store)
  {
    forall k | k in Existing(page) ensures Current(r, store, Existing(page)[k]) && Lower(Existing(page)[k].name) == k {
      ExistingFacts(page);
      var i :| 0 <= i < |page| && page[i] == Existing(page)[k];
    }
  }

  /** The listed monitors that pruning deletes. */
  function RemovedBy(r: Request, existing: map<string, Monitor>): set<Uuid> {
    if r.prune then set k | k in existing.Keys - DeclaredKeys(r.declared) :: existing[k].id else {}
  }

  lemma RemovedAreNoSlots(r: Request, store: Store, page: seq<Monitor>, visit: seq<string>, luck: Luck, k: string)
    requires Ready(r, store, page, visit, luck) && k in visit
    ensures Existing(page)[k].id !in Slots(Existing(page), luck, r.declared)
  {
    PageNamesAreTight(r, store, page, k);
    ListedEntriesDiffer(r, store, page);
    forall i | 0 <= i < |r.declared| ensures Slot(Existing(page), luck, r.declared[i]) != Existing(page)[k].id {
      assert r.declared[i] in r.declared;
    }
  }

  /** What a run without failures leaves: every declaration settled, nothing else altered, and with
      pruning nothing undeclared that it had listed. */
  lemma RunSettles(r: Request, store: Store, page: seq<Monitor>, visit: seq<string>, luck: Luck)
    requires Ready(r, store, page, visit, luck) && NoFailures(Run(r, store, page, visit, luck).1)
    ensures |Run(r, store, page, visit, luck).1| >= |r.declared|
    ensures var (store', items) := Run(r, store, page, visit, luck);
            AllHold(r, Existing(page), store', luck, r.declared, items[..|r.declared|])
            && (forall id | id !in Slots(Existing(page), luck, r.declared) ::
                  id in store'.monitors <==> id in store.monitors && id !in RemovedBy(r, Existing(page)))
            && (forall id | id in store'.monitors && id !in Slots(Existing(page), luck, r.declared) ::
                  store'.monitors[id] == store.monitors[id])
  {
    var existing := Existing(page);
    var (store1, items1) := DeclareAll(r, existing, store, r.declared, luck);
    var (store2, items2) := RemoveAll(r, existing, store1, visit, luck);
    DeclaredItemNames(r, existing, store, r.declared, luck);
    PartsDidNotFail(items1, items2);
    SlotsOfAPage(r, store, page, luck);
    ListingIsCurrent(r, store, page);
    DeclareAllSettles(r, existing, store, r.declared, luck);
    RemovalSettles(r, store, page, visit, luck, store1);
    AllHoldStill(r, existing, store1, store2, luck, r.declared, items1);
  }

  lemma AllHoldStill(r: Request, existing: map<string, Monitor>, before: Store, after: Store, luck: Luck, ds: seq<Desired>, items: seq<Item>)
    requires AllHold(r, existing, before, luck, ds, items)
    requires forall id | id in Slots(existing, luck, ds) && id in before.monitors ::
               id in after.monitors && after.monitors[id] == before.monitors[id]
    ensures AllHold(r, existing, after, luck, ds, items)
  {
    forall i | 0 <= i < |ds| ensures Holds(r, existing, after, luck, ds[i], items[i].act) {
      assert ds[i] in ds;
      assert Holds(r, existing, before, luck, ds[i], items[i].act);
    }
  }

  lemma RemovalSettles(r: Request, store: Store, page: seq<Monitor>, visit: seq<string>, luck: Luck, store1: Store)
    requires Ready(r, store, page, visit, luck)
    requires NoFailures(RemoveAll(r, Existing(page), store1, visit, luck).1)
    ensures var store2 := RemoveAll(r, Existing(page), store1, visit, luck).0;
            (forall id | id in store2.monitors :: id in store1.monitors && store2.monitors[id] == store1.monitors[id])
            && (forall id | id in Slots(Existing(page), luck, r.declared) && id in store1.monitors :: id in store2.monitors)
            && (forall id | id in store1.monitors :: id in store2.monitors <==> id !in RemovedBy(r, Existing(page)))
  {
    var existing := Existing(page);
    ListedEntriesDiffer(r, store, page);
    RemoveAllIsPointwise(r, existing, store1, visit, luck);
    RemovedExactly(r, existing, store1, visit, luck);
    forall id | id in RemovedBy(r, existing) ensures id !in Slots(existing, luck, r.declared) {
      var k :| k in existing.Keys - DeclaredKeys(r.declared) && existing[k].id == id;
      RemovedAreNoSlots(r, store, page, visit, luck, k);
    }
  }

  lemma RemovedExactly(r: Request, existing: map<string, Monitor>, store: Store, visit: seq<string>, luck: Luck)
    requires !r.dryRun && IsVisit(r, existing, visit) && DistinctEntries(existing)
    requires NoFailures(RemoveAll(r, existing, store, visit, luck).1)
    ensures RemovedIds(r, store, existing, KeySet(visit), luck) == RemovedBy(r, existing)
  {
    RemoveAllIsPointwise(r, existing, store, visit, luck);
    var items := RemoveAll(r, existing, store, visit, luck).1;
    forall k | k in visit ensures RemoveOne(r, store, existing[k], luck).1.act != Failed {
      var i :| 0 <= i < |visit| && visit[i] == k;
      assert items[i].act != Failed;
    }
    assert KeySet(visit) == existing.Keys - DeclaredKeys(r.declared);
  }

  // ---- the second run ----

  /** No two monitors of the project have the same name, ignoring case. */
  ghost predicate NamesDiffer(store: Store, org: nat, project: nat) {
    forall a, b | a in InProject(store, org, project) && b in InProject(store, org, project)
                  && Lower(store.monitors[a].name) == Lower(store.monitors[b].name) :: a == b
  }

  /** A listing of a small project with different names finds each monitor under its name. */
  lemma ListingFinds(r: Request, store: Store, page: seq<Monitor>, id: Uuid)
    requires r.project.Some? && Listed(r, store, page)
    requires |InProject(store, r.actor.org, r.project.value)| <= 50 && NamesDiffer(store, r.actor.org, r.project.value)
    requires id in InProject(store, r.actor.org, r.project.value)
    ensures Lower(store.monitors[id].name) in Existing(page)
    ensures Existing(page)[Lower(store.monitors[id].name)] == store.monitors[id]
  {
    SmallProjectIsListedWhole(store, r.actor.org, r.project.value, 50, page);
    ExistingFacts(page);
    assert OnPage(page, id);
    var i :| 0 <= i < |page| && page[i].id == id;
    var found := Existing(page)[Lower(store.monitors[id].name)];
    var j :| 0 <= j < |page| && page[j] == found;
    assert page[j].id in InProject(store, r.actor.org, r.project.value);
  }

  /** A listed declaration in the state an earlier run left it. */
  ghost predicate Found(r: Request, listing: map<string, Monitor>, store: Store, kind: Type, d: Desired, act: Act) {
    Key(d) in listing && Current(r, store, listing[Key(d)]) && Settled(r.ctx, kind, listing[Key(d)], d, act)
  }

  /** What the second run reports for a declaration: nothing was done, or the same values were
      written again, and the latter only if they were not in normal form. */
  ghost predicate Idle(net: Net, kind: Type, d: Desired, first: Act, second: Act) {
    && second in {Unchanged, Updated, Failed}
    && (first == Unchanged ==> second == Unchanged)
    && (first != Unchanged ==> (second == Unchanged <==> AlreadyNormal(net, kind, d)))
  }

  lemma DeclareOneIdles(r: Request, listing: map<string, Monitor>, store: Store, kind: Type, d: Desired, act: Act, luck: Luck)
    requires !r.dryRun && Found(r, listing, store, kind, d, act)
    ensures var (store', item) := DeclareOne(r, listing, store, d, luck);
            store' == store && Idle(r.ctx.net, kind, d, act, item.act)
  {
    var m := listing[Key(d)];
    assert store.monitors[m.id := m] == store.monitors;
  }

  /** All declarations found as an earlier run, item by item, left them. */
  ghost predicate AllFound(r: Request, listing: map<string, Monitor>, store: Store, kinds: seq<Type>, ds: seq<Desired>, first: seq<Item>) {
    |first| == |ds| == |kinds| && forall i | 0 <= i < |ds| :: Found(r, listing, store, kinds[i], ds[i], first[i].act)
  }

  ghost predicate AllIdle(net: Net, kinds: seq<Type>, ds: seq<Desired>, first: seq<Item>, second: seq<Item>) {
    |second| == |first| == |ds| == |kinds| && forall i | 0 <= i < |ds| :: Idle(net, kinds[i], ds[i], first[i].act, second[i].act)
  }

  lemma AllIdleSnoc(net: Net, kinds: seq<Type>, ds: seq<Desired>, first: seq<Item>, second: seq<Item>, item: Item)
    requires |first| == |ds| == |kinds| && ds != []
    requires var n := |ds| - 1; AllIdle(net, kinds[..n], ds[..n], first[..n], second) && Idle(net, kinds[n], ds[n], first[n].act, item.act)
    ensures AllIdle(net, kinds, ds, first, second + [item])
  {
    var n := |ds| - 1;
    forall i | 0 <= i < n ensures Idle(net, kinds[i], ds[i], first[i].act, second[i].act) {
      assert kinds[..n][i] == kinds[i] && ds[..n][i] == ds[i] && first[..n][i] == first[i];
    }
  }

  lemma {:induction false} DeclareAllIdles(r: Request, listing: map<string, Monitor>, store: Store, kinds: seq<Type>, ds: seq<Desired>,
                                           first: seq<Item>, luck: Luck)
    requires !r.dryRun && AllFound(r, listing, store, kinds, ds, first)
    ensures DeclareAll(r, listing, store, ds, luck).0 == store
    ensures AllIdle(r.ctx.net, kinds, ds, first, DeclareAll(r, listing, store, ds, luck).1)
  {
    if ds != [] {
      var n := |ds| - 1;
      DeclareAllIdles(r, listing, store, kinds[..n], ds[..n], first[..n], luck);
      DeclareOneIdles(r, listing, store, kinds[n], ds[n], first[n].act, luck);
      AllIdleSnoc(r.ctx.net, kinds, ds, first, DeclareAll(r, listing, store, ds[..n], luck).1, DeclareOne(r, listing, store, ds[n], luck).1);
    }
  }

  /** The circumstances under which the limit of a listing does not matter. */
  ghost predicate Small(r: Request, store: Store) {
    && r.project.Some?
    && |InProject(store, r.actor.org, r.project.value)| <= 50
  }

  /** A run keeps the names of the project different. */
  lemma NamesStayDifferent(r: Request, store: Store, page: seq<Monitor>, visit: seq<string>, luck: Luck)
    requires Ready(r, store, page, visit, luck) && NoFailures(Run(r, store, page, visit, luck).1)
    requires Small(r, store) && NamesDiffer(store, r.actor.org, r.project.value)
    ensures NamesDiffer(Run(r, store, page, visit, luck).0, r.actor.org, r.project.value)
  {
    var existing := Existing(page);
    var store' := Run(r, store, page, visit, luck).0;
    RunSettles(r, store, page, visit, luck);
    forall a, b | a in InProject(store', r.actor.org, r.project.value) && b in InProject(store', r.actor.org, r.project.value)
                  && Lower(store'.monitors[a].name) == Lower(store'.monitors[b].name) ensures a == b {
      if a in Slots(existing, luck, r.declared) {
        SlotOwnsName(r, store, page, visit, luck, a, b);
      } else if b in Slots(existing, luck, r.declared) {
        SlotOwnsName(r, store, page, visit, luck, b, a);
      } else {
        assert store'.monitors[a] == store.monitors[a] && store'.monitors[b] == store.monitors[b];
        assert a in InProject(store, r.actor.org, r.project.value) && b in InProject(store, r.actor.org, r.project.value);
      }
    }
  }

  /** The name under which a slot is stored after a run, and that the name leads back to it. */
  lemma NameOfSlot(r: Request, store: Store, page: seq<Monitor>, visit: seq<string>, luck: Luck, id: Uuid) returns (k: string)
    requires Ready(r, store, page, visit, luck) && NoFailures(Run(r, store, page, visit, luck).1)
    requires id in Slots(Existing(page), luck, r.declared)
    ensures var store' := Run(r, store, page, visit, luck).0; id in store'.monitors && Lower(store'.monitors[id].name) == k
    ensures id == if k in Existing(page) then Existing(page)[k].id else luck.newId(k)
  {
    RunSettles(r, store, page, visit, luck);
    var (store', items) := Run(r, store, page, visit, luck);
    var i :| 0 <= i < |r.declared| && Slot(Existing(page), luck, r.declared[i]) == id;
    assert Holds(r, Existing(page), store', luck, r.declared[i], items[..|r.declared|][i].act);
    k := Key(r.declared[i]);
  }

  lemma OutsideSlots(r: Request, store: Store, page: seq<Monitor>, visit: seq<string>, luck: Luck, id: Uuid)
    requires Ready(r, store, page, visit, luck) && NoFailures(Run(r, store, page, visit, luck).1)
    requires id !in Slots(Existing(page), luck, r.declared)
    requires id in InProject(Run(r, store, page, visit, luck).0, r.actor.org, r.project.value)
    ensures id in InProject(store, r.actor.org, r.project.value)
    ensures Run(r, store, page, visit, luck).0.monitors[id] == store.monitors[id]
  {
    RunSettles(r, store, page, visit, luck);
  }

  lemma SlotOwnsName(r: Request, store: Store, page: seq<Monitor>, visit: seq<string>, luck: Luck, a: Uuid, b: Uuid)
    requires Ready(r, store, page, visit, luck) && NoFailures(Run(r, store, page, visit, luck).1)
    requires Small(r, store) && NamesDiffer(store, r.actor.org, r.project.value)
    requires a in Slots(Existing(page), luck, r.declared)
    requires var store' := Run(r, store, page, visit, luck).0;
             a in store'.monitors && b in InProject(store', r.actor.org, r.project.value)
             && Lower(store'.monitors[a].name) == Lower(store'.monitors[b].name)
    ensures a == b
  {
    var k := NameOfSlot(r, store, page, visit, luck, a);
    if b in Slots(Existing(page), luck, r.declared) {
      var k' := NameOfSlot(r, store, page, visit, luck, b);
    } else {
      OutsideSlots(r, store, page, visit, luck, b);
      ListingFinds(r, store, page, b);
    }
  }

  function Kinds(existing: map<string, Monitor>, ds: seq<Desired>): (kinds: seq<Type>)
    ensures |kinds| == |ds| && forall i | 0 <= i < |ds| :: kinds[i] == KindOf(existing, ds[i])
  {
    seq(|ds|, i requires 0 <= i < |ds| => KindOf(existing, ds[i]))
  }

  /** After a pruning run whatever is listed is declared. */
  lemma OnlyDeclaredIsListed(r: Request, store: Store, page: seq<Monitor>, visit: seq<string>, luck: Luck, page': seq<Monitor>, k: string)
    requires Ready(r, store, page, visit, luck) && NoFailures(Run(r, store, page, visit, luck).1)
    requires Small(r, store) && NamesDiffer(store, r.actor.org, r.project.value) && r.prune
    requires Listed(r, Run(r, store, page, visit, luck).0, page') && k in Existing(page')
    ensures k in DeclaredKeys(r.declared)
  {
    var existing := Existing(page);
    var (store', items) := Run(r, store, page, visit, luck);
    RunSettles(r, store, page, visit, luck);
    ExistingFacts(page');
    var m := Existing(page')[k];
    ListedKeepsId(r, store', page', k);
    if m.id in Slots(existing, luck, r.declared) {
      var j :| 0 <= j < |r.declared| && Slot(existing, luck, r.declared[j]) == m.id;
      assert Holds(r, existing, store', luck, r.declared[j], items[..|r.declared|][j].act);
      assert r.declared[j] in r.declared;
    } else {
      assert m.id in InProject(store, r.actor.org, r.project.value);
      ListingFinds(r, store, page, m.id);
      assert m.id !in RemovedBy(r, existing);
      assert k in existing && existing[k] == m;
    }
  }

  lemma NothingLeftToRemove(r: Request, store: Store, page: seq<Monitor>, visit: seq<string>, luck: Luck, page': seq<Monitor>, visit': seq<string>)
    requires Ready(r, store, page, visit, luck) && NoFailures(Run(r, store, page, visit, luck).1)
    requires Small(r, store) && NamesDiffer(store, r.actor.org, r.project.value) && r.prune
    requires Listed(r, Run(r, store, page, visit, luck).0, page') && IsVisit(r, Existing(page'), visit')
    ensures visit' == []
  {
    forall k | k in Existing(page') ensures k in DeclaredKeys(r.declared) {
      OnlyDeclaredIsListed(r, store, page, visit, luck, page', k);
    }
    FirstIsIn(visit');
  }

  lemma FirstIsIn(keys: seq<string>)
    ensures keys == [] || keys[0] in keys
  {
  }

  /** The second listing shows every declaration as the first run left it. */
  lemma SecondListingFinds(r: Request, store: Store, page: seq<Monitor>, visit: seq<string>, luck: Luck, page': seq<Monitor>, i: nat)
    requires Ready(r, store, page, visit, luck) && NoFailures(Run(r, store, page, visit, luck).1)
    requires Small(r, store) && NamesDiffer(store, r.actor.org, r.project.value)
    requires Small(r, Run(r, store, page, visit, luck).0) && Listed(r, Run(r, store, page, visit, luck).0, page')
    requires i < |r.declared|
    ensures var (store', first) := Run(r, store, page, visit, luck);
            i < |first|
            && Found(r, Existing(page'), store', KindOf(Existing(page), r.declared[i]), r.declared[i], first[i].act)
  {
    var existing := Existing(page);
    var (store', first) := Run(r, store, page, visit, luck);
    RunSettles(r, store, page, visit, luck);
    NamesStayDifferent(r, store, page, visit, luck);
    assert Holds(r, existing, store', luck, r.declared[i], first[..|r.declared|][i].act);
    ListingFinds(r, store', page', Slot(existing, luck, r.declared[i]));
    ListedKeepsId(r, store', page', Key(r.declared[i]));
  }

  /** Convergence. In a project of at most 50 monitors with different names, once a declaration has
      been applied without a failure, applying it again creates and removes nothing and leaves every
      stored monitor as it was, whatever goes wrong meanwhile. A declaration that was written is
      reported unchanged exactly when its target and settings were in normal form. */
  lemma ApplyingAgainChangesNothing(r: Request, store: Store, page: seq<Monitor>, visit: seq<string>, luck: Luck,
                                    page': seq<Monitor>, visit': seq<string>, luck': Luck)
    requires Ready(r, store, page, visit, luck) && NoFailures(Run(r, store, page, visit, luck).1)
    requires Small(r, store) && NamesDiffer(store, r.actor.org, r.project.value)
    requires var store' := Run(r, store, page, visit, luck).0;
             Small(r, store') && Listed(r, store', page') && IsVisit(r, Existing(page'), visit')
    ensures var (store', first) := Run(r, store, page, visit, luck);
            var (store'', second) := Run(r, store', page', visit', luck');
            store'' == store' && |first| >= |r.declared| && |second| == |r.declared| + |visit'|
            && (forall i | 0 <= i < |r.declared| ::
                  Idle(r.ctx.net, KindOf(Existing(page), r.declared[i]), r.declared[i], first[i].act, second[i].act))
            && (forall i | |r.declared| <= i < |second| :: second[i].act == WouldRemove)
  {
    var (store', first) := Run(r, store, page, visit, luck);
    SecondListingFindsAll(r, store, page, visit, luck, page');
    if r.prune {
      NothingLeftToRemove(r, store, page, visit, luck, page', visit');
    }
    SettledRunIdlesAfter(r, store', page', visit', luck', Existing(page), first);
  }

  lemma SecondListingFindsAll(r: Request, store: Store, page: seq<Monitor>, visit: seq<string>, luck: Luck, page': seq<Monitor>)
    requires Ready(r, store, page, visit, luck) && NoFailures(Run(r, store, page, visit, luck).1)
    requires Small(r, store) && NamesDiffer(store, r.actor.org, r.project.value)
    requires Small(r, Run(r, store, page, visit, luck).0) && Listed(r, Run(r, store, page, visit, luck).0, page')
    ensures var (store', items) := Run(r, store, page, visit, luck);
            && |items| >= |r.declared|
            && AllFound(r, Existing(page'), store', Kinds(Existing(page), r.declared), r.declared, items[..|r.declared|])
  {
    var (store', items) := Run(r, store, page, visit, luck);
    RunSettles(r, store, page, visit, luck);
    var first := items[..|r.declared|];
    forall i | 0 <= i < |r.declared|
      ensures Found(r, Existing(page'), store', Kinds(Existing(page), r.declared)[i], r.declared[i], first[i].act)
    {
      SecondListingFinds(r, store, page, visit, luck, page', i);
    }
  }

  /** If besides every declaration is in normal form for the monitor it is about, the second run
      writes nothing: it reports each of them unchanged. */
  lemma NormalDeclarationsAreNotWrittenAgain(r: Request, store: Store, page: seq<Monitor>, visit: seq<string>, luck: Luck,
                                             page': seq<Monitor>, visit': seq<string>, luck': Luck)
    requires Ready(r, store, page, visit, luck) && NoFailures(Run(r, store, page, visit, luck).1)
    requires Small(r, store) && NamesDiffer(store, r.actor.org, r.project.value)
    requires var store' := Run(r, store, page, visit, luck).0;
             Small(r, store') && Listed(r, store', page') && IsVisit(r, Existing(page'), visit')
    requires forall i | 0 <= i < |r.declared| :: AlreadyNormal(r.ctx.net, KindOf(Existing(page), r.declared[i]), r.declared[i])
    ensures var second := Run(r, Run(r, store, page, visit, luck).0, page', visit', luck').1;
            |second| == |r.declared| + |visit'|
            && (forall i | 0 <= i < |r.declared| :: second[i].act == Unchanged)
            && (forall i | |r.declared| <= i < |second| :: second[i].act == WouldRemove)
  {
    ApplyingAgainChangesNothing(r, store, page, visit, luck, page', visit', luck');
  }

  lemma SettledRunIdles(r: Request, store: Store, page: seq<Monitor>, visit: seq<string>, luck: Luck, kinds: seq<Type>, first: seq<Item>)
    requires !r.dryRun && (forall k | k in visit :: k in Existing(page))
    requires AllFound(r, Existing(page), store, kinds, r.declared, first)
    requires r.prune ==> visit == []
    ensures var (store', second) := Run(r, store, page, visit, luck);
            store' == store && |second| == |r.declared| + |visit|
            && (forall i | 0 <= i < |r.declared| :: Idle(r.ctx.net, kinds[i], r.declared[i], first[i].act, second[i].act))
            && (forall i | |r.declared| <= i < |second| :: second[i].act == WouldRemove)
  {
    DeclareAllIdles(r, Existing(page), store, kinds, r.declared, first, luck);
    if !r.prune {
      KeptRemoveWritesNothing(r, Existing(page), store, visit, luck);
      KeptRemoveReports(r, Existing(page), store, visit, luck);
    }
  }

  /** The same told of the whole first run. */
  lemma SettledRunIdlesAfter(r: Request, store: Store, page: seq<Monitor>, visit: seq<string>, luck: Luck, existing: map<string, Monitor>,
                             first: seq<Item>)
    requires !r.dryRun && |first| >= |r.declared| && (forall k | k in visit :: k in Existing(page)) && (r.prune ==> visit == [])
    requires AllFound(r, Existing(page), store, Kinds(existing, r.declared), r.declared, first[..|r.declared|])
    ensures var (store', second) := Run(r, store, page, visit, luck);
            store' == store && |second| == |r.declared| + |visit|
            && (forall i | 0 <= i < |r.declared| ::
                  Idle(r.ctx.net, KindOf(existing, r.declared[i]), r.declared[i], first[i].act, second[i].act))
            && (forall i | |r.declared| <= i < |second| :: second[i].act == WouldRemove)
  {
    SettledRunIdles(r, store, page, visit, luck, Kinds(existing, r.declared), first[..|r.declared|]);
  }

  lemma ListedKeepsId(r: Request, store: Store, page: seq<Monitor>, k: string)
    requires r.project.Some? && Listed(r, store, page) && k in Existing(page)
    ensures Current(r, store, Existing(page)[k])
  {
    ExistingFacts(page);
    var i :| 0 <= i < |page| && page[i] == Existing(page)[k];
  }

  lemma {:induction false} KeptRemoveReports(r: Request, existing: map<string, Monitor>, store: Store, keys: seq<string>, luck: Luck)
    requires !r.prune && forall k | k in keys :: k in existing
    ensures var items := RemoveAll(r, existing, store, keys, luck).1;
            |items| == |keys| && forall i | 0 <= i < |keys| :: items[i].act == WouldRemove
  {
    if keys != [] {
      assert forall k | k in keys[..|keys| - 1] :: k in keys;
      KeptRemoveReports(r, existing, store, keys[..|keys| - 1], luck);
    }
  }

  // ---- beyond the listing ----

  /** The declarations a listing does not show. */
  function Unseen(existing: map<string, Monitor>, ds: seq<Desired>): set<string> {
    DeclaredKeys(ds) - existing.Keys
  }

  lemma {:induction false} KeysCount(ds: seq<Desired>)
    requires forall i, j | 0 <= i < j < |ds| :: Key(ds[i]) != Key(ds[j])
    ensures |DeclaredKeys(ds)| == |ds|
  {
    if ds != [] {
      var earlier, d := ds[..|ds| - 1], ds[|ds| - 1];
      assert ds == earlier + [d];
      KeysCount(earlier);
      assert DeclaredKeys(ds) == DeclaredKeys(earlier) + {Key(d)};
      assert Key(d) !in DeclaredKeys(earlier);
    }
  }

  lemma DeclaredKeysSnoc(ds: seq<Desired>, d: Desired)
    ensures DeclaredKeys(ds + [d]) == DeclaredKeys(ds) + {Key(d)}
  {
  }

  lemma UnseenSnoc(existing: map<string, Monitor>, ds: seq<Desired>, d: Desired)
    ensures |Unseen(existing, ds + [d])| <= |Unseen(existing, ds)| + if Key(d) in existing then 0 else 1
  {
    DeclaredKeysSnoc(ds, d);
    var declared, k, seen := DeclaredKeys(ds), Key(d), existing.Keys;
    if k in existing {
      assert declared + {k} - seen == declared - seen;
    } else {
      assert declared + {k} - seen == (declared - seen) + {k};
    }
  }

  lemma UnseenIsAttempted(r: Request, existing: map<string, Monitor>, store: Store, d: Desired, luck: Luck)
    requires Key(d) !in existing
    ensures DeclareOne(r, existing, store, d, luck).1.act in {Created, Failed}
  {
  }

  lemma CountSnoc(items: seq<Item>, item: Item, act: Act)
    ensures Count(items + [item], act) == Count(items, act) + if item.act == act then 1 else 0
  {
    assert (items + [item])[..|items|] == items;
  }

  lemma {:induction false} UnseenAreAttempted(r: Request, existing: map<string, Monitor>, store: Store, ds: seq<Desired>, luck: Luck)
    ensures var items := DeclareAll(r, existing, store, ds, luck).1;
            Count(items, Created) + Count(items, Failed) >= |Unseen(existing, ds)|
  {
    if ds != [] {
      var earlier, d := ds[..|ds| - 1], ds[|ds| - 1];
      assert ds == earlier + [d];
      UnseenAreAttempted(r, existing, store, earlier, luck);
      var (store1, items) := DeclareAll(r, existing, store, earlier, luck);
      var item := DeclareOne(r, existing, store1, d, luck).1;
      CountSnoc(items, item, Created);
      CountSnoc(items, item, Failed);
      UnseenSnoc(existing, earlier, d);
      if Key(d) !in existing {
        UnseenIsAttempted(r, existing, store1, d, luck);
      }
    }
  }

  lemma {:induction false} CountSplits(a: seq<Item>, b: seq<Item>, act: Act)
    ensures Count(a + b, act) == Count(a, act) + Count(b, act)
  {
    if b != [] {
      assert (a + b)[..|a + b| - 1] == a + b[..|b| - 1];
      CountSplits(a, b[..|b| - 1], act);
    } else {
      assert a + b == a;
    }
  }

  /** Of N declarations at least N - 50 are taken for new, whatever is stored: the listing of 1000
      that the run asks for is cut to 50. */
  lemma BeyondTheListingAllIsNew(r: Request, store: Store, page: seq<Monitor>, visit: seq<string>, luck: Luck)
    requires ValidNames(r.declared) && Listed(r, store, page) && IsVisit(r, Existing(page), visit)
    ensures var t := TallyOf(Run(r, store, page, visit, luck).1);
            t.created + t.failed >= |r.declared| - 50
  {
    var existing := Existing(page);
    var (store1, items1) := DeclareAll(r, existing, store, r.declared, luck);
    var items2 := RemoveAll(r, existing, store1, visit, luck).1;
    ExistingFacts(page);
    KeysCount(r.declared);
    assert |Unseen(existing, r.declared)| >= |r.declared| - |existing.Keys|;
    UnseenAreAttempted(r, existing, store, r.declared, luck);
    CountSplits(items1, items2, Created);
    CountSplits(items1, items2, Failed);
  }

  /** What a declaration can come to: seen ones are never created, unseen ones nothing else. */
  predicate ActFits(existing: map<string, Monitor>, d: Desired, act: Act) {
    if Key(d) in existing then act in {Unchanged, Updated, Failed} else act in {Created, Failed}
  }

  predicate ActsFit(existing: map<string, Monitor>, ds: seq<Desired>, items: seq<Item>) {
    |items| == |ds| && forall i | 0 <= i < |ds| :: ActFits(existing, ds[i], items[i].act)
  }

  lemma {:induction false} DeclaredActs(r: Request, existing: map<string, Monitor>, store: Store, ds: seq<Desired>, luck: Luck)
    ensures ActsFit(existing, ds, DeclareAll(r, existing, store, ds, luck).1)
  {
    if ds != [] {
      var n := |ds| - 1;
      DeclaredActs(r, existing, store, ds[..n], luck);
      var (store1, items) := DeclareAll(r, existing, store, ds[..n], luck);
      DeclaredAct(r, existing, store1, ds[n], luck);
      ActsFitSnoc(existing, ds, items, DeclareOne(r, existing, store1, ds[n], luck).1);
    }
  }

  lemma ActsFitSnoc(existing: map<string, Monitor>, ds: seq<Desired>, items: seq<Item>, item: Item)
    requires ds != [] && ActsFit(existing, ds[..|ds| - 1], items) && ActFits(existing, ds[|ds| - 1], item.act)
    ensures ActsFit(existing, ds, items + [item])
  {
  }

  lemma DeclaredAct(r: Request, existing: map<string, Monitor>, store: Store, d: Desired, luck: Luck)
    ensures ActFits(existing, d, DeclareOne(r, existing, store, d, luck).1.act)
  {
  }

  function KeyList(ds: seq<Desired>): (keys: seq<string>)
    ensures |keys| == |ds| && forall i | 0 <= i < |ds| :: keys[i] == Key(ds[i])
  {
    seq(|ds|, i requires 0 <= i < |ds| => Key(ds[i]))
  }

  lemma KeySetByLast(keys: seq<string>)
    requires keys != [] && NoRepeats(keys)
    ensures KeySet(keys) == KeySet(keys[..|keys| - 1]) + {keys[|keys| - 1]} && keys[|keys| - 1] !in KeySet(keys[..|keys| - 1])
  {
    forall k ensures k in keys <==> k in keys[..|keys| - 1] || k == keys[|keys| - 1] {
      MembersByLast(keys, k);
    }
  }

  lemma {:induction false} CountMissing(seen: set<string>, keys: seq<string>, items: seq<Item>)
    requires |items| == |keys| && NoRepeats(keys) && forall i | 0 <= i < |keys| :: items[i].act == Created <==> keys[i] !in seen
    ensures Count(items, Created) == |KeySet(keys) - seen|
  {
    if keys != [] {
      var n := |keys| - 1;
      CountMissing(seen, keys[..n], items[..n]);
      KeySetByLast(keys);
      MissingMore(seen, KeySet(keys[..n]), keys[n]);
    }
  }

  lemma MissingMore(seen: set<string>, keys: set<string>, k: string)
    requires k !in keys
    ensures |keys + {k} - seen| == |keys - seen| + if k in seen then 0 else 1
  {
    if k in seen {
      assert keys + {k} - seen == keys - seen;
    } else {
      assert keys + {k} - seen == (keys - seen) + {k};
    }
  }

  lemma KeyListIsDeclared(ds: seq<Desired>)
    ensures KeySet(KeyList(ds)) == DeclaredKeys(ds)
  {
    forall k ensures k in KeySet(KeyList(ds)) <==> k in DeclaredKeys(ds) {
      if k in DeclaredKeys(ds) {
        var d :| d in ds && Key(d) == k;
        var i :| 0 <= i < |ds| && ds[i] == d;
        assert KeyList(ds)[i] == k;
      }
    }
  }

  lemma CountUnseen(existing: map<string, Monitor>, ds: seq<Desired>, items: seq<Item>)
    requires CreatedExactly(existing, ds, items) && ValidNames(ds)
    ensures Count(items, Created) == |Unseen(existing, ds)|
  {
    CountMissing(existing.Keys, KeyList(ds), items);
    KeyListIsDeclared(ds);
  }

  predicate CreatedExactly(existing: map<string, Monitor>, ds: seq<Desired>, items: seq<Item>) {
    |items| == |ds| && forall i | 0 <= i < |ds| :: items[i].act == Created <==> Key(ds[i]) !in existing
  }

  lemma {:induction false} RemovedActs(r: Request, existing: map<string, Monitor>, store: Store, keys: seq<string>, luck: Luck)
    requires forall k | k in keys :: k in existing
    ensures Count(RemoveAll(r, existing, store, keys, luck).1, Created) == 0
  {
    if keys != [] {
      assert forall k | k in keys[..|keys| - 1] :: k in keys;
      RemovedActs(r, existing, store, keys[..|keys| - 1], luck);
    }
  }

  /** A run without failures creates exactly the declared names its listing does not show. */
  lemma CreatedAreTheUnseen(r: Request, store: Store, page: seq<Monitor>, visit: seq<string>, luck: Luck)
    requires ValidNames(r.declared) && IsVisit(r, Existing(page), visit) && NoFailures(Run(r, store, page, visit, luck).1)
    ensures var items := Run(r, store, page, visit, luck).1;
            && |items| >= |r.declared|
            && (forall i | 0 <= i < |r.declared| :: items[i].act == Created <==> Key(r.declared[i]) !in Existing(page))
            && TallyOf(items).created == |Unseen(Existing(page), r.declared)|
  {
    var existing := Existing(page);
    var (store1, items1) := DeclareAll(r, existing, store, r.declared, luck);
    DeclaredActs(r, existing, store, r.declared, luck);
    RemovedActs(r, existing, store1, visit, luck);
    CreatedInAll(existing, r.declared, items1, RemoveAll(r, existing, store1, visit, luck).1);
  }

  lemma CreatedInAll(existing: map<string, Monitor>, ds: seq<Desired>, declared: seq<Item>, rest: seq<Item>)
    requires ActsFit(existing, ds, declared) && NoFailures(declared + rest) && Count(rest, Created) == 0 && ValidNames(ds)
    ensures forall i | 0 <= i < |ds| :: (declared + rest)[i].act == Created <==> Key(ds[i]) !in existing
    ensures Count(declared + rest, Created) == |Unseen(existing, ds)|
  {
    PartsDidNotFail(declared, rest);
    CreatedAt(existing, ds, declared);
    CountUnseen(existing, ds, declared);
    CountSplits(declared, rest, Created);
    assert forall i | 0 <= i < |ds| :: (declared + rest)[i] == declared[i];
  }

  lemma CreatedAt(existing: map<string, Monitor>, ds: seq<Desired>, declared: seq<Item>)
    requires ActsFit(existing, ds, declared) && NoFailures(declared)
    ensures CreatedExactly(existing, ds, declared)
  {
    forall i | 0 <= i < |ds| ensures declared[i].act == Created <==> Key(ds[i]) !in existing {
      assert ActFits(existing, ds[i], declared[i].act);
    }
  }

  /** Every declared name is taken in the project already. */
  ghost predicate AllTaken(r: Request, store: Store) {
    r.project.Some? && forall i | 0 <= i < |r.declared| ::
      exists id :: id in InProject(store, r.actor.org, r.project.value) && Lower(store.monitors[id].name) == Key(r.declared[i])
  }

  /** So convergence fails above 50: after a run without failures every declared name is in the
      project, and still the next one without failures creates at least N - 50 monitors. */
  lemma ApplyingAgainDuplicates(r: Request, store: Store, page: seq<Monitor>, visit: seq<string>, luck: Luck,
                                page': seq<Monitor>, visit': seq<string>, luck': Luck)
    requires Ready(r, store, page, visit, luck) && NoFailures(Run(r, store, page, visit, luck).1)
    requires var store' := Run(r, store, page, visit, luck).0;
             Listed(r, store', page') && IsVisit(r, Existing(page'), visit') && NoFailures(Run(r, store', page', visit', luck').1)
    ensures var store' := Run(r, store, page, visit, luck).0;
            AllTaken(r, store') && TallyOf(Run(r, store', page', visit', luck').1).created >= |r.declared| - 50
  {
    var existing := Existing(page);
    var (store', items) := Run(r, store, page, visit, luck);
    RunSettles(r, store, page, visit, luck);
    forall i | 0 <= i < |r.declared|
      ensures exists id :: id in InProject(store', r.actor.org, r.project.value) && Lower(store'.monitors[id].name) == Key(r.declared[i])
    {
      assert Holds(r, existing, store', luck, r.declared[i], items[..|r.declared|][i].act);
      assert Slot(existing, luck, r.declared[i]) in InProject(store', r.actor.org, r.project.value);
    }
    BeyondTheListingAllIsNew(r, store', page', visit', luck');
    NoFailuresCounted(Run(r, store', page', visit', luck').1);
  }

  lemma {:induction false} NoFailuresCounted(items: seq<Item>)
    requires NoFailures(items)
    ensures Count(items, Failed) == 0
  {
    if items != [] {
      NoFailuresCounted(items[..|items| - 1]);
    }
  }
}
