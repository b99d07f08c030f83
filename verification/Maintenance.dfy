/**
 Maintenance windows: planned downtime during which alerts are withheld. An id of 0 is the nil id
 and an instant of 0 the zero time.
 */
module Maintenance {
  import opened Wrappers

  type Id = nat
  type Instant = nat

  datatype Error = Forbidden | Validation | NotFound | Internal

  datatype Window = Window(org: Id, title: string, description: string, start: Instant, end: Instant, scope: string, scopeIds: seq<Id>) {
    /** Start inclusive, end exclusive. */
    predicate Active(t: Instant) {
      start <= t < end
    }
  }

  datatype Monitor = Monitor(org: Id, project: Id, deleted: bool)

  /** Windows that were deleted are no longer in the map. */
  datatype Store = Store(windows: map<Id, Window>, monitors: map<Id, Monitor>)

  datatype Actor = Actor(org: Id, canWrite: bool)

  datatype CreateInput = CreateInput(title: string, description: string, start: Instant, end: Instant, scope: string, scopeIds: seq<Id>)

  datatype UpdateInput = UpdateInput(title: Option<string>, description: Option<string>, start: Option<Instant>, end: Option<Instant>,
                                     scope: Option<string>, scopeIds: Option<seq<Id>>)

  predicate ValidScope(scope: string) {
    scope in {"org", "project", "monitor"}
  }

  // ---- canonical id lists ----

  function Deduped(ids: seq<Id>): seq<Id> {
    if ids == [] then []
    else
      var kept, last := Deduped(ids[..|ids| - 1]), ids[|ids| - 1];
      if last == 0 || last in kept then kept else kept + [last]
  }

  predicate NoRepeats(ids: seq<Id>) {
    forall i, j | 0 <= i < j < |ids| :: ids[i] != ids[j]
  }

  /** Where an id is first seen. */
  function FirstSeen(ids: seq<Id>, id: Id): nat
    requires id in ids
    ensures FirstSeen(ids, id) < |ids|
  {
    var rest := ids[..|ids| - 1];
    if id in rest then FirstSeen(rest, id)
    else
      assert ids == rest + [ids[|ids| - 1]];
      |ids| - 1
  }

  lemma {:induction false} DedupedMembers(ids: seq<Id>)
    ensures forall id :: id in Deduped(ids) <==> id in ids && id != 0
    ensures NoRepeats(Deduped(ids))
  {
    if ids != [] {
      assert ids == ids[..|ids| - 1] + [ids[|ids| - 1]];
      DedupedMembers(ids[..|ids| - 1]);
    }
  }

  /** The same ids but nil, once each, in the order they are first seen. */
  lemma {:induction false} DedupedIsCanonical(ids: seq<Id>)
    ensures forall id :: id in Deduped(ids) <==> id in ids && id != 0
    ensures NoRepeats(Deduped(ids))
    ensures forall i, j | 0 <= i < j < |Deduped(ids)| ::
              Deduped(ids)[i] in ids && Deduped(ids)[j] in ids && FirstSeen(ids, Deduped(ids)[i]) < FirstSeen(ids, Deduped(ids)[j])
  {
    DedupedMembers(ids);
    if ids != [] {
      var rest := ids[..|ids| - 1];
      var d := Deduped(ids);
      DedupedMembers(rest);
      DedupedIsCanonical(rest);
      assert ids == rest + [ids[|ids| - 1]];
      assert forall k | 0 <= k < |d| :: d[k] in d;
      assert forall k | 0 <= k < |Deduped(rest)| :: Deduped(rest)[k] in Deduped(rest);
    }
  }

  method DedupeIds(ids: seq<Id>) returns (out: seq<Id>)
    ensures out == Deduped(ids)
  {
    var seen: set<Id> := {};
    out := [];
    for i := 0 to |ids|
      invariant out == Deduped(ids[..i]) && seen == set id | id in out
    {
      assert ids[..i + 1][..i] == ids[..i];
      if ids[i] == 0 || ids[i] in seen {
        continue;
      }
      seen := seen + {ids[i]};
      out := out + [ids[i]];
    }
    assert ids[..|ids|] == ids;
  }

  // ---- validation ----

  const MAX_TITLE := 200
  const MAX_DESCRIPTION := 2000

  predicate Valid(w: Window) {
    && 1 <= |w.title| <= MAX_TITLE && |w.description| <= MAX_DESCRIPTION
    && w.start != 0 && w.end != 0 && w.end > w.start
    && ValidScope(w.scope) && (w.scope == "org" <==> w.scopeIds == [])
  }

  /** Every rule is checked and any violation refuses the window. */
  method Validate(w: Window) returns (ok: bool)
    ensures ok <==> Valid(w)
  {
    ok := true;
    if |w.title| < 1 || |w.title| > MAX_TITLE {
      ok := false;
    }
    if |w.description| > MAX_DESCRIPTION {
      ok := false;
    }
    if w.start == 0 || w.end == 0 {
      ok := false;
    } else if !(w.end > w.start) {
      ok := false;
    }
    if !ValidScope(w.scope) {
      ok := false;
    } else if w.scope == "org" && |w.scopeIds| > 0 {
      ok := false;
    } else if w.scope != "org" && |w.scopeIds| == 0 {
      ok := false;
    }
  }

  // ---- what every reachable store satisfies ----

  predicate Canonical(w: Window) {
    Valid(w) && NoRepeats(w.scopeIds) && 0 !in w.scopeIds
  }

  function Built(actor: Actor, inp: CreateInput): Window {
    Window(actor.org, inp.title, inp.description, inp.start, inp.end, inp.scope, Deduped(inp.scopeIds))
  }

  function Created(s: Store, actor: Actor, inp: CreateInput, id: Id): (Store, Result<Window, Error>) {
    if !actor.canWrite then (s, Err(Forbidden))
    else if !Valid(Built(actor, inp)) then (s, Err(Validation))
    else (s.(windows := s.windows[id := Built(actor, inp)]), Ok(Built(actor, inp)))
  }

  function Merged(w: Window, inp: UpdateInput): Window {
    w.(title := if inp.title.Some? then inp.title.value else w.title,
       description := if inp.description.Some? then inp.description.value else w.description,
       start := if inp.start.Some? then inp.start.value else w.start,
       end := if inp.end.Some? then inp.end.value else w.end,
       scope := if inp.scope.Some? then inp.scope.value else w.scope,
       scopeIds := if inp.scopeIds.Some? then Deduped(inp.scopeIds.value) else w.scopeIds)
  }

  predicate Visible(s: Store, actor: Actor, id: Id) {
    id in s.windows && s.windows[id].org == actor.org
  }

  function Updated(s: Store, actor: Actor, id: Id, inp: UpdateInput): (Store, Result<Window, Error>) {
    if !actor.canWrite then (s, Err(Forbidden))
    else if !Visible(s, actor, id) then (s, Err(NotFound))
    else if !Valid(Merged(s.windows[id], inp)) then (s, Err(Validation))
    else (s.(windows := s.windows[id := Merged(s.windows[id], inp)]), Ok(Merged(s.windows[id], inp)))
  }

  function Deleted(s: Store, actor: Actor, id: Id): (Store, Result<(), Error>) {
    if !actor.canWrite then (s, Err(Forbidden))
    else if !Visible(s, actor, id) then (s, Err(NotFound))
    else (s.(windows := s.windows - {id}), Ok(()))
  }

  datatype Operation =
    | Create(inp: CreateInput, id: Id)
    | Update(id: Id, change: UpdateInput)
    | Delete(id: Id)

  function Performed(s: Store, actor: Actor, op: Operation): Store {
    match op
    case Create(inp, id) => if id in s.windows then s else Created(s, actor, inp, id).0
    case Update(id, change) => Updated(s, actor, id, change).0
    case Delete(id) => Deleted(s, actor, id).0
  }

  function PerformedFrom(s: Store, ops: seq<(Actor, Operation)>): Store {
    if ops == [] then s
    else Performed(PerformedFrom(s, ops[..|ops| - 1]), ops[|ops| - 1].0, ops[|ops| - 1].1)
  }

  function PerformedAll(monitors: map<Id, Monitor>, ops: seq<(Actor, Operation)>): Store {
    PerformedFrom(Store(map[], monitors), ops)
  }

  predicate AllCanonical(s: Store) {
    forall id | id in s.windows :: Canonical(s.windows[id])
  }

  lemma PerformedIsCanonical(s: Store, actor: Actor, op: Operation)
    requires AllCanonical(s)
    ensures AllCanonical(Performed(s, actor, op))
  {
    match op
    case Create(inp, _) => DedupedMembers(inp.scopeIds);
    case Update(_, change) =>
      if change.scopeIds.Some? {
        DedupedMembers(change.scopeIds.value);
      }
    case Delete(_) =>
  }

  /** Whatever is created, updated and deleted, every window ends after it starts, lists ids exactly
      unless it covers the organization, and lists each once and none that is nil. */
  lemma {:induction false} ReachableWindowsAreCanonical(monitors: map<Id, Monitor>, ops: seq<(Actor, Operation)>)
    ensures AllCanonical(PerformedAll(monitors, ops))
  {
    if ops != [] {
      ReachableWindowsAreCanonical(monitors, ops[..|ops| - 1]);
      PerformedIsCanonical(PerformedAll(monitors, ops[..|ops| - 1]), ops[|ops| - 1].0, ops[|ops| - 1].1);
    }
  }

  // ---- what an operation does ----

  /** Nothing but, at most, this window differs. */
  ghost predicate OnlyAt(s: Store, s': Store, id: Id) {
    && s'.monitors == s.monitors
    && forall other | other != id ::
         (other in s'.windows <==> other in s.windows) && (other in s.windows ==> s'.windows[other] == s.windows[other])
  }

  /** A title of up to 200 characters, a description of up to 2000, an end after its start, and ids
      exactly if it is for projects or monitors. */
  predicate Acceptable(title: string, description: string, start: Instant, end: Instant, scope: string, ids: seq<Id>) {
    && 0 < |title| <= 200 && |description| <= 2000 && 0 < start < end
    && (scope == "org" || scope == "project" || scope == "monitor")
    && (scope == "org" ==> forall id | id in ids :: id == 0) && (scope != "org" ==> exists id | id in ids :: id != 0)
  }

  lemma NoneLeft(ids: seq<Id>)
    ensures Deduped(ids) == [] <==> forall id | id in ids :: id == 0
  {
    DedupedMembers(ids);
    if Deduped(ids) != [] {
      assert Deduped(ids)[0] in Deduped(ids);
    }
  }

  /** A writer's window is stored as it is put in, its ids once each, if and only if it is acceptable. */
  lemma CreateStoresTheWindow(s: Store, actor: Actor, inp: CreateInput, id: Id)
    ensures var (s', r) := Created(s, actor, inp, id);
            && OnlyAt(s, s', id) && (r.Err? ==> s' == s)
            && (r.Ok? <==> actor.canWrite && Acceptable(inp.title, inp.description, inp.start, inp.end, inp.scope, inp.scopeIds))
            && (r.Ok? ==>
                  && id in s'.windows && r.value == s'.windows[id]
                  && s'.windows[id] == Window(actor.org, inp.title, inp.description, inp.start, inp.end, inp.scope, s'.windows[id].scopeIds)
                  && forall i :: i in s'.windows[id].scopeIds <==> i in inp.scopeIds && i != 0)
  {
    NoneLeft(inp.scopeIds);
    DedupedMembers(inp.scopeIds);
  }

  /** An update gives the fields it names the values it names and leaves the rest. */
  lemma UpdateChangesTheWindow(s: Store, actor: Actor, id: Id, inp: UpdateInput)
    ensures var (s', r) := Updated(s, actor, id, inp);
            && OnlyAt(s, s', id) && (r.Err? ==> s' == s)
            && (r.Ok? ==>
                  && actor.canWrite && id in s.windows && s.windows[id].org == actor.org && id in s'.windows && r.value == s'.windows[id]
                  && var (w, w') := (s.windows[id], s'.windows[id]);
                  && w'.org == w.org && w'.title == inp.title.Or(w.title) && w'.description == inp.description.Or(w.description)
                  && w'.start == inp.start.Or(w.start) && w'.end == inp.end.Or(w.end) && w'.scope == inp.scope.Or(w.scope)
                  && (inp.scopeIds.None? ==> w'.scopeIds == w.scopeIds)
                  && (inp.scopeIds.Some? ==> forall i :: i in w'.scopeIds <==> i in inp.scopeIds.value && i != 0))
  {
    if inp.scopeIds.Some? {
      DedupedMembers(inp.scopeIds.value);
    }
  }

  lemma DeleteRemovesTheWindow(s: Store, actor: Actor, id: Id)
    ensures var (s', r) := Deleted(s, actor, id);
            && OnlyAt(s, s', id) && (r.Err? ==> s' == s)
            && (r.Ok? <==> actor.canWrite && id in s.windows && s.windows[id].org == actor.org)
            && (r.Ok? ==> id !in s'.windows)
  {
  }

  // ---- who is covered ----

  predicate InScope(w: Window, monitor: Id, m: Monitor) {
    || w.scope == "org"
    || (w.scope == "project" && m.project in w.scopeIds)
    || (w.scope == "monitor" && monitor in w.scopeIds)
  }

  /** The query for one monitor: the monitor must be live and the organization's. */
  predicate ActiveForMonitor(s: Store, org: Id, monitor: Id, at: Instant) {
    exists w :: w in s.windows && monitor in s.monitors && s.monitors[monitor].org == org && !s.monitors[monitor].deleted
                && s.windows[w].org == org && s.windows[w].Active(at) && InScope(s.windows[w], monitor, s.monitors[monitor])
  }

  /** The query for all of them: monitors joined with the windows of their organization. */
  function ActiveMonitorIds(s: Store, org: Id, at: Instant): set<Id> {
    set monitor, w | monitor in s.monitors && w in s.windows && s.windows[w].org == s.monitors[monitor].org
                     && s.windows[w].Active(at) && InScope(s.windows[w], monitor, s.monitors[monitor])
                     && s.monitors[monitor].org == org && !s.monitors[monitor].deleted :: monitor
  }

  /** The two agree on every monitor, at every instant, over every store. */
  lemma BatchEqualsPointwise(s: Store, org: Id, monitor: Id, at: Instant)
    ensures monitor in ActiveMonitorIds(s, org, at) <==> ActiveForMonitor(s, org, monitor, at)
  {
    if ActiveForMonitor(s, org, monitor, at) {
      var w: Id :| w in s.windows && s.windows[w].org == org && s.windows[w].Active(at) && InScope(s.windows[w], monitor, s.monitors[monitor]);
      assert monitor in ActiveMonitorIds(s, org, at);
    }
  }

  /** What a window says it covers: everything if it lists nothing, else the listed projects or the
      listed monitors. */
  predicate Lists(w: Window, monitor: Id, m: Monitor) {
    if w.scopeIds == [] then true else if w.scope == "project" then m.project in w.scopeIds else monitor in w.scopeIds
  }

  /** In every reachable store exactly the live monitors of the organization are covered that some
      window of it, active at the instant, lists. */
  lemma WindowsCoverWhatTheyList(monitors: map<Id, Monitor>, ops: seq<(Actor, Operation)>, org: Id, monitor: Id, at: Instant)
    ensures var s := PerformedAll(monitors, ops);
            monitor in ActiveMonitorIds(s, org, at)
            <==> monitor in s.monitors && s.monitors[monitor].org == org && !s.monitors[monitor].deleted
                 && exists w :: w in s.windows && s.windows[w].org == org && s.windows[w].start <= at < s.windows[w].end
                                && Lists(s.windows[w], monitor, s.monitors[monitor])
  {
    var s := PerformedAll(monitors, ops);
    ReachableWindowsAreCanonical(monitors, ops);
    forall w, m | w in s.windows ensures Lists(s.windows[w], monitor, m) <==> InScope(s.windows[w], monitor, m) {
      ListsMeansInScope(s.windows[w], monitor, m);
    }
  }

  lemma ListsMeansInScope(w: Window, monitor: Id, m: Monitor)
    requires Canonical(w)
    ensures Lists(w, monitor, m) <==> InScope(w, monitor, m)
  {
  }

  /** The operation may change the window: it names it, and its organization may write. */
  predicate Touches(call: (Actor, Operation), org: Id, id: Id) {
    call.1.id == id && call.0.canWrite && call.0.org == org && !call.1.Create?
  }

  lemma UntouchedStays(s: Store, call: (Actor, Operation), id: Id)
    requires id in s.windows && !Touches(call, s.windows[id].org, id)
    ensures var s' := Performed(s, call.0, call.1); s'.monitors == s.monitors && id in s'.windows && s'.windows[id] == s.windows[id]
  {
    match call.1
    case Create(inp, k) => CreateStoresTheWindow(s, call.0, inp, k);
    case Update(k, change) => UpdateChangesTheWindow(s, call.0, k, change);
    case Delete(k) => DeleteRemovesTheWindow(s, call.0, k);
  }

  lemma {:induction false} UntouchedStaysForGood(s: Store, ops: seq<(Actor, Operation)>, id: Id)
    requires id in s.windows && forall call | call in ops :: !Touches(call, s.windows[id].org, id)
    ensures var s' := PerformedFrom(s, ops); s'.monitors == s.monitors && id in s'.windows && s'.windows[id] == s.windows[id]
  {
    if ops != [] {
      assert ops[|ops| - 1] in ops && forall call | call in ops[..|ops| - 1] :: call in ops;
      UntouchedStaysForGood(s, ops[..|ops| - 1], id);
      UntouchedStays(PerformedFrom(s, ops[..|ops| - 1]), ops[|ops| - 1], id);
    }
  }

  /** What is declared for maintenance is withheld: from the creation of a window on, until one of its
      organization's writers changes or deletes it, every live monitor it was declared for is covered
      for as long as it was declared to last. */
  lemma DeclaredIsWithheld(s: Store, actor: Actor, inp: CreateInput, id: Id, ops: seq<(Actor, Operation)>, monitor: Id, at: Instant)
    requires id !in s.windows && Created(s, actor, inp, id).1.Ok?
    requires forall call | call in ops :: !Touches(call, actor.org, id)
    requires monitor in s.monitors && s.monitors[monitor].org == actor.org && !s.monitors[monitor].deleted
    requires monitor != 0 && s.monitors[monitor].project != 0
    requires inp.start <= at < inp.end
    requires inp.scope == "project" ==> s.monitors[monitor].project in inp.scopeIds
    requires inp.scope == "monitor" ==> monitor in inp.scopeIds
    ensures monitor in ActiveMonitorIds(PerformedFrom(Performed(s, actor, Create(inp, id)), ops), actor.org, at)
  {
    var s1 := Performed(s, actor, Create(inp, id));
    CreateStoresTheWindow(s, actor, inp, id);
    UntouchedStaysForGood(s1, ops, id);
    var s' := PerformedFrom(s1, ops);
    assert id in s'.windows && InScope(s'.windows[id], monitor, s'.monitors[monitor]) && s'.windows[id].Active(at);
  }

  /** And what was deleted withholds nothing: it is gone until it is declared anew. */
  lemma {:induction false} DeletedIsGone(s: Store, actor: Actor, id: Id, ops: seq<(Actor, Operation)>)
    requires Deleted(s, actor, id).1.Ok? && forall call | call in ops :: call.1.Create? ==> call.1.id != id
    ensures id !in PerformedFrom(Performed(s, actor, Delete(id)), ops).windows
  {
    if ops == [] {
      DeleteRemovesTheWindow(s, actor, id);
    } else {
      assert ops[|ops| - 1] in ops && forall call | call in ops[..|ops| - 1] :: call in ops;
      DeletedIsGone(s, actor, id, ops[..|ops| - 1]);
    }
  }

  // ---- back to back ----

  predicate BackToBack(ws: seq<Window>) {
    && (forall i | 0 <= i < |ws| :: ws[i].start < ws[i].end)
    && (forall i | 0 <= i < |ws| - 1 :: ws[i].end == ws[i + 1].start)
  }

  function ActiveCount(ws: seq<Window>, t: Instant): nat {
    if ws == [] then 0 else ActiveCount(ws[..|ws| - 1], t) + if ws[|ws| - 1].Active(t) then 1 else 0
  }

  /** Windows back to back cover the time from the first start to the last end, every instant of it
      exactly once, and nothing else. */
  lemma {:induction false} BackToBackCoversExactlyOnce(ws: seq<Window>, t: Instant)
    requires ws != [] && BackToBack(ws)
    ensures ActiveCount(ws, t) == if ws[0].start <= t < ws[|ws| - 1].end then 1 else 0
    ensures ws[0].start < ws[|ws| - 1].end
  {
    var rest := ws[..|ws| - 1];
    if rest != [] {
      BackToBackCoversExactlyOnce(rest, t);
      assert ws[|rest| - 1].end == ws[|rest|].start;
    } else {
      assert ActiveCount(rest, t) == 0;
    }
  }

  /** Splitting a window in two at any instant inside it withholds the same alerts as before. */
  lemma SplittingAWindowChangesNothing(s: Store, id: Id, second: Id, cut: Instant, org: Id, monitor: Id, at: Instant)
    requires id in s.windows && second !in s.windows && s.windows[id].start < cut < s.windows[id].end
    ensures var w := s.windows[id];
            var split := s.(windows := s.windows[id := w.(end := cut)][second := w.(start := cut)]);
            ActiveForMonitor(split, org, monitor, at) <==> ActiveForMonitor(s, org, monitor, at)
  {
    var w := s.windows[id];
    var split := s.(windows := s.windows[id := w.(end := cut)][second := w.(start := cut)]);
    if ActiveForMonitor(s, org, monitor, at) {
      var k: Id :| k in s.windows && s.windows[k].org == org && s.windows[k].Active(at) && InScope(s.windows[k], monitor, s.monitors[monitor]);
      var k' := if k != id || at < cut then k else second;
      assert k' in split.windows && split.windows[k'].Active(at) && InScope(split.windows[k'], monitor, s.monitors[monitor]);
    }
    if ActiveForMonitor(split, org, monitor, at) {
      var k: Id :| k in split.windows && split.windows[k].org == org && split.windows[k].Active(at)
               && InScope(split.windows[k], monitor, split.monitors[monitor]);
      var k' := if k == second then id else k;
      assert k' in s.windows && s.windows[k'].Active(at) && InScope(s.windows[k'], monitor, s.monitors[monitor]);
    }
  }

  // ---- the service ----

  class Service {
    var windows: map<Id, Window>
    var monitors: map<Id, Monitor>

    function State(): Store
      reads this
    {
      Store(windows, monitors)
    }

    constructor (monitors: map<Id, Monitor>)
      ensures State() == Store(map[], monitors)
    {
      this.windows, this.monitors := map[], monitors;
    }

    method Create(actor: Actor, inp: CreateInput, id: Id) returns (r: Result<Window, Error>)
      modifies this`windows
      ensures (State(), r) == Created(old(State()), actor, inp, id)
    {
      if !actor.canWrite {
        return Err(Forbidden);
      }
      var ids := DedupeIds(inp.scopeIds);
      var w := Window(actor.org, inp.title, inp.description, inp.start, inp.end, inp.scope, ids);
      var ok := Validate(w);
      if !ok {
        return Err(Validation);
      }
      windows := windows[id := w];
      return Ok(w);
    }

    method Update(actor: Actor, id: Id, inp: UpdateInput) returns (r: Result<Window, Error>)
      modifies this`windows
      ensures (State(), r) == Updated(old(State()), actor, id, inp)
    {
      if !actor.canWrite {
        return Err(Forbidden);
      }
      if id !in windows || windows[id].org != actor.org {
        return Err(NotFound);
      }
      var w := windows[id];
      if inp.title.Some? {
        w := w.(title := inp.title.value);
      }
      if inp.description.Some? {
        w := w.(description := inp.description.value);
      }
      if inp.start.Some? {
        w := w.(start := inp.start.value);
      }
      if inp.end.Some? {
        w := w.(end := inp.end.value);
      }
      if inp.scope.Some? {
        w := w.(scope := inp.scope.value);
      }
      if inp.scopeIds.Some? {
        var ids := DedupeIds(inp.scopeIds.value);
        w := w.(scopeIds := ids);
      }
      var ok := Validate(w);
      if !ok {
        return Err(Validation);
      }
      windows := windows[id := w];
      return Ok(w);
    }

    method Delete(actor: Actor, id: Id) returns (r: Result<(), Error>)
      modifies this`windows
      ensures (State(), r) == Deleted(old(State()), actor, id)
    {
      if !actor.canWrite {
        return Err(Forbidden);
      }
      if id !in windows || windows[id].org != actor.org {
        return Err(NotFound);
      }
      windows := windows - {id};
      return Ok(());
    }
  }
}
