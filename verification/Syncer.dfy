/**
 Publishing the configuration: any number of concurrent syncs in one worker process, which may die
 between any two operations, write three files that others may read at any moment. The database
 changes meanwhile; a snapshot is named by how many changes precede it.
 */
module Syncer {
  import opened Monitors
  import opened PlanCap
  import opened Generator
  import opened Wrappers

  type Thread = nat

  const FILES := 3

  datatype Doc = ModulesDoc(modules: map<string, Module>) | ScrapesDoc(scrapes: seq<Scrape>) | RulesDoc(rules: seq<Rule>)

  /** What a file may hold: what was there before any sync, a document, or part of one. */
  datatype Content = Missing | Earlier(text: string) | Torn | Whole(doc: Doc)

  datatype Stage = Opening | Filling | Chmodding | Closing | Renaming

  /** Versions of the two tables. */
  datatype Version = Version(monitors: nat, plans: nat) {
    predicate UpTo(other: Version) {
      monitors <= other.monitors && plans <= other.plans
    }
  }

  /** Where a call to Sync has got to; `asked` is what was committed when it was made. */
  datatype Phase =
    | Waiting(asked: Version)
    | Locked(asked: Version)
    | Listed(asked: Version, mv: nat)
    | Planned(asked: Version, v: Version)
    | Writing(asked: Version, v: Version, file: nat, stage: Stage, temp: Content)
    | Written(asked: Version, v: Version)
    | Finished(asked: Version, v: Version, reloaded: bool)
    | Failed

  datatype Env = Env(cfg: Config, limitsFor: Plan -> int)

  datatype World = World(
    monitors: seq<seq<Monitor>>, plans: seq<map<nat, Plan>>,
    lock: Option<Thread>, threads: map<Thread, Phase>,
    targets: seq<Content>, shown: seq<Option<Version>>)

  datatype Action =
    | ChangeMonitors(ms: seq<Monitor>)
    | ChangePlans(ps: map<nat, Plan>)
    | Call(t: Thread)
    | Acquire(t: Thread)
    | Proceed(t: Thread, ok: bool)
    | Crash

  /** What the database has committed. */
  function Now(w: World): Version {
    Version(if |w.monitors| == 0 then 0 else |w.monitors| - 1, if |w.plans| == 0 then 0 else |w.plans| - 1)
  }

  function Intended(env: Env, w: World, v: Version): Result<Artifacts, Error>
    requires v.monitors < |w.monitors| && v.plans < |w.plans|
  {
    Generated(env.cfg, Cap(w.monitors[v.monitors], LimitOf(w.plans[v.plans], env.limitsFor)))
  }

  function DocOf(a: Artifacts, file: nat): Doc {
    if file == 0 then ModulesDoc(a.modules) else if file == 1 then ScrapesDoc(a.scrapes) else RulesDoc(a.rules)
  }

  predicate Holding(p: Phase) {
    p.Locked? || p.Listed? || p.Planned? || p.Writing? || p.Written?
  }

  // ---- steps ----

  function MoveTo(w: World, t: Thread, p: Phase): World {
    w.(threads := w.threads[t := p], lock := if Holding(p) then Some(t) else None)
  }

  /** The file operations of one atomic write, in order; a failed one ends the call. */
  function StepWrite(env: Env, w: World, t: Thread, p: Phase, ok: bool): World
    requires p.Writing? && p.v.monitors < |w.monitors| && p.v.plans < |w.plans| && p.file < |w.targets| == |w.shown|
    requires Intended(env, w, p.v).Ok?
  {
    var doc := DocOf(Intended(env, w, p.v).value, p.file);
    if !ok then MoveTo(w, t, Failed)
    else
      match p.stage
      case Opening => MoveTo(w, t, p.(stage := Filling, temp := Torn))
      case Filling => MoveTo(w, t, p.(stage := Chmodding, temp := Whole(doc)))
      case Chmodding => MoveTo(w, t, p.(stage := Closing))
      case Closing => MoveTo(w, t, p.(stage := Renaming))
      case Renaming =>
        MoveTo(w.(targets := w.targets[p.file := p.temp], shown := w.shown[p.file := Some(p.v)]), t,
               if p.file + 1 < FILES then Writing(p.asked, p.v, p.file + 1, Opening, Missing) else Written(p.asked, p.v))
  }

  function StepHolder(env: Env, w: World, t: Thread, p: Phase, ok: bool): World
    requires ThreadOk(env, w, p) && |w.targets| == |w.shown| == FILES && |w.monitors| > 0 && |w.plans| > 0
  {
    match p
    case Locked(asked) => MoveTo(w, t, if ok then Listed(asked, Now(w).monitors) else Failed)
    case Listed(asked, mv) => MoveTo(w, t, if ok then Planned(asked, Version(mv, Now(w).plans)) else Failed)
    case Planned(asked, v) => MoveTo(w, t, if Intended(env, w, v).Ok? then Writing(asked, v, 0, Opening, Missing) else Failed)
    case Writing(_, _, _, _, _) => StepWrite(env, w, t, p, ok)
    case Written(asked, v) => MoveTo(w, t, Finished(asked, v, ok))
    case _ => w
  }

  function Step(env: Env, w: World, a: Action): World
    requires Valid(env, w)
  {
    match a
    case ChangeMonitors(ms) => w.(monitors := w.monitors + [ms])
    case ChangePlans(ps) => w.(plans := w.plans + [ps])
    case Call(t) => if t in w.threads then w else w.(threads := w.threads[t := Waiting(Now(w))])
    case Acquire(t) => if w.lock.None? && t in w.threads && w.threads[t].Waiting? then MoveTo(w, t, Locked(w.threads[t].asked)) else w
    case Proceed(t, ok) => if t in w.threads then StepHolder(env, w, t, w.threads[t], ok) else w
    case Crash => w.(lock := None, threads := map[])
  }

  // ---- the invariant ----

  predicate Known(w: World, v: Version) {
    v.monitors < |w.monitors| && v.plans < |w.plans|
  }

  /** No file shows anything later. */
  predicate Latest(w: World, v: Version) {
    forall f | 0 <= f < |w.shown| && w.shown[f].Some? :: w.shown[f].value.UpTo(v)
  }

  predicate ShownUpTo(w: World, v: Version, n: nat) {
    forall f | 0 <= f < n && f < |w.shown| :: w.shown[f] == Some(v)
  }

  predicate ThreadOk(env: Env, w: World, p: Phase) {
    match p
    case Waiting(asked) => Known(w, asked)
    case Locked(asked) => Known(w, asked)
    case Listed(asked, mv) =>
      asked.monitors <= mv < |w.monitors| && asked.plans < |w.plans|
      && forall f | 0 <= f < |w.shown| && w.shown[f].Some? :: w.shown[f].value.monitors <= mv
    case Planned(asked, v) => asked.UpTo(v) && Known(w, v) && Latest(w, v)
    case Writing(asked, v, file, stage, temp) =>
      && asked.UpTo(v) && Known(w, v) && Latest(w, v) && Intended(env, w, v).Ok? && file < FILES && ShownUpTo(w, v, file)
      && (stage in {Chmodding, Closing, Renaming} ==> temp == Whole(DocOf(Intended(env, w, v).value, file)))
    case Written(asked, v) => asked.UpTo(v) && Known(w, v) && Latest(w, v) && ShownUpTo(w, v, FILES)
    case Finished(asked, v, _) => asked.UpTo(v) && Known(w, v)
    case Failed => true
  }

  /** A file shows a whole document of the versions recorded for it. */
  predicate FileOk(env: Env, w: World, f: nat)
    requires f < |w.targets| == |w.shown|
  {
    w.shown[f].Some? ==>
      && Known(w, w.shown[f].value) && Intended(env, w, w.shown[f].value).Ok?
      && w.targets[f] == Whole(DocOf(Intended(env, w, w.shown[f].value).value, f))
  }

  predicate Valid(env: Env, w: World) {
    && |w.monitors| > 0 && |w.plans| > 0 && |w.targets| == |w.shown| == FILES
    && (forall t | t in w.threads :: Holding(w.threads[t]) <==> w.lock == Some(t))
    && (w.lock.Some? ==> w.lock.value in w.threads)
    && (forall t | t in w.threads :: ThreadOk(env, w, w.threads[t]))
    && (forall f | 0 <= f < FILES :: FileOk(env, w, f))
  }

  /** The tables only grow. */
  predicate Extends(w: World, w': World) {
    w.monitors <= w'.monitors && w.plans <= w'.plans
  }

  lemma IntendedStable(env: Env, w: World, w': World, v: Version)
    requires Extends(w, w') && Known(w, v)
    ensures Known(w', v) && Intended(env, w', v) == Intended(env, w, v)
  {
  }

  lemma ThreadOkStable(env: Env, w: World, w': World, p: Phase)
    requires Extends(w, w') && w'.shown == w.shown && ThreadOk(env, w, p)
    ensures ThreadOk(env, w', p)
  {
    if p.Planned? || p.Writing? || p.Written? || p.Finished? {
      IntendedStable(env, w, w', p.v);
    }
  }

  lemma FilesStable(env: Env, w: World, w': World)
    requires Valid(env, w) && Extends(w, w') && w'.shown == w.shown && w'.targets == w.targets
    ensures forall f | 0 <= f < FILES :: FileOk(env, w', f)
  {
    forall f | 0 <= f < FILES ensures FileOk(env, w', f) {
      assert FileOk(env, w, f);
      if w.shown[f].Some? {
        IntendedStable(env, w, w', w.shown[f].value);
      }
    }
  }

  /** A step that changes no file and leaves every call where it was. */
  lemma ValidTables(env: Env, w: World, w': World)
    requires Valid(env, w) && Extends(w, w') && w' == w.(monitors := w'.monitors, plans := w'.plans)
    ensures Valid(env, w')
  {
    FilesStable(env, w, w');
    forall t | t in w'.threads ensures ThreadOk(env, w', w'.threads[t]) {
      ThreadOkStable(env, w, w', w.threads[t]);
    }
  }

  /** A call that holds the lock, or takes it, moves to another phase. */
  lemma ValidMove(env: Env, w: World, t: Thread, p: Phase)
    requires Valid(env, w) && t in w.threads && (w.lock == Some(t) || w.lock == None) && ThreadOk(env, w, p)
    ensures Valid(env, MoveTo(w, t, p))
  {
    var w' := MoveTo(w, t, p);
    FilesStable(env, w, w');
    ThreadOkStable(env, w, w', p);
    forall u | u in w'.threads ensures ThreadOk(env, w', w'.threads[u]) {
      if u != t {
        ThreadOkStable(env, w, w', w.threads[u]);
      }
    }
  }

  lemma IdleStable(env: Env, w: World, w': World, p: Phase)
    requires !Holding(p) && ThreadOk(env, w, p) && Extends(w, w')
    ensures ThreadOk(env, w', p)
  {
  }

  lemma RenameKeepsFiles(env: Env, w: World, t: Thread, w': World)
    requires Valid(env, w) && t in w.threads && w.threads[t].Writing? && w.threads[t].stage == Renaming
    requires w' == StepWrite(env, w, t, w.threads[t], true)
    ensures forall f | 0 <= f < FILES :: FileOk(env, w', f)
    ensures Latest(w', w.threads[t].v) && ShownUpTo(w', w.threads[t].v, w.threads[t].file + 1)
  {
    assert ThreadOk(env, w, w.threads[t]);
    forall f | 0 <= f < FILES ensures FileOk(env, w', f) {
      assert FileOk(env, w, f);
    }
  }

  /** The file changes at the rename and at no other step. */
  lemma ValidRename(env: Env, w: World, t: Thread)
    requires Valid(env, w) && t in w.threads && w.threads[t].Writing? && w.threads[t].stage == Renaming
    ensures Valid(env, StepWrite(env, w, t, w.threads[t], true))
  {
    var w' := StepWrite(env, w, t, w.threads[t], true);
    RenameKeepsFiles(env, w, t, w');
    assert ThreadOk(env, w, w.threads[t]);
    assert ThreadOk(env, w', w'.threads[t]);
    forall u | u in w'.threads && u != t ensures ThreadOk(env, w', w'.threads[u]) {
      IdleStable(env, w, w', w.threads[u]);
    }
  }

  /** Where a call that holds the lock goes next, if it does not rename. */
  lemma NextWriteOk(env: Env, w: World, t: Thread, p: Phase, ok: bool)
    requires Valid(env, w) && ThreadOk(env, w, p) && p.Writing? && !(p.stage == Renaming && ok)
    ensures var w' := StepWrite(env, w, t, p, ok); w' == MoveTo(w, t, w'.threads[t]) && ThreadOk(env, w, w'.threads[t])
  {
  }

  lemma NextPhaseOk(env: Env, w: World, t: Thread, p: Phase, ok: bool)
    requires Valid(env, w) && ThreadOk(env, w, p) && Holding(p) && !p.Writing?
    ensures var w' := StepHolder(env, w, t, p, ok); w' == MoveTo(w, t, w'.threads[t]) && ThreadOk(env, w, w'.threads[t])
  {
    forall f | 0 <= f < FILES && w.shown[f].Some? ensures w.shown[f].value.UpTo(Now(w)) {
      assert FileOk(env, w, f);
    }
  }

  lemma ValidProceed(env: Env, w: World, t: Thread, ok: bool)
    requires Valid(env, w) && t in w.threads
    ensures Valid(env, StepHolder(env, w, t, w.threads[t], ok))
  {
    var p := w.threads[t];
    assert ThreadOk(env, w, p);
    if p.Writing? {
      if p.stage == Renaming && ok {
        ValidRename(env, w, t);
      } else {
        NextWriteOk(env, w, t, p, ok);
        ValidMove(env, w, t, StepWrite(env, w, t, p, ok).threads[t]);
      }
    } else if Holding(p) {
      NextPhaseOk(env, w, t, p, ok);
      ValidMove(env, w, t, StepHolder(env, w, t, p, ok).threads[t]);
    }
  }

  lemma ValidStep(env: Env, w: World, a: Action)
    requires Valid(env, w)
    ensures Valid(env, Step(env, w, a))
  {
    match a
    case ChangeMonitors(_) => ValidTables(env, w, Step(env, w, a));
    case ChangePlans(_) => ValidTables(env, w, Step(env, w, a));
    case Call(t) =>
      var w' := Step(env, w, a);
      FilesStable(env, w, w');
      forall u | u in w'.threads ensures ThreadOk(env, w', w'.threads[u]) {
        if u in w.threads {
          ThreadOkStable(env, w, w', w.threads[u]);
        }
      }
    case Acquire(t) =>
      if w.lock.None? && t in w.threads && w.threads[t].Waiting? {
        assert ThreadOk(env, w, w.threads[t]);
        ValidMove(env, w, t, Locked(w.threads[t].asked));
      }
    case Proceed(t, ok) =>
      if t in w.threads {
        ValidProceed(env, w, t, ok);
      }
    case Crash => FilesStable(env, w, Step(env, w, a));
  }

  // ---- runs ----

  /** Before the first sync the files hold anything at all. */
  function Initial(ms: seq<Monitor>, ps: map<nat, Plan>, files: seq<Content>): World
    requires |files| == FILES
  {
    World([ms], [ps], None, map[], files, [None, None, None])
  }

  function After(env: Env, w: World, run: seq<Action>): (w': World)
    requires Valid(env, w)
    ensures Valid(env, w')
    decreases |run|
  {
    if run == [] then w
    else
      ValidStep(env, w, run[0]);
      After(env, Step(env, w, run[0]), run[1..])
  }

  /** Each file shows what it showed or something at least as new, and the calls in progress never
      write anything older than what is shown. */
  predicate Newer(w: World, w': World) {
    && |w.shown| == |w'.shown| && |w.targets| == |w'.targets| == |w.shown| && Extends(w, w')
    && forall f | 0 <= f < |w.shown| ::
         && (w.shown[f].Some? ==> w'.shown[f].Some? && w.shown[f].value.UpTo(w'.shown[f].value))
         && (w'.shown[f].None? ==> w'.targets[f] == w.targets[f])
  }

  lemma NewerRename(env: Env, w: World, t: Thread)
    requires Valid(env, w) && t in w.threads && w.threads[t].Writing? && w.threads[t].stage == Renaming
    requires ThreadOk(env, w, w.threads[t])
    ensures Newer(w, StepWrite(env, w, t, w.threads[t], true))
  {
  }

  lemma NewerProceed(env: Env, w: World, t: Thread, ok: bool)
    requires Valid(env, w) && t in w.threads
    ensures Newer(w, StepHolder(env, w, t, w.threads[t], ok))
  {
    var p := w.threads[t];
    assert ThreadOk(env, w, p);
    if p.Writing? {
      if p.stage == Renaming && ok {
        NewerRename(env, w, t);
      } else {
        NextWriteOk(env, w, t, p, ok);
      }
    } else if Holding(p) {
      NextPhaseOk(env, w, t, p, ok);
    }
  }

  lemma NewerStep(env: Env, w: World, a: Action)
    requires Valid(env, w)
    ensures Newer(w, Step(env, w, a))
  {
    if a.Proceed? && a.t in w.threads {
      NewerProceed(env, w, a.t, a.ok);
    }
  }

  lemma NewerTransitive(a: World, b: World, c: World)
    requires Newer(a, b) && Newer(b, c)
    ensures Newer(a, c)
  {
  }

  /** Snapshots behind the files never go backwards, whatever syncs run concurrently and crash. */
  lemma {:induction false} FilesNeverGoBackwards(env: Env, w: World, run: seq<Action>)
    requires Valid(env, w)
    ensures Newer(w, After(env, w, run))
    decreases |run|
  {
    if run != [] {
      NewerStep(env, w, run[0]);
      ValidStep(env, w, run[0]);
      FilesNeverGoBackwards(env, Step(env, w, run[0]), run[1..]);
      NewerTransitive(w, Step(env, w, run[0]), After(env, w, run));
    } else {
      assert Newer(w, w);
    }
  }

  /** At every moment of every run each file is wholly what it was at first or wholly the projection
      of some committed versions. */
  lemma ReadersSeeWholeFiles(env: Env, ms: seq<Monitor>, ps: map<nat, Plan>, files: seq<Content>, run: seq<Action>, f: nat)
    requires |files| == FILES && f < FILES
    ensures Valid(env, Initial(ms, ps, files))
    ensures var w := After(env, Initial(ms, ps, files), run);
            w.targets[f] == files[f]
            || exists v :: Known(w, v) && Intended(env, w, v).Ok? && w.targets[f] == Whole(DocOf(Intended(env, w, v).value, f))
  {
    var w0 := Initial(ms, ps, files);
    var w := After(env, w0, run);
    FilesNeverGoBackwards(env, w0, run);
    assert FileOk(env, w, f);
    if w.shown[f].Some? {
      assert Known(w, w.shown[f].value);
    }
  }

  /** What the files show when a sync has written them. */
  lemma WrittenIsShown(env: Env, w: World, t: Thread)
    requires Valid(env, w) && t in w.threads && w.threads[t].Written?
    ensures var p := w.threads[t];
            p.asked.UpTo(p.v) && Known(w, p.v) && Intended(env, w, p.v).Ok?
            && (forall f | 0 <= f < FILES :: w.shown[f] == Some(p.v))
            && var a := Intended(env, w, p.v).value;
            w.targets == [Whole(ModulesDoc(a.modules)), Whole(ScrapesDoc(a.scrapes)), Whole(RulesDoc(a.rules))]
  {
    assert ThreadOk(env, w, w.threads[t]);
    assert FileOk(env, w, 0) && FileOk(env, w, 1) && FileOk(env, w, 2);
  }

  /** When a sync has written, all three files show the projection of one pair of snapshots, taken
      no earlier than the call, whatever the files held before; and from then on, whatever runs or
      crashes, they never show anything older. */
  lemma AFinishedSyncIsPublished(env: Env, w: World, t: Thread, later: seq<Action>)
    requires Valid(env, w) && t in w.threads && w.threads[t].Written?
    ensures var p, w' := w.threads[t], After(env, w, later);
            p.asked.UpTo(p.v) && Known(w, p.v) && Intended(env, w, p.v).Ok?
            && (forall f | 0 <= f < FILES :: w'.shown[f].Some? && p.v.UpTo(w'.shown[f].value) && FileOk(env, w', f))
            && var a := Intended(env, w, p.v).value;
            w.targets == [Whole(ModulesDoc(a.modules)), Whole(ScrapesDoc(a.scrapes)), Whole(RulesDoc(a.rules))]
  {
    WrittenIsShown(env, w, t);
    FilesNeverGoBackwards(env, w, later);
  }

  // ---- a sync gets there ----

  function Undisturbed(t: Thread, n: nat): seq<Action> {
    if n == 0 then [] else [Proceed(t, true)] + Undisturbed(t, n - 1)
  }

  lemma OneMore(env: Env, w: World, t: Thread, n: nat)
    requires Valid(env, w)
    ensures Valid(env, Step(env, w, Proceed(t, true)))
    ensures After(env, w, Undisturbed(t, n + 1)) == After(env, Step(env, w, Proceed(t, true)), Undisturbed(t, n))
  {
    ValidStep(env, w, Proceed(t, true));
    assert Undisturbed(t, n + 1)[1..] == Undisturbed(t, n);
  }

  predicate At(w: World, t: Thread, p: Phase) {
    t in w.threads && w.threads[t] == p
  }

  /** Five steps write one file. */
  lemma WritesAFile(env: Env, w: World, t: Thread, asked: Version, v: Version, file: nat, n: nat) returns (w': World)
    requires Valid(env, w) && file < FILES && At(w, t, Writing(asked, v, file, Opening, Missing))
    ensures Valid(env, w') && NextFile(w', t, asked, v, file)
    ensures After(env, w, Undisturbed(t, n + 5)) == After(env, w', Undisturbed(t, n))
  {
    var w1 := Writes(env, w, t, n + 4);
    var w2 := Writes(env, w1, t, n + 3);
    w' := PlacesTheFile(env, w2, t, asked, v, file, w2.threads[t].temp, n);
  }

  predicate NextFile(w: World, t: Thread, asked: Version, v: Version, file: nat) {
    At(w, t, if file + 1 < FILES then Writing(asked, v, file + 1, Opening, Missing) else Written(asked, v))
  }

  lemma PlacesTheFile(env: Env, w: World, t: Thread, asked: Version, v: Version, file: nat, temp: Content, n: nat) returns (w': World)
    requires Valid(env, w) && file < FILES && At(w, t, Writing(asked, v, file, Chmodding, temp))
    ensures Valid(env, w') && NextFile(w', t, asked, v, file)
    ensures After(env, w, Undisturbed(t, n + 3)) == After(env, w', Undisturbed(t, n))
  {
    var w1 := Writes(env, w, t, n + 2);
    w' := RenamesTheFile(env, w1, t, asked, v, file, temp, n);
  }

  /** The stage after this one. */
  predicate NextStage(w: World, t: Thread, p: Phase) {
    p.Writing? &&
    match p.stage
    case Opening => At(w, t, p.(stage := Filling, temp := Torn))
    case Filling => t in w.threads && w.threads[t].Writing? && w.threads[t] == p.(stage := Chmodding, temp := w.threads[t].temp)
    case Chmodding => At(w, t, p.(stage := Closing))
    case Closing => At(w, t, p.(stage := Renaming))
    case Renaming => NextFile(w, t, p.asked, p.v, p.file)
  }

  lemma Writes(env: Env, w: World, t: Thread, n: nat) returns (w': World)
    requires Valid(env, w) && t in w.threads && w.threads[t].Writing?
    ensures Valid(env, w') && NextStage(w', t, w.threads[t])
    ensures After(env, w, Undisturbed(t, n + 1)) == After(env, w', Undisturbed(t, n))
  {
    OneMore(env, w, t, n);
    assert ThreadOk(env, w, w.threads[t]);
    w' := Step(env, w, Proceed(t, true));
    assert w' == StepWrite(env, w, t, w.threads[t], true);
  }

  lemma RenamesTheFile(env: Env, w: World, t: Thread, asked: Version, v: Version, file: nat, temp: Content, n: nat) returns (w': World)
    requires Valid(env, w) && file < FILES && At(w, t, Writing(asked, v, file, Closing, temp))
    ensures Valid(env, w') && NextFile(w', t, asked, v, file)
    ensures After(env, w, Undisturbed(t, n + 2)) == After(env, w', Undisturbed(t, n))
  {
    var w1 := Writes(env, w, t, n + 1);
    w' := Writes(env, w1, t, n);
  }

  lemma WritesTheRest(env: Env, w: World, t: Thread, asked: Version, v: Version, n: nat) returns (w': World)
    requires Valid(env, w) && At(w, t, Writing(asked, v, 0, Opening, Missing))
    ensures Valid(env, w') && At(w', t, Written(asked, v))
    ensures After(env, w, Undisturbed(t, n + 15)) == After(env, w', Undisturbed(t, n))
  {
    var w1 := WritesAFile(env, w, t, asked, v, 0, n + 10);
    var w2 := WritesAFile(env, w1, t, asked, v, 1, n + 5);
    w' := WritesAFile(env, w2, t, asked, v, 2, n);
  }

  /** The tables stay as they are, the latest versions among them. */
  predicate StillLatest(env: Env, w: World, w': World, v: Version)
    requires |w.monitors| > 0 && |w.plans| > 0
  {
    v == Now(w) == Now(w') && Known(w', v) && Intended(env, w', v) == Intended(env, w, v)
  }

  lemma Reads(env: Env, w: World, t: Thread, asked: Version, n: nat) returns (w': World)
    requires Valid(env, w) && At(w, t, Locked(asked))
    ensures Valid(env, w') && At(w', t, Listed(asked, Now(w).monitors)) && StillLatest(env, w, w', Now(w))
    ensures After(env, w, Undisturbed(t, n + 1)) == After(env, w', Undisturbed(t, n))
  {
    OneMore(env, w, t, n);
    w' := Step(env, w, Proceed(t, true));
  }

  lemma Plans(env: Env, w: World, t: Thread, asked: Version, v: Version, n: nat) returns (w': World)
    requires Valid(env, w) && At(w, t, Listed(asked, v.monitors)) && v == Now(w)
    ensures Valid(env, w') && At(w', t, Planned(asked, v)) && StillLatest(env, w, w', v)
    ensures After(env, w, Undisturbed(t, n + 1)) == After(env, w', Undisturbed(t, n))
  {
    OneMore(env, w, t, n);
    w' := Step(env, w, Proceed(t, true));
  }

  lemma BeginsToWrite(env: Env, w: World, t: Thread, asked: Version, v: Version, n: nat) returns (w': World)
    requires Valid(env, w) && At(w, t, Planned(asked, v)) && Known(w, v) && Intended(env, w, v).Ok?
    ensures Valid(env, w') && At(w', t, Writing(asked, v, 0, Opening, Missing))
    ensures After(env, w, Undisturbed(t, n + 1)) == After(env, w', Undisturbed(t, n))
  {
    OneMore(env, w, t, n);
    w' := Step(env, w, Proceed(t, true));
  }

  lemma ReadsBoth(env: Env, w: World, t: Thread, asked: Version, n: nat) returns (w': World)
    requires Valid(env, w) && At(w, t, Locked(asked))
    ensures Valid(env, w') && At(w', t, Planned(asked, Now(w))) && StillLatest(env, w, w', Now(w))
    ensures After(env, w, Undisturbed(t, n + 2)) == After(env, w', Undisturbed(t, n))
  {
    var w1 := Reads(env, w, t, asked, n + 1);
    w' := Plans(env, w1, t, asked, Now(w), n);
  }

  lemma ReadsAndPlans(env: Env, w: World, t: Thread, asked: Version, n: nat) returns (w': World)
    requires Valid(env, w) && At(w, t, Locked(asked)) && Intended(env, w, Now(w)).Ok?
    ensures Valid(env, w') && At(w', t, Writing(asked, Now(w), 0, Opening, Missing))
    ensures After(env, w, Undisturbed(t, n + 3)) == After(env, w', Undisturbed(t, n))
  {
    var w1 := ReadsBoth(env, w, t, asked, n + 1);
    w' := BeginsToWrite(env, w1, t, asked, Now(w), n);
  }

  /** Left alone and nothing failing, a call that has the lock publishes the latest snapshots in 18
      steps, provided they can be projected. */
  lemma AnUndisturbedSyncPublishes(env: Env, w: World, t: Thread, asked: Version) returns (steps: nat)
    requires Valid(env, w) && At(w, t, Locked(asked)) && Intended(env, w, Now(w)).Ok?
    ensures steps == 18 && At(After(env, w, Undisturbed(t, steps)), t, Written(asked, Now(w)))
  {
    steps := 18;
    var left := steps - 18;
    var w1 := ReadsAndPlans(env, w, t, asked, left + 15);
    var w2 := WritesTheRest(env, w1, t, asked, Now(w), left);
    assert Undisturbed(t, left) == [];
  }

  /** The call is made and gets the lock. */
  lemma CalledAndLocked(env: Env, w: World, t: Thread) returns (w': World)
    requires Valid(env, w) && w.lock.None? && t !in w.threads
    ensures Valid(env, w') && At(w', t, Locked(Now(w))) && w'.monitors == w.monitors && w'.plans == w.plans
    ensures forall rest :: After(env, w, [Action.Call(t), Acquire(t)] + rest) == After(env, w', rest)
  {
    ValidStep(env, w, Action.Call(t));
    var w1 := Step(env, w, Action.Call(t));
    ValidStep(env, w1, Acquire(t));
    w' := Step(env, w1, Acquire(t));
    forall rest ensures After(env, w, [Action.Call(t), Acquire(t)] + rest) == After(env, w', rest) {
      assert ([Action.Call(t), Acquire(t)] + rest)[1..] == [Acquire(t)] + rest && ([Acquire(t)] + rest)[1..] == rest;
    }
  }

  lemma ChangeIsLatest(env: Env, w: World, ms: seq<Monitor>)
    requires Valid(env, w)
    ensures var w' := Step(env, w, ChangeMonitors(ms));
            && Valid(env, w') && w'.lock == w.lock && w'.threads == w.threads
            && Intended(env, w', Now(w')) == Generated(env.cfg, Cap(ms, LimitOf(w.plans[|w.plans| - 1], env.limitsFor)))
  {
    ValidStep(env, w, ChangeMonitors(ms));
  }

  /** A change that is committed is published by the next sync that nothing disturbs, for every file. */
  lemma AChangeIsPublished(env: Env, w: World, t: Thread, ms: seq<Monitor>)
    requires Valid(env, w) && w.lock.None? && t !in w.threads
    requires Generated(env.cfg, Cap(ms, LimitOf(w.plans[|w.plans| - 1], env.limitsFor))).Ok?
    ensures ShowsAll(After(env, w, [ChangeMonitors(ms)] + ([Action.Call(t), Acquire(t)] + Undisturbed(t, 18))),
                     Generated(env.cfg, Cap(ms, LimitOf(w.plans[|w.plans| - 1], env.limitsFor))).value)
  {
    ChangeIsLatest(env, w, ms);
    PublishedByNextSync(env, Step(env, w, ChangeMonitors(ms)), t);
    AfterFirst(env, w, ChangeMonitors(ms), [Action.Call(t), Acquire(t)] + Undisturbed(t, 18));
  }

  lemma AfterFirst(env: Env, w: World, a: Action, rest: seq<Action>)
    requires Valid(env, w) && Valid(env, Step(env, w, a))
    ensures After(env, w, [a] + rest) == After(env, Step(env, w, a), rest)
  {
    assert ([a] + rest)[0] == a && ([a] + rest)[1..] == rest;
  }

  /** Each file shows its document of the projection. */
  predicate ShowsAll(w: World, a: Artifacts) {
    w.targets == [Whole(ModulesDoc(a.modules)), Whole(ScrapesDoc(a.scrapes)), Whole(RulesDoc(a.rules))]
  }

  lemma WrittenShows(env: Env, w: World, w': World, t: Thread, asked: Version, v: Version)
    requires Valid(env, w') && At(w', t, Written(asked, v)) && Extends(w, w') && Known(w, v)
    ensures Intended(env, w, v).Ok? && ShowsAll(w', Intended(env, w, v).value)
  {
    WrittenIsShown(env, w', t);
    IntendedStable(env, w, w', v);
  }

  lemma LeftAlonePublishes(env: Env, w: World, t: Thread)
    requires Valid(env, w) && At(w, t, Locked(Now(w))) && Intended(env, w, Now(w)).Ok?
    ensures ShowsAll(After(env, w, Undisturbed(t, 18)), Intended(env, w, Now(w)).value)
  {
    var steps := AnUndisturbedSyncPublishes(env, w, t, Now(w));
    FilesNeverGoBackwards(env, w, Undisturbed(t, 18));
    WrittenShows(env, w, After(env, w, Undisturbed(t, 18)), t, Now(w), Now(w));
  }

  lemma PublishedByNextSync(env: Env, w: World, t: Thread)
    requires Valid(env, w) && w.lock.None? && t !in w.threads && Intended(env, w, Now(w)).Ok?
    ensures ShowsAll(After(env, w, [Action.Call(t), Acquire(t)] + Undisturbed(t, 18)), Intended(env, w, Now(w)).value)
  {
    var w1 := CalledAndLocked(env, w, t);
    IntendedStable(env, w, w1, Now(w));
    LeftAlonePublishes(env, w1, t);
  }

  // ---- the code that takes these steps ----

  /** Which operation of one atomic write fails. */
  datatype Faults = Faults(mkdir: bool, create: bool, write: bool, chmod: bool, close: bool, rename: bool, remove: bool) {
    predicate Lucky() {
      !mkdir && !create && !write && !chmod && !close && !rename
    }
  }

  class Disk {
    var files: map<string, Content>

    constructor (files: map<string, Content>)
      ensures this.files == files
    {
      this.files := files;
    }

    method CreateTemp(tmp: string, fails: bool) returns (ok: bool)
      requires tmp !in files
      modifies this
      ensures ok == !fails && files == if ok then old(files)[tmp := Torn] else old(files)
    {
      if !fails {
        files := files[tmp := Torn];
      }
      return !fails;
    }

    method Write(tmp: string, doc: Doc, fails: bool) returns (ok: bool)
      requires tmp in files
      modifies this
      ensures ok == !fails && files == old(files)[tmp := if ok then Whole(doc) else Torn]
    {
      files := files[tmp := if fails then Torn else Whole(doc)];
      return !fails;
    }

    method Rename(from: string, to: string, fails: bool) returns (ok: bool)
      requires from in files && from != to
      modifies this
      ensures ok == !fails && files == if ok then (old(files) - {from})[to := old(files)[from]] else old(files)
    {
      if !fails {
        files := (files - {from})[to := files[from]];
      }
      return !fails;
    }

    method Remove(name: string, fails: bool)
      modifies this
      ensures files == if fails then old(files) else old(files) - {name}
    {
      if !fails {
        files := files - {name};
      }
    }
  }

  /** The names of temporary files: new ones, each its own. */
  predicate Temporaries(tmps: seq<string>, paths: seq<string>, files: map<string, Content>) {
    && (forall i | 0 <= i < |tmps| :: tmps[i] !in files && tmps[i] !in paths)
    && (forall i, j | 0 <= i < j < |tmps| :: tmps[i] != tmps[j])
  }

  function Litter(tmps: seq<string>): set<string> {
    set i | 0 <= i < |tmps| :: tmps[i]
  }

  /** The first `n` files replaced by their documents. */
  function Published(files: map<string, Content>, paths: seq<string>, a: Artifacts, n: nat): map<string, Content>
    requires n <= |paths|
  {
    if n == 0 then files else Published(files, paths, a, n - 1)[paths[n - 1] := Whole(DocOf(a, n - 1))]
  }

  lemma TemporaryGone(files: map<string, Content>, tmp: string, c: Content)
    requires tmp !in files
    ensures files[tmp := c] - {tmp} == files
  {
  }

  lemma TemporaryElsewhere(files: map<string, Content>, tmp: string, path: string, c: Content)
    requires tmp !in files && tmp != path
    ensures files[path := c] - {tmp} == files[path := c]
  {
  }

  /** All three: modules, scrapes and rules, each under its path. */
  lemma PublishedWhole(files: map<string, Content>, paths: seq<string>, a: Artifacts)
    requires |paths| == FILES
    ensures Published(files, paths, a, FILES)
         == files[paths[0] := Whole(ModulesDoc(a.modules))][paths[1] := Whole(ScrapesDoc(a.scrapes))][paths[2] := Whole(RulesDoc(a.rules))]
  {
    assert Published(files, paths, a, 1) == files[paths[0] := Whole(DocOf(a, 0))];
  }

  lemma NextPublished(files: map<string, Content>, now: map<string, Content>, paths: seq<string>, a: Artifacts, tmps: seq<string>, n: nat)
    requires n < |tmps| == |paths| && tmps[n] !in now
    requires now - {tmps[n]} == Published(files, paths, a, n)[paths[n] := Whole(DocOf(a, n))]
    requires forall i | n <= i < |tmps| :: tmps[i] !in Published(files, paths, a, n) && tmps[i] !in paths
    ensures now == Published(files, paths, a, n + 1)
    ensures forall i | n < i < |tmps| :: tmps[i] !in now
  {
    assert now == now - {tmps[n]};
  }

  class Syncer {
    const env: Env
    const paths: seq<string>
    const disk: Disk

    constructor (env: Env, paths: seq<string>, disk: Disk)
      ensures this.env == env && this.paths == paths && this.disk == disk
    {
      this.env, this.paths, this.disk := env, paths, disk;
    }

    /** All or nothing, apart from a temporary file that could not be removed. */
    method WriteAtomic(path: string, doc: Doc, tmp: string, faults: Faults) returns (ok: bool)
      requires tmp !in disk.files && tmp != path
      modifies disk
      ensures ok <==> faults.Lucky()
      ensures disk.files - {tmp} == if ok then old(disk.files)[path := Whole(doc)] else old(disk.files)
      ensures tmp in disk.files ==> !ok && faults.remove && !disk.files[tmp].Missing?
    {
      if faults.mkdir {
        return false;
      }
      var created := disk.CreateTemp(tmp, faults.create);
      if !created {
        return false;
      }
      var written := disk.Write(tmp, doc, faults.write);
      TemporaryGone(old(disk.files), tmp, Torn);
      TemporaryGone(old(disk.files), tmp, Whole(doc));
      if !written || faults.chmod || faults.close {
        disk.Remove(tmp, faults.remove);
        return false;
      }
      var renamed := disk.Rename(tmp, path, faults.rename);
      TemporaryElsewhere(old(disk.files), tmp, path, Whole(doc));
      disk.Remove(tmp, faults.remove);
      return renamed;
    }

    /** One call, from the reads to the reloads. It returns how many files it replaced: all of them
        or those before the first write that failed. */
    method Sync(ms: Option<seq<Monitor>>, ps: Option<map<nat, Plan>>, tmps: seq<string>, faults: seq<Faults>, reloads: bool)
      returns (ok: bool, replaced: nat)
      requires |paths| == |tmps| == |faults| == FILES && Temporaries(tmps, paths, disk.files)
      modifies disk
      ensures replaced <= FILES
      ensures var a := if ms.Some? && ps.Some? then Generated(env.cfg, Cap(ms.value, LimitOf(ps.value, env.limitsFor))) else Err(Internal);
              if a.Err? then !ok && replaced == 0 && disk.files == old(disk.files)
              else
                && (forall i | 0 <= i < replaced :: faults[i].Lucky()) && (replaced < FILES ==> !faults[replaced].Lucky())
                && ok == (replaced == FILES && reloads)
                && disk.files - Litter(tmps) == Published(old(disk.files), paths, a.value, replaced)
    {
      if ms.None? || ps.None? {
        return false, 0;
      }
      var kept := CapToPlan(ms.value, ps.value, env.limitsFor);
      var generated := Generate(env.cfg, kept);
      if generated.Err? {
        return false, 0;
      }
      replaced := WriteAll(generated.value, tmps, faults);
      return replaced == FILES && reloads, replaced;
    }

    /** Writes the files in order up to the first failure. */
    method WriteAll(a: Artifacts, tmps: seq<string>, faults: seq<Faults>) returns (replaced: nat)
      requires |paths| == |tmps| == |faults| == FILES && Temporaries(tmps, paths, disk.files)
      modifies disk
      ensures replaced <= FILES
      ensures (forall i | 0 <= i < replaced :: faults[i].Lucky()) && (replaced < FILES ==> !faults[replaced].Lucky())
      ensures disk.files - Litter(tmps) == Published(old(disk.files), paths, a, replaced)
    {
      replaced := 0;
      while replaced < FILES
        invariant replaced <= FILES
        invariant forall i | 0 <= i < replaced :: faults[i].Lucky()
        invariant disk.files == Published(old(disk.files), paths, a, replaced)
        invariant forall i | replaced <= i < FILES :: tmps[i] !in disk.files
      {
        assert paths[replaced] in paths;
        var written := WriteAtomic(paths[replaced], DocOf(a, replaced), tmps[replaced], faults[replaced]);
        if !written {
          OnlyLitter(disk.files, Published(old(disk.files), paths, a, replaced), tmps[replaced], Litter(tmps));
          break;
        }
        NextPublished(old(disk.files), disk.files, paths, a, tmps, replaced);
        replaced := replaced + 1;
      }
      NoLitter(old(disk.files), paths, a, replaced, Litter(tmps));
    }
  }

  lemma {:induction false} NoLitter(files: map<string, Content>, paths: seq<string>, a: Artifacts, n: nat, litter: set<string>)
    requires n <= |paths| && (forall p | p in paths :: p !in litter) && forall x | x in litter :: x !in files
    ensures forall x | x in litter :: x !in Published(files, paths, a, n)
    ensures Published(files, paths, a, n) - litter == Published(files, paths, a, n)
  {
    if n > 0 {
      NoLitter(files, paths, a, n - 1, litter);
      assert paths[n - 1] in paths;
    }
  }

  lemma OnlyLitter(files: map<string, Content>, clean: map<string, Content>, tmp: string, litter: set<string>)
    requires files - {tmp} == clean && tmp in litter
    ensures files - litter == clean - litter
  {
    assert files - litter == files - {tmp} - litter;
  }
}
