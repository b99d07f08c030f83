/**
 Metered diagnoses running against the credit ledger. Any number of diagnoses interleave with each
 other, with payments and with the meter; each step of `World` is one statement, one probe or one
 model call. A process that dies simply takes no further step.
 */
module Diagnosis {
  import opened Billing
  import opened Wrappers

  datatype Plan = Free | Starter | Pro | PayAsYouGo

  /** What one diagnosis costs in credit, and each tier's monthly allowance. */
  datatype Config = Config(requestedCost: int, allowance: Plan -> int, rate: int) {
    function Cost(): (cost: int)
      ensures cost > 0 && (requestedCost > 0 ==> cost == requestedCost) && (requestedCost <= 0 ==> cost == 300)
    {
      if requestedCost <= 0 then DEFAULT_COST else requestedCost
    }
  }

  const DEFAULT_COST := 5 * 60

  /** What the caller of a finished diagnosis is left with. `kept` is credit that was debited and
      never returned. */
  datatype Outcome =
    | Refused
    | ChargeUnconfirmed(kept: int)
    | Analysed(kept: int)
    | NotAnalysed(kept: int)

  datatype Phase =
    | ReadingPlan
    | Locating(plan: Plan)
    | Paying(plan: Plan)
    | Probing(charged: int)
    | Explaining(charged: int)
    | Recording(charged: int)
    | Refunding(charged: int)
    | Finished(outcome: Outcome)

  datatype Diagnosing = Diagnosing(org: OrgId, phase: Phase)

  /** `burned` is the total the meter took from each organization; only proofs read it. `erased` are
      the organizations that are gone; ids are never drawn again. */
  datatype World = World(db: Db, jobs: seq<Diagnosing>, burned: map<OrgId, int>, month: nat, erased: set<OrgId>)

  /** An organization is closed by marking its row, which every statement on balances respects, or
      erased with all that it owns. */
  datatype Action =
    | OpenOrg(org: OrgId)
    | CloseOrg(org: OrgId)
    | EraseOrg(org: OrgId)
    | SetMonitors(org: OrgId, enabled: nat)
    | Webhook(ev: WebhookEvent, fault: Fault)
    | MeterTick(elapsed: int)
    | NextMonth
    | Begin(org: OrgId)
    | Advance(job: nat, move: Move)

  /** One statement, probe or model call of one diagnosis, with how it turns out. */
  datatype Move =
    | ReadPlan(answer: Option<Plan>)
    | Locate(found: bool)
    | Pay(fault: Fault)
    | Probe(ok: bool)
    | Explain(ok: bool)
    | Record(done: bool)
    | Refund(done: bool)

  function MoveTo(w: World, job: nat, phase: Phase): World
    requires job < |w.jobs|
  {
    w.(jobs := w.jobs[job := w.jobs[job].(phase := phase)])
  }

  function BurnedAfter(w: World, elapsed: int): map<OrgId, int> {
    map o | o in w.db.orgs :: BurnedBy(w, o) + Burn(w.db.orgs[o], elapsed)
  }

  function BurnedBy(w: World, org: OrgId): int {
    if org in w.burned then w.burned[org] else 0
  }

  /** Pay before probing: a pay-as-you-go organization is charged, a subscribed tier is checked
      against its allowance. */
  function StepPay(cfg: Config, w: World, job: nat, plan: Plan, fault: Fault): World
    requires job < |w.jobs|
  {
    var org := w.jobs[job].org;
    if plan == PayAsYouGo then
      if fault == RolledBack || !CanCharge(w.db, org, cfg.Cost()) then MoveTo(w, job, Finished(Refused))
      else
        MoveTo(w.(db := AddCredit(w.db, org, -cfg.Cost())), job,
               if fault == NoFault then Probing(cfg.Cost()) else Finished(ChargeUnconfirmed(cfg.Cost())))
    else if fault != NoFault || RunsSince(w.db.runs, org, w.month) >= cfg.allowance(plan)
    then MoveTo(w, job, Finished(Refused))
    else MoveTo(w, job, Probing(0))
  }

  /** What a refund leaves with the ledger: the statement may fail, and it only finds a live
      organization. */
  function NotReturned(db: Db, org: OrgId, charged: int, done: bool): int {
    if charged <= 0 || (done && org in db.orgs && db.orgs[org].live) then 0 else charged
  }

  function StepJob(cfg: Config, w: World, i: nat, move: Move): World
    requires i < |w.jobs|
  {
    var org, p := w.jobs[i].org, w.jobs[i].phase;
    match move
    case ReadPlan(answer) =>
      if !p.ReadingPlan? then w
      else MoveTo(w, i, if answer.None? || answer.value == Free then Finished(Refused) else Locating(answer.value))
    case Locate(found) =>
      if !p.Locating? then w else MoveTo(w, i, if found then Paying(p.plan) else Finished(Refused))
    case Pay(fault) =>
      if !p.Paying? then w else StepPay(cfg, w, i, p.plan, fault)
    case Probe(ok) =>
      if !p.Probing? then w else MoveTo(w, i, if ok then Explaining(p.charged) else Refunding(p.charged))
    case Explain(ok) =>
      if !p.Explaining? then w else MoveTo(w, i, if ok then Recording(p.charged) else Refunding(p.charged))
    case Record(done) =>
      if !p.Recording? then w
      else
        var runs' := if done && org in w.db.orgs then w.db.runs + [DiagnosisRun(org, p.charged, w.month)] else w.db.runs;
        MoveTo(w.(db := w.db.(runs := runs')), i, Finished(Analysed(p.charged)))
    case Refund(done) =>
      if !p.Refunding? then w
      else
        MoveTo(w.(db := if p.charged > 0 && done then AddCredit(w.db, org, p.charged) else w.db), i,
               Finished(NotAnalysed(NotReturned(w.db, org, p.charged, done))))
  }

  function RowsWithout(events: map<EventId, Row>, org: OrgId): map<EventId, Row> {
    map id | id in events && events[id].org != org :: events[id]
  }

  function RunsWithout(runs: seq<DiagnosisRun>, org: OrgId): seq<DiagnosisRun> {
    if runs == [] then []
    else RunsWithout(runs[..|runs| - 1], org) + if runs[|runs| - 1].org == org then [] else [runs[|runs| - 1]]
  }

  function Erased(w: World, org: OrgId): World {
    w.(db := Db(w.db.orgs - {org}, RowsWithout(w.db.events, org), RunsWithout(w.db.runs, org)),
       burned := w.burned - {org}, erased := w.erased + {org})
  }

  /** One step; an action that is not enabled changes nothing. */
  function Step(cfg: Config, w: World, a: Action): World {
    match a
    case OpenOrg(org) => if org in w.db.orgs || org in w.erased then w else w.(db := w.db.(orgs := w.db.orgs[org := Org(true, 0, 0)]))
    case CloseOrg(org) =>
      if org in w.db.orgs then w.(db := w.db.(orgs := w.db.orgs[org := w.db.orgs[org].(live := false)])) else w
    case EraseOrg(org) => if org in w.db.orgs then Erased(w, org) else w
    case SetMonitors(org, n) =>
      if org in w.db.orgs then w.(db := w.db.(orgs := w.db.orgs[org := w.db.orgs[org].(enabledMonitors := n)])) else w
    case Webhook(ev, fault) => w.(db := WebhookApplied(w.db, cfg.rate, ev, fault).0)
    case MeterTick(elapsed) => w.(db := CreditDeducted(w.db, elapsed), burned := BurnedAfter(w, elapsed))
    case NextMonth => w.(month := w.month + 1)
    case Begin(org) => w.(jobs := w.jobs + [Diagnosing(org, ReadingPlan)])
    case Advance(i, move) => if i < |w.jobs| then StepJob(cfg, w, i, move) else w
  }

  function Exec(cfg: Config, w: World, run: seq<Action>): World
    decreases |run|
  {
    if run == [] then w else Exec(cfg, Step(cfg, w, run[0]), run[1..])
  }

  const EMPTY := World(Db(map[], map[], []), [], map[], 0, {})

  // ---- conservation of credit ----

  /** Credit taken for this job and not given back: in flight, or kept for good. */
  function Held(p: Phase): int {
    match p
    case Probing(c) => c
    case Explaining(c) => c
    case Recording(c) => c
    case Refunding(c) => c
    case Finished(Refused) => 0
    case Finished(o) => o.kept
    case _ => 0
  }

  function HeldOf(jobs: seq<Diagnosing>, org: OrgId): int {
    if jobs == [] then 0
    else (if jobs[0].org == org then Held(jobs[0].phase) else 0) + HeldOf(jobs[1..], org)
  }

  lemma {:induction false} HeldOfUpdate(jobs: seq<Diagnosing>, i: nat, p: Phase, org: OrgId)
    requires i < |jobs|
    ensures HeldOf(jobs[i := jobs[i].(phase := p)], org)
         == HeldOf(jobs, org) + (if jobs[i].org == org then Held(p) - Held(jobs[i].phase) else 0)
  {
    var jobs' := jobs[i := jobs[i].(phase := p)];
    if i == 0 {
      assert jobs'[1..] == jobs[1..];
    } else {
      assert jobs'[1..] == jobs[1..][i - 1 := jobs[i].(phase := p)];
      HeldOfUpdate(jobs[1..], i - 1, p, org);
    }
  }

  lemma {:induction false} HeldOfAppend(jobs: seq<Diagnosing>, job: Diagnosing, org: OrgId)
    ensures HeldOf(jobs + [job], org) == HeldOf(jobs, org) + (if job.org == org then Held(job.phase) else 0)
  {
    if jobs != [] {
      assert (jobs + [job])[1..] == jobs[1..] + [job];
      HeldOfAppend(jobs[1..], job, org);
    }
  }

  lemma {:induction false} HeldOfNonNegative(jobs: seq<Diagnosing>, org: OrgId)
    requires forall j | j in jobs :: Held(j.phase) >= 0
    ensures HeldOf(jobs, org) >= 0
    ensures (forall j | j in jobs && j.org == org :: Held(j.phase) == 0) ==> HeldOf(jobs, org) == 0
  {
    if jobs != [] {
      assert jobs[0] in jobs;
      HeldOfNonNegative(jobs[1..], org);
    }
  }

  ghost predicate Conserved(w: World, org: OrgId) {
    org in w.db.orgs && w.db.orgs[org].live ==>
      Granted(w.db.events, org) == w.db.orgs[org].credit + BurnedBy(w, org) + HeldOf(w.jobs, org)
  }

  ghost predicate Sound(w: World) {
    && (forall o | o in w.db.orgs :: w.db.orgs[o].credit >= 0)
    && (forall o | o in w.burned :: o in w.db.orgs && w.burned[o] >= 0)
    && w.db.orgs.Keys !! w.erased
    && (forall j | j in w.jobs :: Held(j.phase) >= 0 && (Held(j.phase) > 0 ==> j.org in w.db.orgs || j.org in w.erased))
    && (forall id | id in w.db.events :: w.db.events[id].org in w.db.orgs)
    && (forall o | o in w.db.orgs :: Conserved(w, o))
  }

  lemma SoundOpenOrg(cfg: Config, w: World, org: OrgId)
    requires Sound(w)
    ensures Sound(Step(cfg, w, OpenOrg(org)))
  {
    if org !in w.db.orgs && org !in w.erased {
      GrantedNothing(w.db.events, org);
      HeldOfNonNegative(w.jobs, org);
      var w' := Step(cfg, w, OpenOrg(org));
      forall o | o in w'.db.orgs ensures Conserved(w', o) {
        assert o in w.db.orgs ==> Conserved(w, o);
      }
    }
  }

  lemma SoundOrgChange(cfg: Config, w: World, a: Action)
    requires Sound(w) && (a.CloseOrg? || a.SetMonitors? || a.NextMonth?)
    ensures Sound(Step(cfg, w, a))
  {
    var w' := Step(cfg, w, a);
    forall o | o in w'.db.orgs ensures Conserved(w', o) {
      assert Conserved(w, o);
    }
  }

  /** What others were granted does not depend on the rows of an organization that is gone. */
  lemma {:induction false} GrantedWithout(events: map<EventId, Row>, gone: OrgId, org: OrgId)
    requires org != gone
    ensures Granted(RowsWithout(events, gone), org) == Granted(events, org)
    decreases |events|
  {
    if id :| id in events {
      GrantedRemove(events, id, org);
      GrantedWithout(events - {id}, gone, org);
      RowsWithoutOne(events, gone, id);
      if events[id].org != gone {
        GrantedRemove(RowsWithout(events, gone), id, org);
      }
    } else {
      assert RowsWithout(events, gone) == events;
    }
  }

  lemma RowsWithoutOne(events: map<EventId, Row>, gone: OrgId, id: EventId)
    requires id in events
    ensures RowsWithout(events - {id}, gone)
         == if events[id].org == gone then RowsWithout(events, gone) else RowsWithout(events, gone) - {id}
  {
  }

  lemma SoundEraseOrg(cfg: Config, w: World, org: OrgId)
    requires Sound(w)
    ensures Sound(Step(cfg, w, EraseOrg(org)))
  {
    if org in w.db.orgs {
      var w' := Erased(w, org);
      forall o | o in w'.db.orgs ensures Conserved(w', o) {
        assert Conserved(w, o);
        GrantedWithout(w.db.events, org, o);
      }
    }
  }

  /** A new row and the credit it gives. */
  lemma SoundNewRow(w: World, id: EventId, row: Row, credit: int)
    requires Sound(w) && id !in w.db.events && row.org in w.db.orgs && credit >= 0
    requires credit == w.db.orgs[row.org].credit + if w.db.orgs[row.org].live && row.kind == TopUp then row.creditAdded else 0
    ensures Sound(w.(db := w.db.(events := w.db.events[id := row], orgs := w.db.orgs[row.org := w.db.orgs[row.org].(credit := credit)])))
  {
    var w' := w.(db := w.db.(events := w.db.events[id := row], orgs := w.db.orgs[row.org := w.db.orgs[row.org].(credit := credit)]));
    forall o | o in w'.db.orgs ensures Conserved(w', o) {
      assert Conserved(w, o);
      GrantedInsert(w.db.events, id, row, o);
    }
  }

  lemma SoundTopUp(w: World, org: OrgId, add: int, cents: int, id: EventId, fault: Fault)
    requires Sound(w)
    ensures Sound(w.(db := TopUpApplied(w.db, org, add, cents, id, fault).0))
  {
    var db' := TopUpApplied(w.db, org, add, cents, id, fault).0;
    if db' == w.db {
      assert w.(db := db') == w;
    } else {
      SoundNewRow(w, id, Row(org, TopUp, cents, add), w.db.orgs[org].credit + if w.db.orgs[org].live then add else 0);
    }
  }

  lemma SoundSubscription(w: World, org: OrgId, id: EventId, fault: Fault)
    requires Sound(w)
    ensures Sound(w.(db := SubscriptionApplied(w.db, org, id, fault).0))
  {
    if SubscriptionApplied(w.db, org, id, fault).0 != w.db {
      SoundNewRow(w, id, Row(org, Subscription, 0, 0), w.db.orgs[org].credit);
      assert w.db.orgs[org := w.db.orgs[org]] == w.db.orgs;
    }
  }

  lemma SoundWebhook(cfg: Config, w: World, ev: WebhookEvent, fault: Fault)
    requires Sound(w)
    ensures Sound(Step(cfg, w, Webhook(ev, fault)))
  {
    match ev.kind
    case TopUp => SoundTopUp(w, ev.org, CreditSeconds(ev.amountCents, cfg.rate), ev.amountCents, ev.id, fault);
    case Subscription => SoundSubscription(w, ev.org, ev.id, fault);
    case Ignored =>
  }

  lemma SoundMeterTick(cfg: Config, w: World, elapsed: int)
    requires Sound(w)
    ensures Sound(Step(cfg, w, MeterTick(elapsed)))
  {
    var w' := Step(cfg, w, MeterTick(elapsed));
    forall o | o in w.db.orgs ensures 0 <= Burn(w.db.orgs[o], elapsed) <= w.db.orgs[o].credit {
      var n := w.db.orgs[o].enabledMonitors;
      assert elapsed > 0 && n > 0 ==> elapsed * n > 0;
    }
    forall o | o in w'.db.orgs ensures Conserved(w', o) {
      assert Conserved(w, o);
    }
  }

  lemma SoundBegin(cfg: Config, w: World, org: OrgId)
    requires Sound(w)
    ensures Sound(Step(cfg, w, Begin(org)))
  {
    var w' := Step(cfg, w, Begin(org));
    forall o | o in w'.db.orgs ensures Conserved(w', o) {
      assert Conserved(w, o);
      HeldOfAppend(w.jobs, Diagnosing(org, ReadingPlan), o);
    }
  }

  /** Moving a job changes what it holds by exactly what left or entered the balance. */
  lemma SoundMove(w: World, job: nat, p: Phase, delta: int, db': Db)
    requires Sound(w) && job < |w.jobs|
    requires db'.events == w.db.events
    requires db'.orgs == if delta == 0 then w.db.orgs else AddCredit(w.db, w.jobs[job].org, delta).orgs
    requires Held(p) >= 0 && (Held(p) > 0 ==> w.jobs[job].org in w.db.orgs || w.jobs[job].org in w.erased)
    requires w.jobs[job].org in w.db.orgs && w.db.orgs[w.jobs[job].org].live ==>
               w.db.orgs[w.jobs[job].org].credit + delta >= 0 && Held(p) == Held(w.jobs[job].phase) - delta
    ensures Sound(MoveTo(w.(db := db'), job, p))
  {
    var w' := MoveTo(w.(db := db'), job, p);
    forall o | o in w'.db.orgs ensures Conserved(w', o) {
      assert Conserved(w, o);
      HeldOfUpdate(w.jobs, job, p, o);
    }
  }

  lemma SoundCharge(cfg: Config, w: World, job: nat, fault: Fault)
    requires Sound(w) && job < |w.jobs| && w.jobs[job].phase == Paying(PayAsYouGo)
    requires fault != RolledBack && CanCharge(w.db, w.jobs[job].org, cfg.Cost())
    ensures Sound(StepPay(cfg, w, job, PayAsYouGo, fault))
  {
    var org, cost := w.jobs[job].org, cfg.Cost();
    var p := if fault == NoFault then Probing(cost) else Finished(ChargeUnconfirmed(cost));
    SoundMove(w, job, p, -cost, AddCredit(w.db, org, -cost));
  }

  lemma SoundPay(cfg: Config, w: World, job: nat, plan: Plan, fault: Fault)
    requires Sound(w) && job < |w.jobs| && w.jobs[job].phase == Paying(plan)
    ensures Sound(StepPay(cfg, w, job, plan, fault))
  {
    if plan == PayAsYouGo && fault != RolledBack && CanCharge(w.db, w.jobs[job].org, cfg.Cost()) {
      SoundCharge(cfg, w, job, fault);
    } else {
      SoundMove(w, job, Finished(Refused), 0, w.db);
      SoundMove(w, job, Probing(0), 0, w.db);
    }
  }

  lemma SoundStepJob(cfg: Config, w: World, i: nat, move: Move)
    requires Sound(w) && i < |w.jobs|
    ensures Sound(StepJob(cfg, w, i, move))
  {
    var j := w.jobs[i];
    assert j in w.jobs;
    var w' := StepJob(cfg, w, i, move);
    if move.Pay? && j.phase.Paying? {
      SoundPay(cfg, w, i, j.phase.plan, move.fault);
    } else if move.Refund? && j.phase.Refunding? && move.done {
      SoundMove(w, i, w'.jobs[i].phase, j.phase.charged, w'.db);
    } else if w' != w {
      SoundMove(w, i, w'.jobs[i].phase, 0, w'.db);
    }
  }

  lemma SoundStep(cfg: Config, w: World, a: Action)
    requires Sound(w)
    ensures Sound(Step(cfg, w, a))
  {
    match a
    case OpenOrg(org) => SoundOpenOrg(cfg, w, org);
    case CloseOrg(_) => SoundOrgChange(cfg, w, a);
    case EraseOrg(org) => SoundEraseOrg(cfg, w, org);
    case SetMonitors(_, _) => SoundOrgChange(cfg, w, a);
    case NextMonth => SoundOrgChange(cfg, w, a);
    case Webhook(ev, fault) => SoundWebhook(cfg, w, ev, fault);
    case MeterTick(elapsed) => SoundMeterTick(cfg, w, elapsed);
    case Begin(org) => SoundBegin(cfg, w, org);
    case Advance(i, move) => if i < |w.jobs| { SoundStepJob(cfg, w, i, move); }
  }

  lemma {:induction false} SoundExec(cfg: Config, w: World, run: seq<Action>)
    requires Sound(w)
    ensures Sound(Exec(cfg, w, run))
    decreases |run|
  {
    if run != [] {
      SoundStep(cfg, w, run[0]);
      SoundExec(cfg, Step(cfg, w, run[0]), run[1..]);
    }
  }

  /** In every interleaving, a live organization's balance is never negative, every second it was
      granted is in its balance, was burned by the meter, or is held by a diagnosis, and the
      consumed figure is exactly the last two. */
  lemma CreditIsConserved(cfg: Config, run: seq<Action>, org: OrgId)
    requires var w := Exec(cfg, EMPTY, run); org in w.db.orgs && w.db.orgs[org].live
    ensures var w := Exec(cfg, EMPTY, run);
            && w.db.orgs[org].credit >= 0
            && Granted(w.db.events, org) == w.db.orgs[org].credit + BurnedBy(w, org) + HeldOf(w.jobs, org)
            && Consumed(w.db, org) == BurnedBy(w, org) + HeldOf(w.jobs, org)
            && BurnedBy(w, org) >= 0 && HeldOf(w.jobs, org) >= 0
  {
    SoundExec(cfg, EMPTY, run);
    var w := Exec(cfg, EMPTY, run);
    assert Conserved(w, org);
    HeldOfNonNegative(w.jobs, org);
  }

  // ---- the meter takes time times monitors ----

  function Elapsed(a: Action): nat {
    if a.MeterTick? && a.elapsed > 0 then a.elapsed else 0
  }

  function ElapsedIn(run: seq<Action>): nat {
    if run == [] then 0 else Elapsed(run[0]) + ElapsedIn(run[1..])
  }

  /** The organization is there and metered for `n` monitors at every tick, and can pay for it. */
  predicate Solvent(cfg: Config, w: World, run: seq<Action>, org: OrgId, n: nat)
    decreases |run|
  {
    run != [] ==>
      && org in w.db.orgs && (run[0].EraseOrg? ==> run[0].org != org)
      && (run[0].MeterTick? ==>
            var o := w.db.orgs[org]; o.live && o.enabledMonitors == n && o.credit >= Elapsed(run[0]) * n)
      && Solvent(cfg, Step(cfg, w, run[0]), run[1..], org, n)
  }

  lemma BurnedByStep(cfg: Config, w: World, a: Action, org: OrgId, n: nat)
    requires org in w.db.orgs && (a.EraseOrg? ==> a.org != org)
    requires a.MeterTick? ==> var o := w.db.orgs[org]; o.live && o.enabledMonitors == n && o.credit >= Elapsed(a) * n
    ensures BurnedBy(Step(cfg, w, a), org) == BurnedBy(w, org) + Elapsed(a) * n
  {
    match a
    case MeterTick(elapsed) => NoTimeNoDrain(elapsed, n);
    case Advance(i, move) =>
    case _ =>
  }

  lemma Distributes(a: nat, b: nat, n: nat)
    ensures (a + b) * n == a * n + b * n
  {
  }

  /** Whatever happens between the ticks, an organization that has `n` monitors enabled at each of them
      and can pay burns exactly `n` times the time that passes. */
  lemma {:induction false} TheMeterTakesTimeTimesMonitors(cfg: Config, w: World, run: seq<Action>, org: OrgId, n: nat)
    requires Solvent(cfg, w, run, org, n)
    ensures BurnedBy(Exec(cfg, w, run), org) == BurnedBy(w, org) + ElapsedIn(run) * n
    decreases |run|
  {
    if run != [] {
      BurnedByStep(cfg, w, run[0], org, n);
      TheMeterTakesTimeTimesMonitors(cfg, Step(cfg, w, run[0]), run[1..], org, n);
      Distributes(Elapsed(run[0]), ElapsedIn(run[1..]), n);
    }
  }

  // ---- an analysis is an answer of the model ----

  /** The move finds the diagnosis waiting for it. */
  predicate Awaits(p: Phase, move: Move) {
    match move
    case ReadPlan(_) => p.ReadingPlan?
    case Locate(_) => p.Locating?
    case Pay(_) => p.Paying?
    case Probe(_) => p.Probing?
    case Explain(_) => p.Explaining?
    case Record(_) => p.Recording?
    case Refund(_) => p.Refunding?
  }

  /** The last step of the run is this move of diagnosis i, in its turn. */
  predicate JustTook(cfg: Config, run: seq<Action>, i: nat, move: Move)
    requires run != []
  {
    var w := Exec(cfg, EMPTY, run[..|run| - 1]);
    run[|run| - 1] == Advance(i, move) && i < |w.jobs| && Awaits(w.jobs[i].phase, move)
  }

  /** The probe has succeeded. */
  predicate Measured(cfg: Config, run: seq<Action>, i: nat) {
    run != [] && (Measured(cfg, run[..|run| - 1], i) || JustTook(cfg, run, i, Probe(true)))
  }

  /** The model has answered, after the probe succeeded. */
  predicate Answered(cfg: Config, run: seq<Action>, i: nat) {
    run != [] && var earlier := run[..|run| - 1];
    Answered(cfg, earlier, i) || (Measured(cfg, earlier, i) && JustTook(cfg, run, i, Explain(true)))
  }

  /** The probe has failed, or the model has. */
  predicate Failed(cfg: Config, run: seq<Action>, i: nat) {
    run != []
    && (Failed(cfg, run[..|run| - 1], i) || JustTook(cfg, run, i, Probe(false)) || JustTook(cfg, run, i, Explain(false)))
  }

  predicate IsProbed(p: Phase) {
    p.Explaining? || IsAnswered(p)
  }

  predicate IsAnswered(p: Phase) {
    p.Recording? || (p.Finished? && p.outcome.Analysed?)
  }

  predicate IsFailed(p: Phase) {
    p.Refunding? || (p.Finished? && p.outcome.NotAnalysed?)
  }

  /** Where each move leads, as far as the probe and the model are concerned. */
  lemma MoveMeaning(cfg: Config, w: World, i: nat, move: Move)
    requires i < |w.jobs|
    ensures var p, p' := w.jobs[i].phase, StepJob(cfg, w, i, move).jobs[i].phase;
            && |StepJob(cfg, w, i, move).jobs| == |w.jobs|
            && (IsAnswered(p') <==> IsAnswered(p) || (move == Explain(true) && p.Explaining?))
            && (IsFailed(p') <==> IsFailed(p) || (move == Probe(false) && p.Probing?) || (move == Explain(false) && p.Explaining?))
            && (IsProbed(p') ==> IsProbed(p) || (move == Probe(true) && p.Probing?))
  {
  }

  lemma OthersStay(cfg: Config, w: World, a: Action, i: nat)
    requires i < |Step(cfg, w, a).jobs| && !(a.Advance? && a.job == i)
    ensures if i < |w.jobs| then Step(cfg, w, a).jobs[i] == w.jobs[i] else Step(cfg, w, a).jobs[i].phase.ReadingPlan?
  {
  }

  lemma OneMoreStep(cfg: Config, run: seq<Action>)
    requires run != []
    ensures Exec(cfg, EMPTY, run) == Step(cfg, Exec(cfg, EMPTY, run[..|run| - 1]), run[|run| - 1])
  {
    assert run == run[..|run| - 1] + [run[|run| - 1]];
    ExecSnoc(cfg, EMPTY, run[..|run| - 1], run[|run| - 1]);
  }

  /** How far a diagnosis has got tells what the probe and the model have said. */
  ghost predicate Told(cfg: Config, run: seq<Action>, i: nat) {
    var w := Exec(cfg, EMPTY, run);
    && (i < |w.jobs| && IsProbed(w.jobs[i].phase) ==> Measured(cfg, run, i))
    && (i < |w.jobs| && IsAnswered(w.jobs[i].phase) <==> Answered(cfg, run, i))
    && (i < |w.jobs| && IsFailed(w.jobs[i].phase) <==> Failed(cfg, run, i))
  }

  lemma ToldByMove(cfg: Config, run: seq<Action>, i: nat)
    requires run != [] && Told(cfg, run[..|run| - 1], i) && run[|run| - 1].Advance? && run[|run| - 1].job == i
    requires i < |Exec(cfg, EMPTY, run[..|run| - 1]).jobs|
    ensures Told(cfg, run, i)
  {
    OneMoreStep(cfg, run);
    MoveMeaning(cfg, Exec(cfg, EMPTY, run[..|run| - 1]), i, run[|run| - 1].move);
  }

  lemma ToldStep(cfg: Config, run: seq<Action>, i: nat)
    requires run != [] && Told(cfg, run[..|run| - 1], i)
    ensures Told(cfg, run, i)
  {
    var w, a := Exec(cfg, EMPTY, run[..|run| - 1]), run[|run| - 1];
    if a.Advance? && a.job == i && i < |w.jobs| {
      ToldByMove(cfg, run, i);
    } else {
      OneMoreStep(cfg, run);
      if i < |Step(cfg, w, a).jobs| && !(a.Advance? && a.job == i) {
        OthersStay(cfg, w, a, i);
      }
    }
  }

  lemma {:induction false} EachTellsItsStory(cfg: Config, run: seq<Action>, i: nat)
    ensures Told(cfg, run, i)
  {
    if run != [] {
      EachTellsItsStory(cfg, run[..|run| - 1], i);
      ToldStep(cfg, run, i);
    }
  }

  /** In every interleaving, a diagnosis that has come to its end has an analysis exactly if its probe
      succeeded and then the model answered, and is without exactly if one of them failed. */
  lemma AnalysedIffTheModelAnswered(cfg: Config, run: seq<Action>, i: nat)
    requires i < |Exec(cfg, EMPTY, run).jobs| && Exec(cfg, EMPTY, run).jobs[i].phase.Finished?
    ensures var o := Exec(cfg, EMPTY, run).jobs[i].phase.outcome;
            && (o.Analysed? <==> Answered(cfg, run, i))
            && (o.NotAnalysed? <==> Failed(cfg, run, i))
  {
    EachTellsItsStory(cfg, run, i);
  }

  /** A run is recorded only for a diagnosis that the model answered, in the month and at the charge it
      was made for; so one whose probe or model failed never uses up an allowance. */
  lemma OnlyAnswersAreRecorded(cfg: Config, run: seq<Action>, a: Action)
    requires var w := Exec(cfg, EMPTY, run); |Step(cfg, w, a).db.runs| > |w.db.runs|
    ensures a.Advance? && a.move == Record(true)
    ensures Answered(cfg, run, a.job) && !Failed(cfg, run, a.job)
    ensures var w := Exec(cfg, EMPTY, run);
            && a.job < |w.jobs| && w.jobs[a.job].phase.Recording?
            && Step(cfg, w, a).db.runs == w.db.runs + [DiagnosisRun(w.jobs[a.job].org, Held(w.jobs[a.job].phase), w.month)]
  {
    var w := Exec(cfg, EMPTY, run);
    GrowsByRecording(cfg, w, a);
    EachTellsItsStory(cfg, run, a.job);
  }

  lemma GrowsByRecording(cfg: Config, w: World, a: Action)
    requires |Step(cfg, w, a).db.runs| > |w.db.runs|
    ensures a.Advance? && a.move == Record(true) && a.job < |w.jobs| && w.jobs[a.job].phase.Recording?
    ensures Step(cfg, w, a).db.runs == w.db.runs + [DiagnosisRun(w.jobs[a.job].org, Held(w.jobs[a.job].phase), w.month)]
  {
    if a.EraseOrg? {
      FewerRuns(w.db.runs, a.org);
    }
  }

  lemma {:induction false} FewerRuns(runs: seq<DiagnosisRun>, org: OrgId)
    ensures |RunsWithout(runs, org)| <= |runs|
  {
    if runs != [] {
      FewerRuns(runs[..|runs| - 1], org);
    }
  }

  // ---- a charge is kept only for an answer ----

  /** The step debits the job for good without an analysis: its charge is committed but confirmed to
      nobody, its refund fails, or the organization is no longer live when it is refunded. */
  predicate Loses(cfg: Config, w: World, a: Action, i: nat) {
    a.Advance? && a.job == i && i < |w.jobs| &&
    var org, p := w.jobs[i].org, w.jobs[i].phase;
    || (p.Paying? && p.plan == PayAsYouGo && a.move.Pay? && a.move.fault == ConfirmationLost && CanCharge(w.db, org, cfg.Cost()))
    || (p.Refunding? && p.charged > 0 && a.move.Refund? && (!a.move.done || org !in w.db.orgs || !w.db.orgs[org].live))
  }

  /** Such a step occurs in the run. */
  predicate LosesIn(cfg: Config, w: World, run: seq<Action>, i: nat)
    decreases |run|
  {
    run != [] && (Loses(cfg, w, run[0], i) || LosesIn(cfg, Step(cfg, w, run[0]), run[1..], i))
  }

  /** Finished, without an analysis, and still debited. */
  predicate PaidForNothing(w: World, i: nat) {
    i < |w.jobs| && w.jobs[i].phase.Finished? && !w.jobs[i].phase.outcome.Analysed? && Held(w.jobs[i].phase) > 0
  }

  lemma LossByStep(cfg: Config, w: World, a: Action, i: nat)
    ensures PaidForNothing(Step(cfg, w, a), i) <==> PaidForNothing(w, i) || Loses(cfg, w, a, i)
  {
    match a
    case Begin(_) =>
    case Advance(j, move) =>
      if j < |w.jobs| {
        LossByMove(cfg, w, j, move, i);
      }
    case _ =>
  }

  lemma LossByMove(cfg: Config, w: World, j: nat, move: Move, i: nat)
    requires j < |w.jobs|
    ensures PaidForNothing(StepJob(cfg, w, j, move), i) <==> PaidForNothing(w, i) || Loses(cfg, w, Advance(j, move), i)
  {
    if move.Pay? && w.jobs[j].phase.Paying? {
      assert cfg.Cost() > 0;
    }
  }

  lemma {:induction false} LossByRun(cfg: Config, w: World, run: seq<Action>, i: nat)
    ensures PaidForNothing(Exec(cfg, w, run), i) <==> PaidForNothing(w, i) || LosesIn(cfg, w, run, i)
    decreases |run|
  {
    if run != [] {
      LossByStep(cfg, w, run[0], i);
      LossByRun(cfg, Step(cfg, w, run[0]), run[1..], i);
    }
  }

  /** The step charges the job, and its process learns of it. */
  predicate Charges(cfg: Config, w: World, a: Action, i: nat) {
    a.Advance? && a.job == i && i < |w.jobs| &&
    var p := w.jobs[i].phase;
    p.Paying? && p.plan == PayAsYouGo && a.move.Pay? && a.move.fault == NoFault && CanCharge(w.db, w.jobs[i].org, cfg.Cost())
  }

  predicate ChargedIn(cfg: Config, w: World, run: seq<Action>, i: nat)
    decreases |run|
  {
    run != [] && (Charges(cfg, w, run[0], i) || ChargedIn(cfg, Step(cfg, w, run[0]), run[1..], i))
  }

  predicate Unfinished(w: World, i: nat) {
    i >= |w.jobs| || !w.jobs[i].phase.Finished?
  }

  /** Under way and debited. */
  predicate InDebt(w: World, i: nat) {
    i < |w.jobs| && !w.jobs[i].phase.Finished? && Held(w.jobs[i].phase) > 0
  }

  lemma DebtByMove(cfg: Config, w: World, j: nat, move: Move, i: nat)
    requires j < |w.jobs| && Unfinished(StepJob(cfg, w, j, move), i)
    ensures Unfinished(w, i) && (InDebt(StepJob(cfg, w, j, move), i) <==> InDebt(w, i) || Charges(cfg, w, Advance(j, move), i))
  {
    if move.Pay? && w.jobs[j].phase.Paying? {
      assert cfg.Cost() > 0;
    }
  }

  lemma DebtByStep(cfg: Config, w: World, a: Action, i: nat)
    requires Unfinished(Step(cfg, w, a), i)
    ensures Unfinished(w, i) && (InDebt(Step(cfg, w, a), i) <==> InDebt(w, i) || Charges(cfg, w, a, i))
  {
    match a
    case Begin(_) =>
    case Advance(j, move) =>
      if j < |w.jobs| {
        DebtByMove(cfg, w, j, move, i);
      }
    case _ =>
  }

  lemma {:induction false} DebtByRun(cfg: Config, w: World, run: seq<Action>, i: nat)
    requires Unfinished(Exec(cfg, w, run), i)
    ensures Unfinished(w, i) && (InDebt(Exec(cfg, w, run), i) <==> InDebt(w, i) || ChargedIn(cfg, w, run, i))
    decreases |run|
  {
    if run != [] {
      DebtByRun(cfg, Step(cfg, w, run[0]), run[1..], i);
      DebtByStep(cfg, w, run[0], i);
    }
  }

  /** In every interleaving a diagnosis holds credit without an analysis exactly in these cases: its
      charge was confirmed to nobody, its refund failed, its organization was gone before the refund,
      or it was charged and has not come to an end, which for a process that died is for good. */
  lemma ChargesBuyAnswers(cfg: Config, run: seq<Action>, i: nat)
    requires i < |Exec(cfg, EMPTY, run).jobs|
    ensures var p := Exec(cfg, EMPTY, run).jobs[i].phase;
            !(p.Finished? && Answered(cfg, run, i)) ==>
              (Held(p) > 0 <==> LosesIn(cfg, EMPTY, run, i) || (!p.Finished? && ChargedIn(cfg, EMPTY, run, i)))
    ensures var p := Exec(cfg, EMPTY, run).jobs[i].phase;
            Held(p) > 0 && p.Finished? && !LosesIn(cfg, EMPTY, run, i) ==> p.outcome.Analysed? && Answered(cfg, run, i)
  {
    EachTellsItsStory(cfg, run, i);
    LossByRun(cfg, EMPTY, run, i);
    if !Exec(cfg, EMPTY, run).jobs[i].phase.Finished? {
      DebtByRun(cfg, EMPTY, run, i);
    }
  }

  /** The process of the diagnosis takes no step. */
  predicate Stopped(run: seq<Action>, i: nat) {
    forall a | a in run :: !(a.Advance? && a.job == i)
  }

  /** A diagnosis whose process takes no further step stays as it is, whatever else goes on. */
  lemma {:induction false} StoppedStays(cfg: Config, w: World, rest: seq<Action>, i: nat)
    requires i < |w.jobs| && Stopped(rest, i)
    ensures i < |Exec(cfg, w, rest).jobs| && Exec(cfg, w, rest).jobs[i] == w.jobs[i]
    decreases |rest|
  {
    if rest != [] {
      assert rest[0] in rest && forall a | a in rest[1..] :: a in rest;
      StoppedStays(cfg, Step(cfg, w, rest[0]), rest[1..], i);
    }
  }

  // ---- each of the losses happens ----

  datatype Loss = Unconfirmed | RefundFails | ClosedMeanwhile

  /** The only diagnosis is about to be paid for by an organization that can afford it. */
  ghost predicate AboutToPay(cfg: Config, w: World, org: OrgId) {
    w.jobs == [Diagnosing(org, Paying(PayAsYouGo))] && CanCharge(w.db, org, cfg.Cost())
  }

  /** A payment that buys more than one diagnosis. */
  function EnoughFor(cfg: Config, org: OrgId): WebhookEvent {
    WebhookEvent(0, TopUp, org, cfg.Cost())
  }

  lemma PaymentIsEnough(cfg: Config)
    requires cfg.rate > 0
    ensures CreditSeconds(cfg.Cost(), cfg.rate) >= cfg.Cost()
  {
    var cost := cfg.Cost();
    HundredCancels(cost * cfg.rate);
    assert cost * cfg.rate >= cost;
  }

  lemma {:induction false} ExecConcat(cfg: Config, w: World, r: seq<Action>, q: seq<Action>)
    ensures Exec(cfg, w, r + q) == Exec(cfg, Exec(cfg, w, r), q)
    ensures forall i :: LosesIn(cfg, w, r + q, i) <==> LosesIn(cfg, w, r, i) || LosesIn(cfg, Exec(cfg, w, r), q, i)
    decreases |r|
  {
    if r == [] {
      assert r + q == q;
    } else {
      assert (r + q)[1..] == r[1..] + q;
      ExecConcat(cfg, Step(cfg, w, r[0]), r[1..], q);
    }
  }

  lemma OneAction(cfg: Config, w: World, a: Action)
    ensures Exec(cfg, w, [a]) == Step(cfg, w, a)
  {
    assert [a][1..] == [];
  }

  lemma Afford(cfg: Config, org: OrgId) returns (run: seq<Action>)
    requires cfg.rate > 0 && org != NIL_ORG
    ensures AboutToPay(cfg, Exec(cfg, EMPTY, run), org)
  {
    var w1 := Step(cfg, EMPTY, OpenOrg(org));
    var w2 := Step(cfg, w1, Webhook(EnoughFor(cfg, org), NoFault));
    PaymentIsEnough(cfg);
    assert CanCharge(w2.db, org, cfg.Cost());
    var w3 := Step(cfg, w2, Begin(org));
    var w4 := Step(cfg, w3, Advance(0, ReadPlan(Some(PayAsYouGo))));
    assert w4.jobs == [Diagnosing(org, Locating(PayAsYouGo))];
    run := [OpenOrg(org)];
    OneAction(cfg, EMPTY, OpenOrg(org));
    ExecSnoc(cfg, EMPTY, run, Webhook(EnoughFor(cfg, org), NoFault));
    run := run + [Webhook(EnoughFor(cfg, org), NoFault)];
    ExecSnoc(cfg, EMPTY, run, Begin(org));
    run := run + [Begin(org)];
    ExecSnoc(cfg, EMPTY, run, Advance(0, ReadPlan(Some(PayAsYouGo))));
    run := run + [Advance(0, ReadPlan(Some(PayAsYouGo)))];
    ExecSnoc(cfg, EMPTY, run, Advance(0, Locate(true)));
    run := run + [Advance(0, Locate(true))];
  }

  /** How the diagnosis goes on to lose the charge. */
  function LosingEnd(org: OrgId, loss: Loss): seq<Action> {
    match loss
    case Unconfirmed => [Advance(0, Pay(ConfirmationLost))]
    case RefundFails => [Advance(0, Pay(NoFault)), Advance(0, Probe(false)), Advance(0, Refund(false))]
    case ClosedMeanwhile => [Advance(0, Pay(NoFault)), CloseOrg(org), Advance(0, Probe(false)), Advance(0, Refund(true))]
  }

  lemma LosingEndLoses(cfg: Config, w: World, org: OrgId, loss: Loss)
    requires AboutToPay(cfg, w, org)
    ensures LosesIn(cfg, w, LosingEnd(org, loss), 0)
  {
    var end := LosingEnd(org, loss);
    match loss
    case Unconfirmed =>
    case RefundFails =>
      var w1 := Step(cfg, w, end[0]);
      assert w1.jobs == [Diagnosing(org, Probing(cfg.Cost()))];
      var w2 := Step(cfg, w1, end[1]);
      assert w2.jobs == [Diagnosing(org, Refunding(cfg.Cost()))];
      assert end[1..][1..] == [end[2]] && Loses(cfg, w2, end[2], 0);
    case ClosedMeanwhile =>
      var w1 := Step(cfg, w, end[0]);
      assert w1.jobs == [Diagnosing(org, Probing(cfg.Cost()))];
      var w2 := Step(cfg, w1, end[1]);
      var w3 := Step(cfg, w2, end[2]);
      assert w3.jobs == [Diagnosing(org, Refunding(cfg.Cost()))] && !w3.db.orgs[org].live;
      assert end[1..] == [end[1], end[2], end[3]];
      assert end[1..][1..] == [end[2], end[3]] && [end[2], end[3]][1..] == [end[3]];
      assert LosesIn(cfg, w3, [end[3]], 0);
      assert LosesIn(cfg, w2, [end[2], end[3]], 0);
      assert LosesIn(cfg, w1, end[1..], 0);
  }

  /** The process dies after its charge: whatever happens afterwards, the credit stays debited. */
  lemma DyingKeepsTheCharge(cfg: Config, org: OrgId) returns (paid: seq<Action>)
    requires cfg.rate > 0 && org != NIL_ORG
    ensures AboutToPay(cfg, Exec(cfg, EMPTY, paid), org)
    ensures forall rest | Stopped(rest, 0) ::
              var w := Exec(cfg, Exec(cfg, EMPTY, paid + [Advance(0, Pay(NoFault))]), rest);
              |w.jobs| > 0 && w.jobs[0] == Diagnosing(org, Probing(cfg.Cost()))
  {
    paid := Afford(cfg, org);
    var w := Exec(cfg, EMPTY, paid);
    ExecSnoc(cfg, EMPTY, paid, Advance(0, Pay(NoFault)));
    var charged := Step(cfg, w, Advance(0, Pay(NoFault)));
    assert charged.jobs == [Diagnosing(org, Probing(cfg.Cost()))];
    forall rest | Stopped(rest, 0)
      ensures |Exec(cfg, charged, rest).jobs| > 0 && Exec(cfg, charged, rest).jobs[0] == charged.jobs[0]
    {
      StoppedStays(cfg, charged, rest, 0);
    }
  }

  /** None of the other three exceptions is idle: for each there is a run in which a diagnosis ends without
      an analysis and its organization stays debited. */
  lemma EachLossHappens(cfg: Config, org: OrgId, loss: Loss) returns (run: seq<Action>)
    requires cfg.rate > 0 && org != NIL_ORG
    ensures PaidForNothing(Exec(cfg, EMPTY, run), 0)
    ensures exists paid :: run == paid + LosingEnd(org, loss) && AboutToPay(cfg, Exec(cfg, EMPTY, paid), org)
  {
    var paid := Afford(cfg, org);
    run := paid + LosingEnd(org, loss);
    LosingEndLoses(cfg, Exec(cfg, EMPTY, paid), org, loss);
    ExecConcat(cfg, EMPTY, paid, LosingEnd(org, loss));
    LossByRun(cfg, EMPTY, run, 0);
  }

  // ---- the monthly allowance under concurrency ----

  /** A job that passed the allowance check and may still record a run. */
  predicate MayRecord(p: Phase) {
    p.Probing? || p.Explaining? || p.Recording?
  }

  function InFlight(jobs: seq<Diagnosing>, org: OrgId): nat {
    if jobs == [] then 0
    else (if jobs[0].org == org && MayRecord(jobs[0].phase) then 1 else 0) + InFlight(jobs[1..], org)
  }

  lemma {:induction false} InFlightUpdate(jobs: seq<Diagnosing>, i: nat, p: Phase, org: OrgId)
    requires i < |jobs|
    ensures InFlight(jobs[i := jobs[i].(phase := p)], org)
         == InFlight(jobs, org)
            + (if jobs[i].org == org && MayRecord(p) then 1 else 0)
            - (if jobs[i].org == org && MayRecord(jobs[i].phase) then 1 else 0)
  {
    var jobs' := jobs[i := jobs[i].(phase := p)];
    if i == 0 {
      assert jobs'[1..] == jobs[1..];
    } else {
      assert jobs'[1..] == jobs[1..][i - 1 := jobs[i].(phase := p)];
      InFlightUpdate(jobs[1..], i - 1, p, org);
    }
  }

  lemma {:induction false} InFlightAppend(jobs: seq<Diagnosing>, job: Diagnosing, org: OrgId)
    requires !MayRecord(job.phase)
    ensures InFlight(jobs + [job], org) == InFlight(jobs, org)
  {
    if jobs != [] {
      assert (jobs + [job])[1..] == jobs[1..] + [job];
      InFlightAppend(jobs[1..], job, org);
    }
  }

  /** The organization's plan reads always answer `plan`. */
  predicate OnTier(w: World, a: Action, org: OrgId, plan: Plan) {
    a.Advance? && a.move.ReadPlan? && a.job < |w.jobs| && w.jobs[a.job].org == org && a.move.answer.Some? ==>
      a.move.answer.value == plan
  }

  /** Along the run the organization stays on one tier and has at most `k` diagnoses in flight. */
  ghost predicate Steady(cfg: Config, w: World, run: seq<Action>, org: OrgId, plan: Plan, k: nat)
    decreases |run|
  {
    && InFlight(w.jobs, org) <= k
    && (run != [] ==> OnTier(w, run[0], org, plan) && Steady(cfg, Step(cfg, w, run[0]), run[1..], org, plan, k))
  }

  function RunsThisMonth(w: World, org: OrgId): nat {
    RunsSince(w.db.runs, org, w.month)
  }

  function AllowanceBound(limit: int, k: nat): int {
    if limit <= 0 then 0 else limit + k - 1
  }

  ghost predicate WithinAllowance(jobs: seq<Diagnosing>, runs: seq<DiagnosisRun>, month: nat, org: OrgId, plan: Plan, limit: int, k: nat) {
    && RunsSince(runs, org, month) + InFlight(jobs, org) <= AllowanceBound(limit, k)
    && (forall j | j in jobs && j.org == org && (j.phase.Locating? || j.phase.Paying?) :: j.phase.plan == plan)
    && (forall r | r in runs :: r.month <= month)
  }

  ghost predicate WorldWithinAllowance(cfg: Config, w: World, org: OrgId, plan: Plan, k: nat) {
    WithinAllowance(w.jobs, w.db.runs, w.month, org, plan, cfg.allowance(plan), k)
  }

  lemma {:induction false} NoRunsYet(runs: seq<DiagnosisRun>, org: OrgId, month: nat)
    requires forall r | r in runs :: r.month < month
    ensures RunsSince(runs, org, month) == 0
  {
    if runs != [] {
      assert runs[|runs| - 1] in runs;
      NoRunsYet(runs[..|runs| - 1], org, month);
    }
  }

  lemma RunsSinceAppend(runs: seq<DiagnosisRun>, r: DiagnosisRun, org: OrgId, month: nat)
    ensures RunsSince(runs + [r], org, month)
         == RunsSince(runs, org, month) + (if r.org == org && r.month >= month then 1 else 0)
  {
    assert (runs + [r])[..|runs|] == runs;
  }

  lemma {:induction false} RunsWithoutFewer(runs: seq<DiagnosisRun>, gone: OrgId, org: OrgId, month: nat)
    ensures RunsSince(RunsWithout(runs, gone), org, month) <= RunsSince(runs, org, month)
    ensures forall r | r in RunsWithout(runs, gone) :: r in runs
  {
    if runs != [] {
      var rest, last := runs[..|runs| - 1], runs[|runs| - 1];
      RunsWithoutFewer(rest, gone, org, month);
      if last.org == gone {
        assert RunsWithout(runs, gone) == RunsWithout(rest, gone);
      } else {
        RunsSinceAppend(RunsWithout(rest, gone), last, org, month);
        assert runs == rest + [last];
      }
    }
  }

  /** Moving a job keeps the bound if nobody is admitted, or if it is admitted below the limit. */
  lemma WithinAllowanceMove(jobs: seq<Diagnosing>, runs: seq<DiagnosisRun>, month: nat, i: nat, p: Phase, org: OrgId, plan: Plan, limit: int, k: nat)
    requires k >= 1 && i < |jobs|
    requires WithinAllowance(jobs, runs, month, org, plan, limit, k)
    requires jobs[i].org == org && (p.Locating? || p.Paying?) ==> p.plan == plan
    requires jobs[i].org == org && MayRecord(p) ==>
      || MayRecord(jobs[i].phase)
      || (RunsSince(runs, org, month) < limit && InFlight(jobs[i := jobs[i].(phase := p)], org) <= k)
    ensures WithinAllowance(jobs[i := jobs[i].(phase := p)], runs, month, org, plan, limit, k)
  {
    assert jobs[i] in jobs;
    InFlightUpdate(jobs, i, p, org);
  }

  /** Recording a run trades a place in flight for a row. */
  lemma WithinAllowanceRecord(jobs: seq<Diagnosing>, runs: seq<DiagnosisRun>, month: nat, i: nat, p: Phase, cost: int,
                              org: OrgId, plan: Plan, limit: int, k: nat)
    requires i < |jobs| && MayRecord(jobs[i].phase) && p.Finished?
    requires WithinAllowance(jobs, runs, month, org, plan, limit, k)
    ensures WithinAllowance(jobs[i := jobs[i].(phase := p)], runs + [DiagnosisRun(jobs[i].org, cost, month)], month, org, plan, limit, k)
  {
    assert jobs[i] in jobs;
    InFlightUpdate(jobs, i, p, org);
    RunsSinceAppend(runs, DiagnosisRun(jobs[i].org, cost, month), org, month);
  }

  lemma WithinAllowancePay(cfg: Config, w: World, i: nat, q: Plan, fault: Fault, org: OrgId, plan: Plan, k: nat)
    requires plan != PayAsYouGo && k >= 1 && i < |w.jobs| && (w.jobs[i].org == org ==> q == plan)
    requires WorldWithinAllowance(cfg, w, org, plan, k)
    requires InFlight(StepPay(cfg, w, i, q, fault).jobs, org) <= k
    ensures WorldWithinAllowance(cfg, StepPay(cfg, w, i, q, fault), org, plan, k)
  {
    var p := StepPay(cfg, w, i, q, fault).jobs[i].phase;
    WithinAllowanceMove(w.jobs, w.db.runs, w.month, i, p, org, plan, cfg.allowance(plan), k);
  }

  lemma WithinAllowanceStepJob(cfg: Config, w: World, i: nat, move: Move, org: OrgId, plan: Plan, k: nat)
    requires plan != PayAsYouGo && k >= 1 && i < |w.jobs|
    requires WorldWithinAllowance(cfg, w, org, plan, k)
    requires OnTier(w, Advance(i, move), org, plan)
    requires InFlight(StepJob(cfg, w, i, move).jobs, org) <= k
    ensures WorldWithinAllowance(cfg, StepJob(cfg, w, i, move), org, plan, k)
  {
    assert w.jobs[i] in w.jobs;
    var p := w.jobs[i].phase;
    var w' := StepJob(cfg, w, i, move);
    if move.Pay? && p.Paying? {
      WithinAllowancePay(cfg, w, i, p.plan, move.fault, org, plan, k);
    } else if move.Record? && p.Recording? && move.done && w.jobs[i].org in w.db.orgs {
      WithinAllowanceRecord(w.jobs, w.db.runs, w.month, i, Finished(Analysed(p.charged)), p.charged, org, plan, cfg.allowance(plan), k);
    } else if w' != w {
      WithinAllowanceMove(w.jobs, w.db.runs, w.month, i, w'.jobs[i].phase, org, plan, cfg.allowance(plan), k);
    }
  }

  lemma WithinAllowanceStep(cfg: Config, w: World, a: Action, org: OrgId, plan: Plan, k: nat)
    requires plan != PayAsYouGo && k >= 1
    requires WorldWithinAllowance(cfg, w, org, plan, k)
    requires OnTier(w, a, org, plan)
    requires InFlight(Step(cfg, w, a).jobs, org) <= k
    ensures WorldWithinAllowance(cfg, Step(cfg, w, a), org, plan, k)
  {
    match a
    case NextMonth => NoRunsYet(w.db.runs, org, w.month + 1);
    case Begin(o) => InFlightAppend(w.jobs, Diagnosing(o, ReadingPlan), org);
    case Webhook(_, _) =>
    case OpenOrg(_) =>
    case CloseOrg(_) =>
    case EraseOrg(o) => RunsWithoutFewer(w.db.runs, o, org, w.month);
    case SetMonitors(_, _) =>
    case MeterTick(_) =>
    case Advance(i, move) => if i < |w.jobs| { WithinAllowanceStepJob(cfg, w, i, move, org, plan, k); }
  }

  lemma {:induction false} WithinAllowanceExec(cfg: Config, w: World, run: seq<Action>, org: OrgId, plan: Plan, k: nat)
    requires plan != PayAsYouGo && k >= 1
    requires WorldWithinAllowance(cfg, w, org, plan, k)
    requires Steady(cfg, w, run, org, plan, k)
    ensures WorldWithinAllowance(cfg, Exec(cfg, w, run), org, plan, k)
    decreases |run|
  {
    if run != [] {
      WithinAllowanceStep(cfg, w, run[0], org, plan, k);
      WithinAllowanceExec(cfg, Step(cfg, w, run[0]), run[1..], org, plan, k);
    }
  }

  /** With at most `k` diagnoses of the organization in flight, the runs recorded in any month stay
      within the allowance plus k - 1; one at a time, within the allowance itself. */
  lemma AllowanceOverrunIsBounded(cfg: Config, run: seq<Action>, org: OrgId, plan: Plan, k: nat)
    requires plan != PayAsYouGo && k >= 1
    requires Steady(cfg, EMPTY, run, org, plan, k)
    ensures RunsThisMonth(Exec(cfg, EMPTY, run), org) <= AllowanceBound(cfg.allowance(plan), k)
  {
    WithinAllowanceExec(cfg, EMPTY, run, org, plan, k);
  }

  // ---- the bound is reached ----

  /** The run leads from `w` to `w'` on one tier with never more than `k` in flight. */
  ghost predicate Leads(cfg: Config, w: World, run: seq<Action>, w': World, org: OrgId, plan: Plan, k: nat) {
    Exec(cfg, w, run) == w' && Steady(cfg, w, run, org, plan, k)
  }

  lemma LeadsFrom(cfg: Config, w: World, a: Action, rest: seq<Action>, u: World, org: OrgId, plan: Plan, k: nat)
    requires InFlight(w.jobs, org) <= k && OnTier(w, a, org, plan) && Leads(cfg, Step(cfg, w, a), rest, u, org, plan, k)
    ensures Leads(cfg, w, [a] + rest, u, org, plan, k)
  {
    assert ([a] + rest)[1..] == rest;
  }

  lemma {:induction false} Chain(cfg: Config, w: World, r: seq<Action>, v: World, q: seq<Action>, u: World, org: OrgId, plan: Plan, k: nat)
    requires Leads(cfg, w, r, v, org, plan, k) && Leads(cfg, v, q, u, org, plan, k)
    ensures Leads(cfg, w, r + q, u, org, plan, k)
    decreases |r|
  {
    if r == [] {
      assert r + q == q;
    } else {
      Chain(cfg, Step(cfg, w, r[0]), r[1..], v, q, u, org, plan, k);
      LeadsFrom(cfg, w, r[0], r[1..] + q, u, org, plan, k);
      assert r + q == [r[0]] + (r[1..] + q);
    }
  }

  lemma One(cfg: Config, w: World, a: Action, org: OrgId, plan: Plan, k: nat)
    requires OnTier(w, a, org, plan)
    requires InFlight(w.jobs, org) <= k && InFlight(Step(cfg, w, a).jobs, org) <= k
    ensures Leads(cfg, w, [a], Step(cfg, w, a), org, plan, k)
  {
    assert [a][1..] == [];
    assert Exec(cfg, w, [a]) == Exec(cfg, Step(cfg, w, a), []);
  }

  lemma OneMove(cfg: Config, w: World, a: Action, p: Phase, org: OrgId, plan: Plan, k: nat)
    requires a.Advance? && a.job < |w.jobs| && OnTier(w, a, org, plan)
    requires Step(cfg, w, a).jobs == w.jobs[a.job := w.jobs[a.job].(phase := p)]
    requires w.jobs[a.job].org == org && InFlight(w.jobs, org) <= k
    requires MayRecord(p) && !MayRecord(w.jobs[a.job].phase) ==> InFlight(w.jobs, org) < k
    ensures Leads(cfg, w, [a], Step(cfg, w, a), org, plan, k)
    ensures InFlight(Step(cfg, w, a).jobs, org)
         == InFlight(w.jobs, org) + (if MayRecord(p) then 1 else 0) - (if MayRecord(w.jobs[a.job].phase) then 1 else 0)
  {
    InFlightUpdate(w.jobs, a.job, p, org);
    One(cfg, w, a, org, plan, k);
  }

  lemma Admit(cfg: Config, w: World, org: OrgId, plan: Plan, k: nat) returns (run: seq<Action>, w': World)
    requires plan != Free && plan != PayAsYouGo
    requires RunsThisMonth(w, org) < cfg.allowance(plan) && InFlight(w.jobs, org) < k
    ensures w' == w.(jobs := w.jobs + [Diagnosing(org, Probing(0))])
    ensures Leads(cfg, w, run, w', org, plan, k) && InFlight(w'.jobs, org) == InFlight(w.jobs, org) + 1
  {
    var n := |w.jobs|;
    var w1 := Step(cfg, w, Begin(org));
    InFlightAppend(w.jobs, Diagnosing(org, ReadingPlan), org);
    One(cfg, w, Begin(org), org, plan, k);
    var w2 := Step(cfg, w1, Advance(n, ReadPlan(Some(plan))));
    OneMove(cfg, w1, Advance(n, ReadPlan(Some(plan))), Locating(plan), org, plan, k);
    Chain(cfg, w, [Begin(org)], w1, [Advance(n, ReadPlan(Some(plan)))], w2, org, plan, k);
    var w3 := Step(cfg, w2, Advance(n, Locate(true)));
    OneMove(cfg, w2, Advance(n, Locate(true)), Paying(plan), org, plan, k);
    Chain(cfg, w, [Begin(org)] + [Advance(n, ReadPlan(Some(plan)))], w2, [Advance(n, Locate(true))], w3, org, plan, k);
    w' := Step(cfg, w3, Advance(n, Pay(NoFault)));
    OneMove(cfg, w3, Advance(n, Pay(NoFault)), Probing(0), org, plan, k);
    run := [Begin(org)] + [Advance(n, ReadPlan(Some(plan)))] + [Advance(n, Locate(true))] + [Advance(n, Pay(NoFault))];
    Chain(cfg, w, [Begin(org)] + [Advance(n, ReadPlan(Some(plan)))] + [Advance(n, Locate(true))], w3, [Advance(n, Pay(NoFault))], w', org, plan, k);
    assert w'.jobs == w.jobs + [Diagnosing(org, Probing(0))];
  }

  lemma Deliver(cfg: Config, w: World, i: nat, org: OrgId, plan: Plan, k: nat) returns (run: seq<Action>, w': World)
    requires i < |w.jobs| && w.jobs[i] == Diagnosing(org, Probing(0)) && InFlight(w.jobs, org) <= k
    requires org in w.db.orgs
    ensures w'.jobs == w.jobs[i := Diagnosing(org, Finished(Analysed(0)))]
    ensures w'.db.orgs == w.db.orgs && w'.month == w.month
    ensures RunsThisMonth(w', org) == RunsThisMonth(w, org) + 1
    ensures InFlight(w'.jobs, org) == InFlight(w.jobs, org) - 1
    ensures Leads(cfg, w, run, w', org, plan, k)
  {
    var w1 := Step(cfg, w, Advance(i, Probe(true)));
    OneMove(cfg, w, Advance(i, Probe(true)), Explaining(0), org, plan, k);
    var w2 := Step(cfg, w1, Advance(i, Explain(true)));
    OneMove(cfg, w1, Advance(i, Explain(true)), Recording(0), org, plan, k);
    Chain(cfg, w, [Advance(i, Probe(true))], w1, [Advance(i, Explain(true))], w2, org, plan, k);
    w' := Step(cfg, w2, Advance(i, Record(true)));
    OneMove(cfg, w2, Advance(i, Record(true)), Finished(Analysed(0)), org, plan, k);
    run := [Advance(i, Probe(true))] + [Advance(i, Explain(true))] + [Advance(i, Record(true))];
    Chain(cfg, w, [Advance(i, Probe(true))] + [Advance(i, Explain(true))], w2, [Advance(i, Record(true))], w', org, plan, k);
    RunsSinceAppend(w.db.runs, DiagnosisRun(org, 0, w.month), org, w.month);
  }

  /** `n` diagnoses, each finished before the next begins. */
  lemma {:induction false} OneByOne(cfg: Config, w: World, n: nat, org: OrgId, plan: Plan, k: nat) returns (run: seq<Action>, w': World)
    requires plan != Free && plan != PayAsYouGo && k >= 1 && org in w.db.orgs
    requires InFlight(w.jobs, org) == 0 && RunsThisMonth(w, org) + n <= cfg.allowance(plan)
    ensures Leads(cfg, w, run, w', org, plan, k)
    ensures InFlight(w'.jobs, org) == 0 && RunsThisMonth(w', org) == RunsThisMonth(w, org) + n && org in w'.db.orgs
    decreases n
  {
    if n == 0 {
      run, w' := [], w;
    } else {
      var r1, w1 := OneByOne(cfg, w, n - 1, org, plan, k);
      var r2, w2 := Admit(cfg, w1, org, plan, k);
      Chain(cfg, w, r1, w1, r2, w2, org, plan, k);
      var r3, w3 := Deliver(cfg, w2, |w1.jobs|, org, plan, k);
      Chain(cfg, w, r1 + r2, w2, r3, w3, org, plan, k);
      run, w' := r1 + r2 + r3, w3;
    }
  }

  /** The last `n` jobs are all being probed. */
  ghost predicate Probed(jobs: seq<Diagnosing>, n: nat, org: OrgId) {
    n <= |jobs| && forall i | |jobs| - n <= i < |jobs| :: jobs[i] == Diagnosing(org, Probing(0))
  }

  /** `n` diagnoses admitted before any of them finishes. */
  lemma {:induction false} AdmitAll(cfg: Config, w: World, n: nat, org: OrgId, plan: Plan, k: nat) returns (run: seq<Action>, w': World)
    requires plan != Free && plan != PayAsYouGo && n <= k && org in w.db.orgs
    requires InFlight(w.jobs, org) == 0 && RunsThisMonth(w, org) < cfg.allowance(plan)
    ensures Leads(cfg, w, run, w', org, plan, k)
    ensures InFlight(w'.jobs, org) == n && RunsThisMonth(w', org) == RunsThisMonth(w, org) && org in w'.db.orgs
    ensures Probed(w'.jobs, n, org)
    decreases n
  {
    if n == 0 {
      run, w' := [], w;
    } else {
      var r1, w1 := AdmitAll(cfg, w, n - 1, org, plan, k);
      var r2, w2 := Admit(cfg, w1, org, plan, k);
      Chain(cfg, w, r1, w1, r2, w2, org, plan, k);
      run, w' := r1 + r2, w2;
    }
  }

  lemma {:induction false} DeliverAll(cfg: Config, w: World, n: nat, org: OrgId, plan: Plan, k: nat) returns (run: seq<Action>, w': World)
    requires InFlight(w.jobs, org) <= k && org in w.db.orgs && Probed(w.jobs, n, org)
    ensures Leads(cfg, w, run, w', org, plan, k)
    ensures RunsThisMonth(w', org) == RunsThisMonth(w, org) + n
    decreases n
  {
    if n == 0 {
      run, w' := [], w;
    } else {
      var r1, w1 := Deliver(cfg, w, |w.jobs| - n, org, plan, k);
      var r2, w2 := DeliverAll(cfg, w1, n - 1, org, plan, k);
      Chain(cfg, w, r1, w1, r2, w2, org, plan, k);
      run, w' := r1 + r2, w2;
    }
  }

  /** The overrun is real: for every allowance and every degree of concurrency some run records
      exactly the bound. */
  lemma AllowanceOverrunIsReached(cfg: Config, org: OrgId, plan: Plan, k: nat)
    requires plan != Free && plan != PayAsYouGo && k >= 1 && cfg.allowance(plan) >= 1
    ensures exists run ::
              && Steady(cfg, EMPTY, run, org, plan, k)
              && RunsThisMonth(Exec(cfg, EMPTY, run), org) == AllowanceBound(cfg.allowance(plan), k)
  {
    var w0 := Step(cfg, EMPTY, OpenOrg(org));
    One(cfg, EMPTY, OpenOrg(org), org, plan, k);
    var r1, w1 := OneByOne(cfg, w0, cfg.allowance(plan) - 1, org, plan, k);
    Chain(cfg, EMPTY, [OpenOrg(org)], w0, r1, w1, org, plan, k);
    var r2, w2 := AdmitAll(cfg, w1, k, org, plan, k);
    Chain(cfg, EMPTY, [OpenOrg(org)] + r1, w1, r2, w2, org, plan, k);
    var r3, w3 := DeliverAll(cfg, w2, k, org, plan, k);
    Chain(cfg, EMPTY, [OpenOrg(org)] + r1 + r2, w2, r3, w3, org, plan, k);
  }

  // ---- one diagnosis by itself ----

  /** How each call a diagnosis makes turns out. */
  datatype Luck = Luck(plan: Option<Plan>, found: bool, pay: Fault, probed: bool, explained: bool, recorded: bool, refunded: bool)

  /** The moves of job `i`, in the order the service makes them; a move whose turn never comes is skipped. */
  function Script(i: nat, luck: Luck): seq<Action> {
    [Advance(i, ReadPlan(luck.plan)), Advance(i, Locate(luck.found)), Advance(i, Pay(luck.pay)), Advance(i, Probe(luck.probed)),
     Advance(i, Explain(luck.explained)), Advance(i, Record(luck.recorded)), Advance(i, Refund(luck.refunded))]
  }

  lemma {:induction false} ExecSnoc(cfg: Config, w: World, run: seq<Action>, a: Action)
    ensures Exec(cfg, w, run + [a]) == Step(cfg, Exec(cfg, w, run), a)
    decreases |run|
  {
    if run == [] {
      assert run + [a] == [a];
      assert Exec(cfg, w, [a]) == Exec(cfg, Step(cfg, w, a), []);
    } else {
      assert (run + [a])[1..] == run[1..] + [a];
      ExecSnoc(cfg, Step(cfg, w, run[0]), run[1..], a);
    }
  }

  /** Whether the organization may have the diagnosis: a paid plan, a monitor of its own, and credit for
      it or some of its allowance left. */
  predicate Admitted(cfg: Config, db: Db, org: OrgId, month: nat, luck: Luck) {
    && luck.plan.Some? && luck.plan.value != Free && luck.found && luck.pay == NoFault
    && if luck.plan.value == PayAsYouGo then org in db.orgs && db.orgs[org].live && db.orgs[org].credit >= cfg.Cost()
       else RunsSince(db.runs, org, month) < cfg.allowance(luck.plan.value)
  }

  /** What it pays. */
  function Price(cfg: Config, luck: Luck): int {
    if luck.plan == Some(PayAsYouGo) then cfg.Cost() else 0
  }

  /** The charge was committed although the service was told otherwise. */
  predicate ChargedUnawares(cfg: Config, db: Db, org: OrgId, luck: Luck) {
    && luck.plan == Some(PayAsYouGo) && luck.found && luck.pay == ConfirmationLost
    && org in db.orgs && db.orgs[org].live && db.orgs[org].credit >= cfg.Cost()
  }

  /** The ledger with so much less credit for the organization. */
  function Paid(db: Db, org: OrgId, price: int): Db {
    if price > 0 && org in db.orgs then db.(orgs := db.orgs[org := db.orgs[org].(credit := db.orgs[org].credit - price)]) else db
  }

  /** What a diagnosis by itself comes to: an analysis exactly if it is admitted, the probe succeeds and
      the model answers, and it is then paid for and recorded; without one nothing is recorded, and all
      is as before unless the refund fails or the charge went unnoticed. */
  predicate Fair(cfg: Config, db: Db, org: OrgId, month: nat, luck: Luck, db': Db, outcome: Outcome) {
    var admitted, price := Admitted(cfg, db, org, month, luck), Price(cfg, luck);
    var answered := admitted && luck.probed && luck.explained;
    && (outcome.Analysed? <==> answered)
    && (outcome.NotAnalysed? <==> admitted && !answered)
    && (answered ==>
          && outcome.kept == price
          && db' == Paid(db, org, price).(runs := if luck.recorded && org in db.orgs
                                                   then db.runs + [DiagnosisRun(org, price, month)] else db.runs))
    && (admitted && !answered && (luck.refunded || price == 0) ==> db' == db && outcome.kept == 0)
    && (admitted && !answered && !luck.refunded ==> db' == Paid(db, org, price) && outcome.kept == price)
    && (!admitted ==> db' == if ChargedUnawares(cfg, db, org, luck) then Paid(db, org, price) else db)
    && (!admitted ==> outcome == if ChargedUnawares(cfg, db, org, luck) then ChargeUnconfirmed(price) else Refused)
  }

  function Alone(db: Db, org: OrgId, phase: Phase, month: nat): World {
    World(db, [Diagnosing(org, phase)], map[], month, {})
  }

  /** Up to the payment, with nothing in between. */
  lemma UpToPayment(cfg: Config, db: Db, org: OrgId, month: nat, luck: Luck)
    ensures var w3 := Step(cfg, Step(cfg, Step(cfg, Alone(db, org, ReadingPlan, month), Advance(0, ReadPlan(luck.plan))),
                                     Advance(0, Locate(luck.found))), Advance(0, Pay(luck.pay)));
            w3 == if Admitted(cfg, db, org, month, luck) then Alone(Paid(db, org, Price(cfg, luck)), org, Probing(Price(cfg, luck)), month)
                  else if ChargedUnawares(cfg, db, org, luck)
                  then Alone(Paid(db, org, Price(cfg, luck)), org, Finished(ChargeUnconfirmed(Price(cfg, luck))), month)
                  else Alone(db, org, Finished(Refused), month)
  {
    var w0 := Alone(db, org, ReadingPlan, month);
    var w1 := Step(cfg, w0, Advance(0, ReadPlan(luck.plan)));
    if luck.plan.Some? && luck.plan.value != Free {
      assert w1 == Alone(db, org, Locating(luck.plan.value), month);
      assert luck.found ==> Step(cfg, w1, Advance(0, Locate(luck.found))) == Alone(db, org, Paying(luck.plan.value), month);
    }
  }

  /** From there on. */
  lemma FromPayment(cfg: Config, db: Db, org: OrgId, month: nat, luck: Luck, charged: int)
    ensures var w7 := Step(cfg, Step(cfg, Step(cfg, Step(cfg, Alone(db, org, Probing(charged), month), Advance(0, Probe(luck.probed))),
                                               Advance(0, Explain(luck.explained))), Advance(0, Record(luck.recorded))),
                           Advance(0, Refund(luck.refunded)));
            w7 == if luck.probed && luck.explained
                  then Alone(db.(runs := if luck.recorded && org in db.orgs then db.runs + [DiagnosisRun(org, charged, month)] else db.runs),
                             org, Finished(Analysed(charged)), month)
                  else Alone(if charged > 0 && luck.refunded then AddCredit(db, org, charged) else db, org,
                             Finished(NotAnalysed(NotReturned(db, org, charged, luck.refunded))), month)
  {
    var w4 := Step(cfg, Alone(db, org, Probing(charged), month), Advance(0, Probe(luck.probed)));
    assert w4 == Alone(db, org, if luck.probed then Explaining(charged) else Refunding(charged), month);
    var w5 := Step(cfg, w4, Advance(0, Explain(luck.explained)));
    assert w5 == Alone(db, org, if luck.probed && luck.explained then Recording(charged) else Refunding(charged), month);
  }

  /** What is finished stays so. */
  lemma FinishedStays(cfg: Config, db: Db, org: OrgId, month: nat, luck: Luck, o: Outcome)
    ensures var w := Alone(db, org, Finished(o), month);
            Step(cfg, Step(cfg, Step(cfg, Step(cfg, w, Advance(0, Probe(luck.probed))), Advance(0, Explain(luck.explained))),
                           Advance(0, Record(luck.recorded))), Advance(0, Refund(luck.refunded))) == w
  {
  }

  lemma ScriptIsFair(cfg: Config, db: Db, org: OrgId, month: nat, luck: Luck)
    ensures var w := Exec(cfg, Alone(db, org, ReadingPlan, month), Script(0, luck));
            && |w.jobs| == 1 && w.jobs[0].org == org && w.jobs[0].phase.Finished?
            && Fair(cfg, db, org, month, luck, w.db, w.jobs[0].phase.outcome)
  {
    var s, w0 := Script(0, luck), Alone(db, org, ReadingPlan, month);
    var w3 := Step(cfg, Step(cfg, Step(cfg, w0, s[0]), s[1]), s[2]);
    ScriptInSteps(cfg, w0, luck);
    UpToPayment(cfg, db, org, month, luck);
    if Admitted(cfg, db, org, month, luck) {
      FromPayment(cfg, w3.db, org, month, luck, Price(cfg, luck));
    } else {
      FinishedStays(cfg, w3.db, org, month, luck, w3.jobs[0].phase.outcome);
    }
  }

  lemma ScriptInSteps(cfg: Config, w0: World, luck: Luck)
    ensures var s := Script(0, luck);
            Exec(cfg, w0, s) == Step(cfg, Step(cfg, Step(cfg, Step(cfg, Step(cfg, Step(cfg, Step(cfg, w0,
              s[0]), s[1]), s[2]), s[3]), s[4]), s[5]), s[6])
  {
    var s := Script(0, luck);
    ExecSnoc(cfg, w0, [], s[0]);
    ExecSnoc(cfg, w0, s[..1], s[1]);
    ExecSnoc(cfg, w0, s[..2], s[2]);
    ExecSnoc(cfg, w0, s[..3], s[3]);
    ExecSnoc(cfg, w0, s[..4], s[4]);
    ExecSnoc(cfg, w0, s[..5], s[5]);
    ExecSnoc(cfg, w0, s[..6], s[6]);
    assert [] + [s[0]] == s[..1] && s[..1] + [s[1]] == s[..2] && s[..2] + [s[2]] == s[..3] && s[..3] + [s[3]] == s[..4];
    assert s[..4] + [s[4]] == s[..5] && s[..5] + [s[5]] == s[..6] && s[..6] + [s[6]] == s;
  }

  /** The service: it charges before it probes, and gives the money back on every path that ends
      without an analysis. */
  class Service {
    const repo: Repository
    const cfg: Config

    constructor (repo: Repository, cfg: Config)
      ensures this.repo == repo && this.cfg == cfg
    {
      this.repo, this.cfg := repo, cfg;
    }

    method Run(org: OrgId, month: nat, luck: Luck) returns (outcome: Outcome)
      modifies repo
      ensures Exec(cfg, Alone(old(repo.State()), org, ReadingPlan, month), Script(0, luck))
              == Alone(repo.State(), org, Finished(outcome), month)
      ensures Fair(cfg, old(repo.State()), org, month, luck, repo.State(), outcome)
    {
      ghost var db0 := repo.State();
      ScriptInSteps(cfg, Alone(db0, org, ReadingPlan, month), luck);
      UpToPayment(cfg, db0, org, month, luck);
      ScriptIsFair(cfg, db0, org, month, luck);
      if luck.plan.None? || luck.plan.value == Free || !luck.found {
        FinishedStays(cfg, db0, org, month, luck, Refused);
        return Refused;
      }
      var admitted, charged := MeterIn(org, luck.plan.value, month, luck.pay);
      if !admitted {
        outcome := if charged > 0 then ChargeUnconfirmed(charged) else Refused;
        FinishedStays(cfg, repo.State(), org, month, luck, outcome);
        return;
      }
      FromPayment(cfg, repo.State(), org, month, luck, charged);
      if !luck.probed {
        outcome := GiveBack(org, charged, luck.refunded);
      } else if !luck.explained {
        outcome := GiveBack(org, charged, luck.refunded);
      } else {
        if luck.recorded && org in repo.orgs {
          repo.RecordRun(org, charged, month);
        }
        outcome := Analysed(charged);
      }
    }

    method MeterIn(org: OrgId, plan: Plan, month: nat, fault: Fault) returns (admitted: bool, charged: int)
      modifies repo
      ensures StepPay(cfg, Alone(old(repo.State()), org, Paying(plan), month), 0, plan, fault)
              == Alone(repo.State(), org, if admitted then Probing(charged)
                                          else Finished(if charged > 0 then ChargeUnconfirmed(charged) else Refused), month)
    {
      if plan == PayAsYouGo {
        if fault == RolledBack {
          return false, 0;
        }
        var ok := repo.ChargeCredit(org, cfg.Cost());
        if !ok {
          return false, 0;
        }
        return fault == NoFault, cfg.Cost();
      }
      if fault != NoFault {
        return false, 0;
      }
      var used := repo.CountRunsSince(org, month);
      return used < cfg.allowance(plan), 0;
    }

    /** Whether the refund finds the organization is not looked at; the outcome says what became of
        the credit. */
    method GiveBack(org: OrgId, charged: int, takesEffect: bool) returns (outcome: Outcome)
      modifies repo
      ensures repo.State() == if charged > 0 && takesEffect then AddCredit(old(repo.State()), org, charged) else old(repo.State())
      ensures outcome == NotAnalysed(NotReturned(old(repo.State()), org, charged, takesEffect))
    {
      outcome := NotAnalysed(NotReturned(repo.State(), org, charged, takesEffect));
      if charged > 0 && takesEffect {
        repo.RefundCredit(org, charged);
      }
    }
  }
}
