/**
 The credit ledger: one row per processed payment event, a balance per organization, and the
 statements that move credit. Every SQL statement or transaction is one atomic function on `Db`;
 the `Repository` and `Service` classes below are the imperative form of the same operations.
 */
module Billing {
  type OrgId = nat
  type EventId = nat

  /** The all-zero id: an event that names no organization. */
  const NIL_ORG: OrgId := 0

  /** How a transaction ends: it reports success, it rolls back and reports an error, or it
      commits and the confirmation is lost, so an error is reported although it took effect. */
  datatype Fault = NoFault | RolledBack | ConfirmationLost

  datatype Reply = Applied | NotApplied | Failed

  datatype Org = Org(live: bool, credit: int, enabledMonitors: nat)

  datatype Kind = TopUp | Subscription | Ignored

  datatype WebhookEvent = WebhookEvent(id: EventId, kind: Kind, org: OrgId, amountCents: int)

  datatype Row = Row(org: OrgId, kind: Kind, amountCents: int, creditAdded: int)

  datatype DiagnosisRun = DiagnosisRun(org: OrgId, cost: int, month: nat)

  datatype Db = Db(orgs: map<OrgId, Org>, events: map<EventId, Row>, runs: seq<DiagnosisRun>)

  // ---- the price of credit ----

  /** Integer division that drops the fraction, as the service's language does. */
  function TruncatedQuotient(a: int, b: int): int
    requires b > 0
  {
    if a >= 0 then a / b else -((-a) / b)
  }

  function CreditSeconds(amountCents: int, hoursPerDollar: int): int {
    TruncatedQuotient(amountCents * hoursPerDollar * 3600, 100)
  }

  lemma HundredCancels(x: int)
    ensures TruncatedQuotient(x * 3600, 100) == x * 36
  {
    if x >= 0 {
      assert x * 3600 == (x * 36) * 100;
    } else {
      assert -(x * 3600) == (-x * 36) * 100;
    }
  }

  /** No remainder is ever dropped, so paying in pieces buys the same credit as paying at once. */
  lemma SplittingAPaymentLosesNothing(a: int, b: int, hoursPerDollar: int)
    ensures CreditSeconds(a + b, hoursPerDollar) == CreditSeconds(a, hoursPerDollar) + CreditSeconds(b, hoursPerDollar)
    ensures 100 * CreditSeconds(a, hoursPerDollar) == a * hoursPerDollar * 3600
  {
    HundredCancels(a * hoursPerDollar);
    HundredCancels(b * hoursPerDollar);
    HundredCancels((a + b) * hoursPerDollar);
    assert (a + b) * hoursPerDollar == a * hoursPerDollar + b * hoursPerDollar;
  }

  // ---- atomic statements ----

  /** Insert the event unless its id is known, then add the credit; all or nothing. The insert
      needs an existing organization row, the update only touches a live one, and the balance
      may not become negative. */
  function TopUpApplied(db: Db, org: OrgId, add: int, cents: int, id: EventId, fault: Fault): (Db, Reply) {
    if fault == RolledBack then (db, Failed)
    else if id in db.events then (db, if fault == NoFault then NotApplied else Failed)
    else if org !in db.orgs then (db, Failed)
    else if db.orgs[org].live && db.orgs[org].credit + add < 0 then (db, Failed)
    else
      var o := db.orgs[org];
      var o' := if o.live then o.(credit := o.credit + add) else o;
      (db.(events := db.events[id := Row(org, TopUp, cents, add)], orgs := db.orgs[org := o']),
       if fault == NoFault then Applied else Failed)
  }

  /** A subscription event shares the id table and moves no credit. */
  function SubscriptionApplied(db: Db, org: OrgId, id: EventId, fault: Fault): (Db, Reply) {
    if fault == RolledBack then (db, Failed)
    else if id in db.events then (db, if fault == NoFault then NotApplied else Failed)
    else if org !in db.orgs then (db, Failed)
    else (db.(events := db.events[id := Row(org, Subscription, 0, 0)]), if fault == NoFault then Applied else Failed)
  }

  function WebhookApplied(db: Db, rate: int, ev: WebhookEvent, fault: Fault): (Db, Reply) {
    match ev.kind
    case TopUp =>
      if ev.org == NIL_ORG then (db, NotApplied)
      else TopUpApplied(db, ev.org, CreditSeconds(ev.amountCents, rate), ev.amountCents, ev.id, fault)
    case Subscription =>
      if ev.org == NIL_ORG then (db, NotApplied)
      else SubscriptionApplied(db, ev.org, ev.id, fault)
    case Ignored => (db, NotApplied)
  }

  /** What one meter tick takes from one organization. */
  function Burn(o: Org, elapsed: int): int {
    if elapsed > 0 && o.live && o.credit > 0 && o.enabledMonitors > 0
    then (if o.credit - elapsed * o.enabledMonitors > 0 then elapsed * o.enabledMonitors else o.credit)
    else 0
  }

  function CreditDeducted(db: Db, elapsed: int): Db {
    db.(orgs := map o | o in db.orgs :: db.orgs[o].(credit := db.orgs[o].credit - Burn(db.orgs[o], elapsed)))
  }

  predicate CanCharge(db: Db, org: OrgId, cost: int) {
    org in db.orgs && db.orgs[org].live && db.orgs[org].credit >= cost
  }

  function AddCredit(db: Db, org: OrgId, amount: int): Db {
    if org in db.orgs && db.orgs[org].live
    then db.(orgs := db.orgs[org := db.orgs[org].(credit := db.orgs[org].credit + amount)])
    else db
  }

  function RunsSince(runs: seq<DiagnosisRun>, org: OrgId, month: nat): nat {
    if runs == [] then 0
    else RunsSince(runs[..|runs| - 1], org, month)
         + (if runs[|runs| - 1].org == org && runs[|runs| - 1].month >= month then 1 else 0)
  }

  /** What a balance is after so much time at so many monitors; never less than nothing. */
  function Drained(credit: int, elapsed: int, monitors: nat): int {
    if elapsed <= 0 || credit <= 0 then credit
    else if credit >= elapsed * monitors then credit - elapsed * monitors
    else 0
  }

  /** A tick changes balances of live organizations and nothing else. */
  ghost predicate Ticked(db: Db, db': Db, elapsed: int) {
    && db'.orgs.Keys == db.orgs.Keys && db'.events == db.events && db'.runs == db.runs
    && forall o | o in db.orgs ::
         db'.orgs[o] == if db.orgs[o].live then db.orgs[o].(credit := Drained(db.orgs[o].credit, elapsed, db.orgs[o].enabledMonitors))
                        else db.orgs[o]
  }

  lemma OneTick(db: Db, db': Db, elapsed: int)
    requires Ticked(db, db', elapsed)
    ensures db' == CreditDeducted(db, elapsed)
  {
    TickMeaning(db, elapsed);
    assert db'.orgs == CreditDeducted(db, elapsed).orgs;
  }

  lemma NoTimeNoDrain(elapsed: int, monitors: nat)
    ensures monitors == 0 ==> elapsed * monitors == 0
    ensures elapsed > 0 && monitors > 0 ==> elapsed * monitors > 0
  {
    if elapsed > 0 && monitors > 0 {
      assert elapsed * monitors >= elapsed * 1;
    }
  }

  lemma TickMeaning(db: Db, elapsed: int)
    ensures Ticked(db, CreditDeducted(db, elapsed), elapsed)
  {
    forall o | o in db.orgs
      ensures db.orgs[o].live ==>
                db.orgs[o].credit - Burn(db.orgs[o], elapsed) == Drained(db.orgs[o].credit, elapsed, db.orgs[o].enabledMonitors)
    {
      NoTimeNoDrain(elapsed, db.orgs[o].enabledMonitors);
    }
  }

  function Total(ticks: seq<nat>): nat {
    if ticks == [] then 0 else Total(ticks[..|ticks| - 1]) + ticks[|ticks| - 1]
  }

  function AfterTicks(db: Db, ticks: seq<nat>): Db {
    if ticks == [] then db else CreditDeducted(AfterTicks(db, ticks[..|ticks| - 1]), ticks[|ticks| - 1])
  }

  lemma DrainsAdd(credit: int, a: nat, b: nat, monitors: nat)
    ensures Drained(Drained(credit, a, monitors), b, monitors) == Drained(credit, a + b, monitors)
  {
    assert (a + b) * monitors == a * monitors + b * monitors;
    assert a * monitors >= 0 && b * monitors >= 0;
  }

  lemma TicksAdd(db: Db, a: nat, b: nat)
    ensures CreditDeducted(CreditDeducted(db, a), b) == CreditDeducted(db, a + b)
  {
    TickMeaning(db, a);
    TickMeaning(CreditDeducted(db, a), b);
    TickMeaning(db, a + b);
    forall o | o in db.orgs ensures CreditDeducted(CreditDeducted(db, a), b).orgs[o] == CreditDeducted(db, a + b).orgs[o] {
      DrainsAdd(db.orgs[o].credit, a, b, db.orgs[o].enabledMonitors);
    }
  }

  /** However time is cut into ticks, with nothing in between they take what one tick of all the time
      would: an organization that can pay for it pays for that time at its number of monitors. */
  lemma {:induction false} TicksAreOneTick(db: Db, ticks: seq<nat>)
    ensures AfterTicks(db, ticks) == CreditDeducted(db, Total(ticks)) && Ticked(db, AfterTicks(db, ticks), Total(ticks))
  {
    TickMeaning(db, Total(ticks));
    if ticks == [] {
      assert CreditDeducted(db, 0).orgs == db.orgs;
    } else {
      TicksAreOneTick(db, ticks[..|ticks| - 1]);
      TicksAdd(db, Total(ticks[..|ticks| - 1]), ticks[|ticks| - 1]);
    }
  }

  function RunsOf(runs: seq<DiagnosisRun>, org: OrgId, month: nat): set<nat> {
    set k | 0 <= k < |runs| && runs[k].org == org && runs[k].month >= month
  }

  lemma RunsOfMore(runs: seq<DiagnosisRun>, r: DiagnosisRun, org: OrgId, month: nat)
    ensures RunsOf(runs + [r], org, month) == RunsOf(runs, org, month) + if r.org == org && r.month >= month then {|runs|} else {}
  {
  }

  /** The runs counted are those of the organization from the month on. */
  lemma {:induction false} RunsSinceCounts(runs: seq<DiagnosisRun>, org: OrgId, month: nat)
    ensures RunsSince(runs, org, month) == |RunsOf(runs, org, month)|
  {
    if runs == [] {
      assert RunsOf(runs, org, month) == {};
    } else {
      var earlier, r := runs[..|runs| - 1], runs[|runs| - 1];
      RunsSinceCounts(earlier, org, month);
      RunsOfMore(earlier, r, org, month);
      assert runs == earlier + [r];
    }
  }

  // ---- what the ledger adds up to ----

  function Contribution(row: Row, org: OrgId): int {
    if row.kind == TopUp && row.org == org then row.creditAdded else 0
  }

  /** All the credit an organization was ever given. */
  ghost function Granted(events: map<EventId, Row>, org: OrgId): int {
    if events == map[] then 0
    else
      var id :| id in events;
      Contribution(events[id], org) + Granted(events - {id}, org)
  }

  /** The sum may be taken in any order. */
  lemma {:induction false} GrantedRemove(events: map<EventId, Row>, id: EventId, org: OrgId)
    requires id in events
    ensures Granted(events, org) == Contribution(events[id], org) + Granted(events - {id}, org)
    decreases |events|
  {
    var first :| first in events && Granted(events, org) == Contribution(events[first], org) + Granted(events - {first}, org);
    if first != id {
      GrantedRemove(events - {first}, id, org);
      GrantedRemove(events - {id}, first, org);
      assert events - {first} - {id} == events - {id} - {first};
    }
  }

  lemma GrantedInsert(events: map<EventId, Row>, id: EventId, row: Row, org: OrgId)
    requires id !in events
    ensures Granted(events[id := row], org) == Granted(events, org) + Contribution(row, org)
  {
    GrantedRemove(events[id := row], id, org);
    assert events[id := row] - {id} == events;
  }

  lemma {:induction false} GrantedNothing(events: map<EventId, Row>, org: OrgId)
    requires forall id | id in events :: events[id].org != org
    ensures Granted(events, org) == 0
    decreases |events|
  {
    if events != map[] {
      var id :| id in events;
      GrantedRemove(events, id, org);
      GrantedNothing(events - {id}, org);
    }
  }

  // ---- exactly-once settlement ----

  /** One attempt to settle an event, by a webhook delivery or by a reconcile pass. Any
      interleaving of deliveries and passes is a sequence of attempts, each tagged with its source. */
  datatype Attempt = Attempt(source: nat, ev: WebhookEvent, fault: Fault)

  function Settle(db: Db, rate: int, attempts: seq<Attempt>): Db {
    if attempts == [] then db
    else
      var before := Settle(db, rate, attempts[..|attempts| - 1]);
      var a := attempts[|attempts| - 1];
      WebhookApplied(before, rate, a.ev, a.fault).0
  }

  /** What the last attempt was told. */
  function LastReply(db: Db, rate: int, attempts: seq<Attempt>): Reply
    requires attempts != []
  {
    var a := attempts[|attempts| - 1];
    WebhookApplied(Settle(db, rate, attempts[..|attempts| - 1]), rate, a.ev, a.fault).1
  }

  /** How many attempts of one source were told they applied the event. */
  function AppliedBy(db: Db, rate: int, attempts: seq<Attempt>, source: nat): nat {
    if attempts == [] then 0
    else AppliedBy(db, rate, attempts[..|attempts| - 1], source)
         + (if attempts[|attempts| - 1].source == source && LastReply(db, rate, attempts) == Applied then 1 else 0)
  }

  function AppliedByAll(db: Db, rate: int, attempts: seq<Attempt>, sources: nat): nat {
    if sources == 0 then 0
    else AppliedByAll(db, rate, attempts, sources - 1) + AppliedBy(db, rate, attempts, sources - 1)
  }

  /** How many attempts committed without their caller learning it. */
  function Unconfirmed(db: Db, rate: int, attempts: seq<Attempt>): nat {
    if attempts == [] then 0
    else
      var earlier := attempts[..|attempts| - 1];
      Unconfirmed(db, rate, earlier)
      + (if LastReply(db, rate, attempts) == Failed && Settle(db, rate, attempts) != Settle(db, rate, earlier) then 1 else 0)
  }

  lemma {:induction false} AppliedByAllStep(db: Db, rate: int, attempts: seq<Attempt>, sources: nat)
    requires attempts != []
    ensures AppliedByAll(db, rate, attempts, sources)
         == AppliedByAll(db, rate, attempts[..|attempts| - 1], sources)
            + (if attempts[|attempts| - 1].source < sources && LastReply(db, rate, attempts) == Applied then 1 else 0)
  {
    if sources > 0 {
      AppliedByAllStep(db, rate, attempts, sources - 1);
    }
  }

  lemma {:induction false} AppliedByNobody(db: Db, rate: int, sources: nat)
    ensures AppliedByAll(db, rate, [], sources) == 0
  {
    if sources > 0 {
      AppliedByNobody(db, rate, sources - 1);
    }
  }

  lemma OneAttemptOneRow(db: Db, rate: int, ev: WebhookEvent, fault: Fault)
    ensures var (after, reply) := WebhookApplied(db, rate, ev, fault);
            |after.events| == |db.events| + (if reply == Applied || (reply == Failed && after != db) then 1 else 0)
  {
    var after := WebhookApplied(db, rate, ev, fault).0;
    if after.events != db.events {
      assert after.events.Keys == db.events.Keys + {ev.id};
    } else if ev.id in after.events {
      assert ev.id in db.events;
    }
  }

  /** An event that is to be settled. */
  predicate Settles(ev: WebhookEvent) {
    ev.kind != Ignored && ev.org != NIL_ORG
  }

  /** "Applied" is said exactly of an event that was new, by a call that went well; "not applied" only of
      one that was known or is none of the ledger's business; a call that broke off says neither, and
      leaves nothing behind unless only its confirmation was lost. */
  lemma RepliesTellTheTruth(db: Db, rate: int, ev: WebhookEvent, fault: Fault)
    ensures var (db', reply) := WebhookApplied(db, rate, ev, fault);
            && (reply == Applied <==> fault == NoFault && db' != db)
            && (Settles(ev) ==> (reply == NotApplied <==> fault == NoFault && ev.id in db.events))
            && (!Settles(ev) ==> reply == NotApplied)
            && (db' != db ==> Settles(ev) && fault != RolledBack && ev.id !in db.events && ev.org in db.orgs
                              && ev.id in db'.events && db'.events - {ev.id} == db.events
                              && db'.events[ev.id].org == ev.org && db'.events[ev.id].kind == ev.kind)
            && (db' == db && Settles(ev) && fault != RolledBack ==>
                  || ev.id in db.events || ev.org !in db.orgs
                  || (ev.kind == TopUp && db.orgs[ev.org].live && db.orgs[ev.org].credit + CreditSeconds(ev.amountCents, rate) < 0))
  {
    assert WebhookApplied(db, rate, ev, fault).0 != db ==> WebhookApplied(db, rate, ev, fault).0.events - {ev.id} == db.events;
  }

  /** Whatever the order, repetition and interleaving, each new ledger row was reported as
      applied to exactly one source, unless its confirmation was lost. */
  lemma {:induction false} EachRowIsReportedOnce(db: Db, rate: int, attempts: seq<Attempt>, sources: nat)
    requires forall a | a in attempts :: a.source < sources
    ensures |Settle(db, rate, attempts).events|
         == |db.events| + AppliedByAll(db, rate, attempts, sources) + Unconfirmed(db, rate, attempts)
  {
    if attempts == [] {
      AppliedByNobody(db, rate, sources);
    } else {
      EachRowIsReportedOnce(db, rate, attempts[..|attempts| - 1], sources);
      AppliedByAllStep(db, rate, attempts, sources);
      var a := attempts[|attempts| - 1];
      assert a in attempts;
      OneAttemptOneRow(Settle(db, rate, attempts[..|attempts| - 1]), rate, a.ev, a.fault);
    }
  }

  function RowOf(ev: WebhookEvent, rate: int): Row {
    if ev.kind == TopUp then Row(ev.org, TopUp, ev.amountCents, CreditSeconds(ev.amountCents, rate))
    else Row(ev.org, Subscription, 0, 0)
  }

  /** An event id names one payment: whoever reports it reports the same content. */
  ghost predicate Consistent(attempts: seq<Attempt>, payload: EventId -> WebhookEvent) {
    forall a | a in attempts :: a.ev == payload(a.ev.id)
  }

  /** An attempt that nothing stands in the way of. */
  predicate Lands(orgs: map<OrgId, Org>, a: Attempt) {
    a.fault == NoFault && a.ev.kind == TopUp && a.ev.org != NIL_ORG && a.ev.org in orgs && a.ev.amountCents >= 0
  }

  /** Credit invariant of the settlement machine alone. */
  ghost predicate Balanced(db0: Db, db: Db) {
    && db.orgs.Keys == db0.orgs.Keys && db.runs == db0.runs
    && (forall o | o in db0.orgs ::
          && db.orgs[o].credit >= 0
          && db.orgs[o] == db0.orgs[o].(credit := db0.orgs[o].credit
               + (if db0.orgs[o].live then Granted(db.events, o) - Granted(db0.events, o) else 0)))
  }

  /** A new row and the credit it gives. */
  lemma NewRowKeepsBalance(db0: Db, db: Db, id: EventId, row: Row)
    requires Balanced(db0, db) && id !in db.events && row.org in db.orgs
    requires db.orgs[row.org].live && row.kind == TopUp ==> db.orgs[row.org].credit + row.creditAdded >= 0
    ensures var o := db.orgs[row.org];
            Balanced(db0, db.(events := db.events[id := row],
                              orgs := db.orgs[row.org := if o.live && row.kind == TopUp then o.(credit := o.credit + row.creditAdded) else o]))
  {
    forall o | o in db0.orgs ensures Granted(db.events[id := row], o) == Granted(db.events, o) + Contribution(row, o) {
      GrantedInsert(db.events, id, row, o);
    }
  }

  lemma TopUpKeepsBalance(db0: Db, db: Db, org: OrgId, add: int, cents: int, id: EventId, fault: Fault)
    requires Balanced(db0, db)
    ensures Balanced(db0, TopUpApplied(db, org, add, cents, id, fault).0)
  {
    if TopUpApplied(db, org, add, cents, id, fault).0 != db {
      NewRowKeepsBalance(db0, db, id, Row(org, TopUp, cents, add));
    }
  }

  lemma SubscriptionKeepsBalance(db0: Db, db: Db, org: OrgId, id: EventId, fault: Fault)
    requires Balanced(db0, db)
    ensures Balanced(db0, SubscriptionApplied(db, org, id, fault).0)
  {
    if SubscriptionApplied(db, org, id, fault).0 != db {
      NewRowKeepsBalance(db0, db, id, Row(org, Subscription, 0, 0));
      assert db.orgs[org := db.orgs[org]] == db.orgs;
    }
  }

  lemma OneAttemptKeepsBalance(db0: Db, db: Db, rate: int, ev: WebhookEvent, fault: Fault)
    requires Balanced(db0, db)
    ensures Balanced(db0, WebhookApplied(db, rate, ev, fault).0)
  {
    match ev.kind
    case TopUp => TopUpKeepsBalance(db0, db, ev.org, CreditSeconds(ev.amountCents, rate), ev.amountCents, ev.id, fault);
    case Subscription => SubscriptionKeepsBalance(db0, db, ev.org, ev.id, fault);
    case Ignored =>
  }

  lemma {:induction false} SettleKeepsBalance(db: Db, rate: int, attempts: seq<Attempt>)
    requires forall o | o in db.orgs :: db.orgs[o].credit >= 0
    ensures Balanced(db, Settle(db, rate, attempts))
  {
    if attempts != [] {
      SettleKeepsBalance(db, rate, attempts[..|attempts| - 1]);
      var a := attempts[|attempts| - 1];
      OneAttemptKeepsBalance(db, Settle(db, rate, attempts[..|attempts| - 1]), rate, a.ev, a.fault);
    }
  }

  lemma {:induction false} SettleRecordsPayloads(db: Db, rate: int, attempts: seq<Attempt>, payload: EventId -> WebhookEvent)
    requires Consistent(attempts, payload)
    ensures db.events.Keys <= Settle(db, rate, attempts).events.Keys
    ensures forall id | id in Settle(db, rate, attempts).events ::
              Settle(db, rate, attempts).events[id] == if id in db.events then db.events[id] else RowOf(payload(id), rate)
    ensures forall id | id in Settle(db, rate, attempts).events && id !in db.events ::
              exists a :: a in attempts && a.ev.id == id
  {
    if attempts != [] {
      var earlier := attempts[..|attempts| - 1];
      assert forall a | a in earlier :: a in attempts;
      SettleRecordsPayloads(db, rate, earlier, payload);
      var a := attempts[|attempts| - 1];
      assert a in attempts;
    }
  }

  lemma BalancedIsExact(db: Db, a: Db, b: Db)
    requires Balanced(db, a) && Balanced(db, b) && a.events == b.events
    ensures a == b
  {
    assert a.orgs == b.orgs;
  }

  /** The ledger, and with it every organization's grants and balance, depends only on WHICH
      events were settled: not on their order, on repetitions, or on who settled them. */
  lemma LedgerDependsOnlyOnTheIds(db: Db, rate: int, xs: seq<Attempt>, ys: seq<Attempt>, payload: EventId -> WebhookEvent)
    requires Consistent(xs, payload) && Consistent(ys, payload)
    requires forall o | o in db.orgs :: db.orgs[o].credit >= 0
    requires Settle(db, rate, xs).events.Keys == Settle(db, rate, ys).events.Keys
    ensures Settle(db, rate, xs) == Settle(db, rate, ys)
  {
    SettleRecordsPayloads(db, rate, xs, payload);
    SettleRecordsPayloads(db, rate, ys, payload);
    SettleKeepsBalance(db, rate, xs);
    SettleKeepsBalance(db, rate, ys);
    var a, b := Settle(db, rate, xs), Settle(db, rate, ys);
    assert a.events == b.events;
    BalancedIsExact(db, a, b);
  }

  /** One attempt that lands is enough: the payment is in the ledger from then on. */
  lemma {:induction false} OneLandingSettles(db: Db, rate: int, attempts: seq<Attempt>, k: nat)
    requires rate >= 0
    requires forall o | o in db.orgs :: db.orgs[o].credit >= 0
    requires k < |attempts| && Lands(db.orgs, attempts[k])
    ensures attempts[k].ev.id in Settle(db, rate, attempts).events
  {
    var last := |attempts| - 1;
    SettleKeepsBalance(db, rate, attempts[..last]);
    if k < last {
      assert attempts[..last][k] == attempts[k];
      OneLandingSettles(db, rate, attempts[..last], k);
    } else {
      HundredCancels(attempts[k].ev.amountCents * rate);
      assert attempts[k].ev.amountCents * rate >= 0;
    }
  }

  function IdsOf(attempts: seq<Attempt>): set<EventId> {
    set a | a in attempts :: a.ev.id
  }

  /** Every payment that was attempted got through at least once. */
  ghost predicate EachLands(orgs: map<OrgId, Org>, attempts: seq<Attempt>) {
    forall id | id in IdsOf(attempts) :: exists k :: 0 <= k < |attempts| && attempts[k].ev.id == id && Lands(orgs, attempts[k])
  }

  lemma LandedIds(db: Db, rate: int, attempts: seq<Attempt>, payload: EventId -> WebhookEvent)
    requires Consistent(attempts, payload) && EachLands(db.orgs, attempts) && rate >= 0
    requires forall o | o in db.orgs :: db.orgs[o].credit >= 0
    ensures Settle(db, rate, attempts).events.Keys == db.events.Keys + IdsOf(attempts)
  {
    SettleRecordsPayloads(db, rate, attempts, payload);
    forall id | id in IdsOf(attempts) ensures id in Settle(db, rate, attempts).events {
      var k :| 0 <= k < |attempts| && attempts[k].ev.id == id && Lands(db.orgs, attempts[k]);
      OneLandingSettles(db, rate, attempts, k);
    }
  }

  /** Webhook and reconciliation may race, repeat and fail as they like: two histories about the same
      payments, in each of which every payment got through at least once, end in the same ledger and
      the same balances, whatever else went wrong in them. */
  lemma OnceEachPaymentLandsHistoriesAgree(db: Db, rate: int, xs: seq<Attempt>, ys: seq<Attempt>, payload: EventId -> WebhookEvent)
    requires Consistent(xs, payload) && Consistent(ys, payload) && rate >= 0
    requires forall o | o in db.orgs :: db.orgs[o].credit >= 0
    requires EachLands(db.orgs, xs) && EachLands(db.orgs, ys) && IdsOf(xs) == IdsOf(ys)
    ensures Settle(db, rate, xs) == Settle(db, rate, ys)
    ensures Settle(db, rate, xs).events.Keys == db.events.Keys + IdsOf(xs)
  {
    LandedIds(db, rate, xs, payload);
    LandedIds(db, rate, ys, payload);
    LedgerDependsOnlyOnTheIds(db, rate, xs, ys, payload);
  }

  // ---- the imperative form ----

  /** The billing tables, updated in place. */
  class Repository {
    var orgs: map<OrgId, Org>
    var events: map<EventId, Row>
    var runs: seq<DiagnosisRun>

    function State(): Db
      reads this
    {
      Db(orgs, events, runs)
    }

    constructor (db: Db)
      ensures State() == db
    {
      orgs, events, runs := db.orgs, db.events, db.runs;
    }

    method ApplyTopUp(org: OrgId, add: int, cents: int, id: EventId, fault: Fault) returns (reply: Reply)
      modifies this
      ensures (State(), reply) == TopUpApplied(old(State()), org, add, cents, id, fault)
    {
      if fault == RolledBack {
        return Failed;
      }
      if id in events {
        return if fault == NoFault then NotApplied else Failed;
      }
      if org !in orgs {
        return Failed;
      }
      if orgs[org].live {
        if orgs[org].credit + add < 0 {
          return Failed;
        }
        orgs := orgs[org := orgs[org].(credit := orgs[org].credit + add)];
      } else {
        assert orgs == orgs[org := orgs[org]];
      }
      events := events[id := Row(org, TopUp, cents, add)];
      return if fault == NoFault then Applied else Failed;
    }

    method ApplySubscription(org: OrgId, id: EventId, fault: Fault) returns (reply: Reply)
      modifies this
      ensures (State(), reply) == SubscriptionApplied(old(State()), org, id, fault)
    {
      if fault == RolledBack {
        return Failed;
      }
      if id in events {
        return if fault == NoFault then NotApplied else Failed;
      }
      if org !in orgs {
        return Failed;
      }
      events := events[id := Row(org, Subscription, 0, 0)];
      return if fault == NoFault then Applied else Failed;
    }

    /** The pay-as-you-go meter. */
    method DeductCredit(elapsed: int)
      modifies this
      ensures Ticked(old(State()), State(), elapsed)
      ensures State() == CreditDeducted(old(State()), elapsed)
    {
      if elapsed > 0 {
        var todo := orgs.Keys;
        while todo != {}
          invariant todo <= old(orgs).Keys == orgs.Keys
          invariant events == old(events) && runs == old(runs)
          invariant forall o | o in todo :: orgs[o] == old(orgs)[o]
          invariant forall o | o in old(orgs) && o !in todo && !old(orgs)[o].live :: orgs[o] == old(orgs)[o]
          invariant forall o | o in old(orgs) && o !in todo && old(orgs)[o].live ::
                      orgs[o] == old(orgs)[o].(credit := Drained(old(orgs)[o].credit, elapsed, old(orgs)[o].enabledMonitors))
          decreases todo
        {
          var o :| o in todo;
          todo := todo - {o};
          var row := orgs[o];
          NoTimeNoDrain(elapsed, row.enabledMonitors);
          if row.live && row.credit > 0 && row.enabledMonitors > 0 {
            var rest := row.credit - elapsed * row.enabledMonitors;
            orgs := orgs[o := row.(credit := if rest > 0 then rest else 0)];
          }
        }
      }
      OneTick(old(State()), State(), elapsed);
    }

    /** Debits the cost if, and only if, a live organization's balance covers it. */
    method ChargeCredit(org: OrgId, cost: int) returns (ok: bool)
      modifies this
      ensures ok == (cost <= 0 || CanCharge(old(State()), org, cost))
      ensures State() == if ok && cost > 0 then AddCredit(old(State()), org, -cost) else old(State())
    {
      if cost <= 0 {
        return true;
      }
      if org in orgs && orgs[org].live && orgs[org].credit >= cost {
        orgs := orgs[org := orgs[org].(credit := orgs[org].credit - cost)];
        return true;
      }
      return false;
    }

    method RefundCredit(org: OrgId, cost: int)
      modifies this
      ensures State() == if cost > 0 then AddCredit(old(State()), org, cost) else old(State())
    {
      if cost > 0 && org in orgs && orgs[org].live {
        orgs := orgs[org := orgs[org].(credit := orgs[org].credit + cost)];
      }
    }

    method CountRunsSince(org: OrgId, month: nat) returns (n: nat)
      ensures n == RunsSince(runs, org, month) == |RunsOf(runs, org, month)|
    {
      RunsSinceCounts(runs, org, month);
      n := 0;
      for i := 0 to |runs|
        invariant n == RunsSince(runs[..i], org, month)
      {
        assert runs[..i + 1][..i] == runs[..i];
        if runs[i].org == org && runs[i].month >= month {
          n := n + 1;
        }
      }
      assert runs[..|runs|] == runs;
    }

    method RecordRun(org: OrgId, cost: int, month: nat)
      modifies this
      ensures State() == old(State()).(runs := old(runs) + [DiagnosisRun(org, cost, month)])
    {
      runs := runs + [DiagnosisRun(org, cost, month)];
    }

    method CreditTotals(org: OrgId) returns (granted: int, remaining: int)
      ensures granted == Granted(events, org)
      ensures remaining == if org in orgs && orgs[org].live then orgs[org].credit else 0
    {
      granted := 0;
      var rest := events;
      while rest != map[]
        invariant granted + Granted(rest, org) == Granted(events, org)
        decreases |rest|
      {
        var id :| id in rest;
        GrantedRemove(rest, id, org);
        granted := granted + Contribution(rest[id], org);
        rest := rest - {id};
      }
      remaining := if org in orgs && orgs[org].live then orgs[org].credit else 0;
    }
  }

  class Service {
    const repo: Repository
    const rate: int

    constructor (repo: Repository, rate: int)
      ensures this.repo == repo && this.rate == rate
    {
      this.repo, this.rate := repo, rate;
    }

    method ApplyWebhook(ev: WebhookEvent, fault: Fault) returns (reply: Reply)
      modifies repo
      ensures (repo.State(), reply) == WebhookApplied(old(repo.State()), rate, ev, fault)
    {
      match ev.kind
      case TopUp =>
        if ev.org == NIL_ORG {
          return NotApplied;
        }
        reply := repo.ApplyTopUp(ev.org, CreditSeconds(ev.amountCents, rate), ev.amountCents, ev.id, fault);
      case Subscription =>
        if ev.org == NIL_ORG {
          return NotApplied;
        }
        reply := repo.ApplySubscription(ev.org, ev.id, fault);
      case Ignored =>
        reply := NotApplied;
    }

    /** One reconcile pass is a run of attempts from one source, and its result is the number of
        payments it repaired. `faults` says how each transaction ends. */
    method Reconcile(source: nat, recent: seq<WebhookEvent>, faults: seq<Fault>) returns (repaired: nat)
      requires |faults| == |recent|
      modifies repo
      ensures repo.State() == Settle(old(repo.State()), rate, PassOf(source, recent, faults))
      ensures repaired == AppliedBy(old(repo.State()), rate, PassOf(source, recent, faults), source)
    {
      repaired := 0;
      ghost var pass := PassOf(source, recent, faults);
      for i := 0 to |recent|
        invariant repo.State() == Settle(old(repo.State()), rate, pass[..i])
        invariant repaired == AppliedBy(old(repo.State()), rate, pass[..i], source)
      {
        assert pass[..i + 1][..i] == pass[..i];
        var reply := ApplyWebhook(recent[i], faults[i]);
        if reply == Applied {
          repaired := repaired + 1;
        }
      }
      assert pass[..|recent|] == pass;
    }

    /** The consumed figure of the billing page. */
    method Overview(org: OrgId) returns (granted: int, consumed: int)
      ensures granted == Granted(repo.events, org)
      ensures consumed == Consumed(repo.State(), org)
    {
      var remaining;
      granted, remaining := repo.CreditTotals(org);
      consumed := if granted > remaining then granted - remaining else 0;
    }
  }

  function PassOf(source: nat, recent: seq<WebhookEvent>, faults: seq<Fault>): (pass: seq<Attempt>)
    requires |faults| == |recent|
    ensures |pass| == |recent|
  {
    seq(|recent|, i requires 0 <= i < |recent| => Attempt(source, recent[i], faults[i]))
  }

  ghost function Consumed(db: Db, org: OrgId): int {
    var remaining := if org in db.orgs && db.orgs[org].live then db.orgs[org].credit else 0;
    if Granted(db.events, org) > remaining then Granted(db.events, org) - remaining else 0
  }
}
