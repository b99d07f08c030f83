/**
 The background-job queue: a stream with a consumer group, read, reclaimed, acknowledged and
 dead-lettered by any number of workers that may die between any two commands. One step is one
 broker command or one handler call. Within a batch the model leaves the order open.
 */
module JobQueue {
  import opened Wrappers

  type Id = nat
  type Worker = nat

  datatype Job = Job(jobType: string, payload: string)

  datatype Letter = Letter(originalId: Id, job: Job)

  /** `group` is the id from which entries are still undelivered; `pending` counts deliveries of
      entries not yet acknowledged. */
  datatype Broker = Broker(stream: map<Id, Job>, nextId: Id, group: Option<Id>, pending: map<Id, nat>, dead: seq<Letter>)

  datatype Config = Config(handled: set<string>, requestedRetries: int) {
    function MaxRetries(): (m: int)
      ensures m >= 1 && (requestedRetries > 0 ==> m == requestedRetries) && (requestedRetries <= 0 ==> m == 5)
    {
      if requestedRetries <= 0 then 5 else requestedRetries
    }
  }

  // ---- broker commands ----

  function XAdd(b: Broker, job: Job): Broker {
    b.(stream := b.stream[b.nextId := job], nextId := b.nextId + 1)
  }

  /** Creates the group at the end of the stream; a second creation is refused and changes nothing. */
  function XGroupCreate(b: Broker): Broker {
    if b.group.Some? then b else b.(group := Some(b.nextId))
  }

  function Fresh(b: Broker, upTo: Id): set<Id> {
    set id | id in b.stream && b.group.Some? && b.group.value <= id < upTo
  }

  predicate CanRead(b: Broker, upTo: Id) {
    b.group.Some? && b.group.value <= upTo <= b.nextId
  }

  /** Delivers the undelivered entries below `upTo`, for the first time. */
  function XReadGroup(b: Broker, upTo: Id): Broker
    requires CanRead(b, upTo)
  {
    b.(group := Some(upTo),
       pending := map id | id in b.pending.Keys + Fresh(b, upTo) :: if id in Fresh(b, upTo) then 1 else b.pending[id])
  }

  /** Takes over pending entries: one that is still in the stream is delivered once more, one that
      was deleted leaves the pending list. */
  function XAutoClaim(b: Broker, ids: set<Id>): Broker
    requires ids <= b.pending.Keys
  {
    b.(pending := map id | id in b.pending && (id in ids ==> id in b.stream) ::
                    if id in ids then b.pending[id] + 1 else b.pending[id])
  }

  function XAck(b: Broker, id: Id): Broker {
    b.(pending := b.pending - {id})
  }

  function XDel(b: Broker, id: Id): Broker {
    b.(stream := b.stream - {id})
  }

  function XPending(b: Broker, id: Id): Option<nat> {
    if id in b.pending then Some(b.pending[id]) else None
  }

  // ---- workers ----

  /** A message in a worker's hands: `delivery` is how often it had been delivered by then. */
  datatype Ticket = Ticket(worker: Worker, id: Id, delivery: nat, job: Job)

  /** What the worker does next with a message. */
  datatype Stage = Handling | Counting | Burying | Acking | Deleting

  /** What happened so far; nothing in the system reads it. */
  datatype History = History(jobs: map<Id, Job>, tracked: set<Id>, succeeded: set<Id>, unhandled: set<Id>,
                             buried: set<Id>, deliveries: map<Id, nat>, informed: set<(Id, nat)>)

  datatype State = State(broker: Broker, open: map<Ticket, Stage>, h: History)

  datatype Action =
    | Enqueue(job: Job)
    | CreateGroup
    | Read(worker: Worker, upTo: Id)
    | Claim(worker: Worker, ids: set<Id>)
    | Handle(t: Ticket, ok: bool)
    | Count(t: Ticket, answered: bool)
    | Bury(t: Ticket, written: bool)
    | Ack(t: Ticket, done: bool)
    | Delete(t: Ticket, done: bool)
    | Die(worker: Worker)

  const EMPTY := State(Broker(map[], 0, None, map[], []), map[], History(map[], {}, {}, {}, {}, map[], {}))

  predicate Idle(s: State, worker: Worker) {
    forall t | t in s.open :: t.worker != worker
  }

  /** The broker's answer to a read or a claim, as tickets. */
  function Tickets(worker: Worker, b: Broker, ids: set<Id>): (ts: set<Ticket>)
    requires ids <= b.stream.Keys && ids <= b.pending.Keys
  {
    set id | id in ids :: Ticket(worker, id, b.pending[id], b.stream[id])
  }

  function Deliver(s: State, worker: Worker, b: Broker, ids: set<Id>): State
    requires ids <= b.stream.Keys && ids <= b.pending.Keys
  {
    var ts := Tickets(worker, b, ids);
    State(b,
          map t | t in s.open.Keys + ts :: if t in ts then Handling else s.open[t],
          s.h.(deliveries := map id | id in s.h.deliveries.Keys + ids ::
                               if id in ids then Delivered(s.h, id) + 1 else s.h.deliveries[id]))
  }

  function Delivered(h: History, id: Id): nat {
    if id in h.deliveries then h.deliveries[id] else 0
  }

  function GoTo(s: State, t: Ticket, stage: Stage): State {
    s.(open := s.open[t := stage])
  }

  function Close(s: State, t: Ticket): State {
    s.(open := s.open - {t})
  }

  /** The number the worker compares with the limit: 1 when the broker does not say. */
  function SeenDeliveries(b: Broker, id: Id, answered: bool): nat {
    if answered && XPending(b, id).Some? then XPending(b, id).value else 1
  }

  predicate WillRetry(cfg: Config, s: State, a: Action) {
    a.Count? && a.t in s.open && s.open[a.t].Counting? && SeenDeliveries(s.broker, a.t.id, a.answered) < cfg.MaxRetries()
  }

  /** A retry decided on an answer of the broker; the answer knows the entry's delivery count if the
      entry is still pending, and says nothing otherwise. */
  predicate AnsweredRetry(cfg: Config, s: State, a: Action) {
    WillRetry(cfg, s, a) && a.answered
  }

  predicate LateRetry(cfg: Config, s: State, a: Action) {
    AnsweredRetry(cfg, s, a) && a.t.id !in s.broker.pending
  }

  /** A retry decided on the entry's own delivery count. */
  predicate InformedRetry(cfg: Config, s: State, a: Action) {
    WillRetry(cfg, s, a) && a.answered && a.t.id in s.broker.pending
  }

  function StepHandle(cfg: Config, s: State, t: Ticket, ok: bool): State {
    if t.job.jobType !in cfg.handled then GoTo(s.(h := s.h.(unhandled := s.h.unhandled + {t.id})), t, Acking)
    else if ok then GoTo(s.(h := s.h.(succeeded := s.h.succeeded + {t.id})), t, Acking)
    else GoTo(s, t, Counting)
  }

  function StepCount(cfg: Config, s: State, a: Action): State
    requires a.Count?
  {
    if InformedRetry(cfg, s, a) then Close(s.(h := s.h.(informed := s.h.informed + {(a.t.id, a.t.delivery)})), a.t)
    else if WillRetry(cfg, s, a) then Close(s, a.t)
    else GoTo(s, a.t, Burying)
  }

  function StepBury(s: State, t: Ticket, written: bool): State {
    GoTo(s.(h := s.h.(buried := s.h.buried + {t.id}),
            broker := if written then s.broker.(dead := s.broker.dead + [Letter(t.id, t.job)]) else s.broker),
         t, Acking)
  }

  /** One step; an action that is not enabled changes nothing. */
  function Step(cfg: Config, s: State, a: Action): State {
    match a
    case Enqueue(job) =>
      var id := s.broker.nextId;
      State(XAdd(s.broker, job), s.open,
            s.h.(jobs := s.h.jobs[id := job], tracked := if s.broker.group.Some? then s.h.tracked + {id} else s.h.tracked))
    case CreateGroup => s.(broker := XGroupCreate(s.broker))
    case Read(w, upTo) =>
      if Idle(s, w) && CanRead(s.broker, upTo)
      then Deliver(s, w, XReadGroup(s.broker, upTo), Fresh(s.broker, upTo)) else s
    case Claim(w, ids) =>
      if Idle(s, w) && ids <= s.broker.pending.Keys
      then Deliver(s, w, XAutoClaim(s.broker, ids), ids * s.broker.stream.Keys) else s
    case Handle(t, ok) =>
      if t in s.open && s.open[t].Handling? && (forall u | u in s.open && u.worker == t.worker :: s.open[u].Handling?)
      then StepHandle(cfg, s, t, ok) else s
    case Count(t, _) => if t in s.open && s.open[t].Counting? then StepCount(cfg, s, a) else s
    case Bury(t, written) => if t in s.open && s.open[t].Burying? then StepBury(s, t, written) else s
    case Ack(t, done) =>
      if t in s.open && s.open[t].Acking?
      then GoTo(if done then s.(broker := XAck(s.broker, t.id)) else s, t, Deleting) else s
    case Delete(t, done) =>
      if t in s.open && s.open[t].Deleting?
      then Close(if done then s.(broker := XDel(s.broker, t.id)) else s, t) else s
    case Die(w) => s.(open := map t | t in s.open && t.worker != w :: s.open[t])
  }

  function From(cfg: Config, s: State, run: seq<Action>): State {
    if run == [] then s else Step(cfg, From(cfg, s, run[..|run| - 1]), run[|run| - 1])
  }

  /** The state a run from the empty system leads to. */
  function After(cfg: Config, run: seq<Action>): State {
    From(cfg, EMPTY, run)
  }

  // ---- no job is lost ----

  predicate Waiting(b: Broker, id: Id) {
    id in b.stream && b.group.Some? && (id >= b.group.value || id in b.pending)
  }

  predicate Settled(h: History, id: Id) {
    id in h.succeeded || id in h.unhandled || id in h.buried
  }

  ghost predicate TicketOk(cfg: Config, s: State, t: Ticket)
    requires t in s.open
  {
    && t.id in s.h.jobs && t.job == s.h.jobs[t.id] && s.broker.group.Some? && t.id < s.broker.group.value
    && (s.open[t] in {Acking, Deleting} ==> Settled(s.h, t.id))
    && (s.open[t] in {Counting, Burying} ==> t.job.jobType in cfg.handled)
  }

  ghost predicate BrokerOk(s: State) {
    && (forall id | id in s.broker.stream :: id < s.broker.nextId && id in s.h.jobs && s.broker.stream[id] == s.h.jobs[id])
    && (forall id | id in s.h.jobs :: id < s.broker.nextId)
    && (s.broker.group.None? ==> s.broker.pending == map[] && s.h.tracked == {})
    && (s.broker.group.Some? ==> s.broker.group.value <= s.broker.nextId)
    && (forall id | id in s.broker.pending :: s.broker.group.Some? && id < s.broker.group.value && id in s.h.jobs)
  }

  ghost predicate Safe(cfg: Config, s: State) {
    && BrokerOk(s)
    && (forall t | t in s.open :: TicketOk(cfg, s, t))
    && (forall id | id in s.h.tracked :: Waiting(s.broker, id) || Settled(s.h, id))
    && s.h.tracked <= s.h.jobs.Keys
    && (forall id | id in s.h.unhandled :: id in s.h.jobs && s.h.jobs[id].jobType !in cfg.handled)
    && (forall id | id in s.h.succeeded + s.h.buried :: id in s.h.jobs && s.h.jobs[id].jobType in cfg.handled)
  }

  lemma SafeStep(cfg: Config, s: State, a: Action)
    requires Safe(cfg, s)
    ensures Safe(cfg, Step(cfg, s, a))
  {
    match a
    case Enqueue(job) => SafeEnqueue(cfg, s, job);
    case CreateGroup =>
    case Read(w, upTo) => SafeRead(cfg, s, w, upTo);
    case Claim(w, ids) => SafeClaim(cfg, s, w, ids);
    case Handle(t, ok) => SafeHandle(cfg, s, t, ok);
    case Count(t, _) => SafeCount(cfg, s, a);
    case Bury(t, written) => SafeBury(cfg, s, t, written);
    case Ack(t, done) => SafeAck(cfg, s, t, done);
    case Delete(t, done) => SafeDelete(cfg, s, t, done);
    case Die(w) => SafeDie(cfg, s, w);
  }

  lemma SafeEnqueue(cfg: Config, s: State, job: Job)
    requires Safe(cfg, s)
    ensures Safe(cfg, Step(cfg, s, Enqueue(job)))
  {
    var s' := Step(cfg, s, Enqueue(job));
    forall t | t in s'.open ensures TicketOk(cfg, s', t) { assert TicketOk(cfg, s, t); }
    forall id | id in s'.h.tracked ensures Waiting(s'.broker, id) || Settled(s'.h, id) {
      assert id in s.h.tracked ==> Waiting(s.broker, id) || Settled(s.h, id);
    }
  }

  lemma SafeRead(cfg: Config, s: State, w: Worker, upTo: Id)
    requires Safe(cfg, s)
    ensures Safe(cfg, Step(cfg, s, Read(w, upTo)))
  {
    var s' := Step(cfg, s, Read(w, upTo));
    forall t | t in s'.open ensures TicketOk(cfg, s', t) { assert t in s.open ==> TicketOk(cfg, s, t); }
    forall id | id in s'.h.tracked ensures Waiting(s'.broker, id) || Settled(s'.h, id) {
      assert Waiting(s.broker, id) || Settled(s.h, id);
    }
  }

  lemma SafeClaim(cfg: Config, s: State, w: Worker, ids: set<Id>)
    requires Safe(cfg, s)
    ensures Safe(cfg, Step(cfg, s, Claim(w, ids)))
  {
    var s' := Step(cfg, s, Claim(w, ids));
    forall t | t in s'.open ensures TicketOk(cfg, s', t) { assert t in s.open ==> TicketOk(cfg, s, t); }
    forall id | id in s'.h.tracked ensures Waiting(s'.broker, id) || Settled(s'.h, id) {
      assert Waiting(s.broker, id) || Settled(s.h, id);
    }
  }

  lemma SafeHandle(cfg: Config, s: State, t: Ticket, ok: bool)
    requires Safe(cfg, s)
    ensures Safe(cfg, Step(cfg, s, Handle(t, ok)))
  {
    var s' := Step(cfg, s, Handle(t, ok));
    if s' != s {
      assert TicketOk(cfg, s, t);
      forall u | u in s'.open ensures TicketOk(cfg, s', u) { assert TicketOk(cfg, s, u); }
      forall id | id in s'.h.tracked ensures Waiting(s'.broker, id) || Settled(s'.h, id) {
        assert Waiting(s.broker, id) || Settled(s.h, id);
      }
    }
  }

  lemma SafeCount(cfg: Config, s: State, a: Action)
    requires a.Count? && Safe(cfg, s)
    ensures Safe(cfg, Step(cfg, s, a))
  {
    var s' := Step(cfg, s, a);
    forall u | u in s'.open ensures TicketOk(cfg, s', u) { assert TicketOk(cfg, s, u); }
    forall id | id in s'.h.tracked ensures Waiting(s'.broker, id) || Settled(s'.h, id) {
      assert Waiting(s.broker, id) || Settled(s.h, id);
    }
  }

  lemma SafeBury(cfg: Config, s: State, t: Ticket, written: bool)
    requires Safe(cfg, s)
    ensures Safe(cfg, Step(cfg, s, Bury(t, written)))
  {
    var s' := Step(cfg, s, Bury(t, written));
    if s' != s {
      assert TicketOk(cfg, s, t);
      forall u | u in s'.open ensures TicketOk(cfg, s', u) { assert TicketOk(cfg, s, u); }
      forall id | id in s'.h.tracked ensures Waiting(s'.broker, id) || Settled(s'.h, id) {
        assert Waiting(s.broker, id) || Settled(s.h, id);
      }
    }
  }

  lemma SafeAck(cfg: Config, s: State, t: Ticket, done: bool)
    requires Safe(cfg, s)
    ensures Safe(cfg, Step(cfg, s, Ack(t, done)))
  {
    var s' := Step(cfg, s, Ack(t, done));
    if s' != s {
      assert TicketOk(cfg, s, t);
      forall u | u in s'.open ensures TicketOk(cfg, s', u) { assert TicketOk(cfg, s, u); }
      forall id | id in s'.h.tracked ensures Waiting(s'.broker, id) || Settled(s'.h, id) {
        assert Waiting(s.broker, id) || Settled(s.h, id);
      }
    }
  }

  lemma SafeDelete(cfg: Config, s: State, t: Ticket, done: bool)
    requires Safe(cfg, s)
    ensures Safe(cfg, Step(cfg, s, Delete(t, done)))
  {
    var s' := Step(cfg, s, Delete(t, done));
    if s' != s {
      assert TicketOk(cfg, s, t);
      forall u | u in s'.open ensures TicketOk(cfg, s', u) { assert TicketOk(cfg, s, u); }
      forall id | id in s'.h.tracked ensures Waiting(s'.broker, id) || Settled(s'.h, id) {
        assert Waiting(s.broker, id) || Settled(s.h, id);
      }
    }
  }

  lemma SafeDie(cfg: Config, s: State, w: Worker)
    requires Safe(cfg, s)
    ensures Safe(cfg, Step(cfg, s, Die(w)))
  {
    var s' := Step(cfg, s, Die(w));
    forall u | u in s'.open ensures TicketOk(cfg, s', u) { assert TicketOk(cfg, s, u); }
  }

  lemma {:induction false} SafeAfter(cfg: Config, run: seq<Action>)
    ensures Safe(cfg, After(cfg, run))
  {
    if run != [] {
      SafeAfter(cfg, run[..|run| - 1]);
      SafeStep(cfg, After(cfg, run[..|run| - 1]), run[|run| - 1]);
    }
  }

  /** Whatever dies and however many workers race, a job enqueued after the group exists is
      undelivered or pending with its content intact until its handler succeeded, or its type had
      no handler, or writing it to the dead-letter stream was attempted. */
  lemma NoJobIsForgotten(cfg: Config, run: seq<Action>, id: Id)
    requires id in After(cfg, run).h.tracked && id in After(cfg, run).h.jobs
    ensures var s := After(cfg, run);
            || (Waiting(s.broker, id) && s.broker.stream[id] == s.h.jobs[id])
            || (id in s.h.succeeded && s.h.jobs[id].jobType in cfg.handled)
            || (id in s.h.unhandled && s.h.jobs[id].jobType !in cfg.handled)
            || id in s.h.buried
  {
    SafeAfter(cfg, run);
  }

  ghost predicate BuriedAreInDeadStream(s: State) {
    forall id | id in s.h.buried :: id in s.h.jobs && Letter(id, s.h.jobs[id]) in s.broker.dead
  }

  lemma DeadLettersStep(cfg: Config, s: State, a: Action)
    requires Safe(cfg, s) && BuriedAreInDeadStream(s) && (a.Bury? ==> a.written)
    ensures BuriedAreInDeadStream(Step(cfg, s, a))
  {
    if a.Bury? && a.t in s.open {
      assert TicketOk(cfg, s, a.t);
    }
    match a
    case Bury(_, _) =>
    case Enqueue(_) =>
    case Count(_, _) =>
    case _ =>
  }

  lemma {:induction false} DeadLettersArePreserved(cfg: Config, run: seq<Action>)
    requires forall a | a in run :: a.Bury? ==> a.written
    ensures BuriedAreInDeadStream(After(cfg, run))
  {
    if run != [] {
      var earlier := run[..|run| - 1];
      assert forall a | a in earlier :: a in run;
      DeadLettersArePreserved(cfg, earlier);
      SafeAfter(cfg, earlier);
      assert run[|run| - 1] in run;
      DeadLettersStep(cfg, After(cfg, earlier), run[|run| - 1]);
    }
  }

  /** When dead-letter writes succeed no job is lost at all: one that had a handler and did not
      succeed is either still waiting or kept whole in the dead-letter stream. */
  lemma NoJobIsLost(cfg: Config, run: seq<Action>, id: Id)
    requires forall a | a in run :: a.Bury? ==> a.written
    requires id in After(cfg, run).h.tracked && id in After(cfg, run).h.jobs
    requires After(cfg, run).h.jobs[id].jobType in cfg.handled
    ensures var s := After(cfg, run);
            Waiting(s.broker, id) || id in s.h.succeeded || Letter(id, s.h.jobs[id]) in s.broker.dead
  {
    SafeAfter(cfg, run);
    DeadLettersArePreserved(cfg, run);
  }

  // ---- one message moves ----

  /** How many steps a message in hand is from leaving it, at most. */
  function Left(stage: Stage): nat {
    match stage
    case Handling => 5
    case Counting => 4
    case Burying => 3
    case Acking => 2
    case Deleting => 1
  }

  /** The message goes on to a later stage or leaves the hand; every other one stays where it is. */
  ghost predicate GoesOn(open: map<Ticket, Stage>, open': map<Ticket, Stage>, t: Ticket) {
    && t in open
    && (open' == open - {t} || (t in open' && open' == open[t := open'[t]] && Left(open'[t]) < Left(open[t])))
  }

  /** What such a step leaves as it is: the other entries, and what was enqueued and delivered. */
  ghost predicate OneMove(s: State, s': State, t: Ticket) {
    && GoesOn(s.open, s'.open, t)
    && s'.broker.group == s.broker.group && (s'.broker.stream == s.broker.stream || s'.broker.stream == s.broker.stream - {t.id})
    && (s'.broker.pending == s.broker.pending
        || (s'.broker.pending == s.broker.pending - {t.id} && t in s'.open && s'.open[t].Deleting?))
    && s'.h.jobs == s.h.jobs && s'.h.tracked == s.h.tracked && s'.h.deliveries == s.h.deliveries
    && s.h.succeeded <= s'.h.succeeded <= s.h.succeeded + {t.id}
    && s.h.unhandled <= s'.h.unhandled <= s.h.unhandled + {t.id}
    && s.h.buried <= s'.h.buried <= s.h.buried + {t.id}
  }

  lemma HandleMoves(cfg: Config, s: State, t: Ticket, ok: bool)
    requires Step(cfg, s, Handle(t, ok)) != s
    ensures OneMove(s, Step(cfg, s, Handle(t, ok)), t) && t in Step(cfg, s, Handle(t, ok)).open
  {
  }

  lemma CountMoves(cfg: Config, s: State, a: Action)
    requires a.Count? && Step(cfg, s, a) != s
    ensures OneMove(s, Step(cfg, s, a), a.t)
  {
    var s' := StepCount(cfg, s, a);
    assert s'.broker == s.broker && GoesOn(s.open, s'.open, a.t);
  }

  lemma BuryMoves(cfg: Config, s: State, t: Ticket, written: bool)
    requires Step(cfg, s, Bury(t, written)) != s
    ensures OneMove(s, Step(cfg, s, Bury(t, written)), t) && t in Step(cfg, s, Bury(t, written)).open
  {
  }

  lemma AckMoves(cfg: Config, s: State, t: Ticket, done: bool)
    requires Step(cfg, s, Ack(t, done)) != s
    ensures OneMove(s, Step(cfg, s, Ack(t, done)), t) && t in Step(cfg, s, Ack(t, done)).open
  {
  }

  lemma DeleteMoves(cfg: Config, s: State, t: Ticket, done: bool)
    requires Step(cfg, s, Delete(t, done)) != s
    ensures OneMove(s, Step(cfg, s, Delete(t, done)), t)
  {
  }

  predicate OnOneMessage(a: Action) {
    a.Handle? || a.Count? || a.Bury? || a.Ack? || a.Delete?
  }

  lemma MessageMoves(cfg: Config, s: State, a: Action)
    requires OnOneMessage(a) && Step(cfg, s, a) != s
    ensures OneMove(s, Step(cfg, s, a), a.t)
  {
    match a
    case Handle(t, ok) => HandleMoves(cfg, s, t, ok);
    case Count(_, _) => CountMoves(cfg, s, a);
    case Bury(t, written) => BuryMoves(cfg, s, t, written);
    case Ack(t, done) => AckMoves(cfg, s, t, done);
    case Delete(t, done) => DeleteMoves(cfg, s, t, done);
  }

  // ---- jobs from before the group ----

  ghost predicate SkipsEarly(s: State) {
    && (s.broker.group.None? ==> s.open == map[] && s.h.deliveries == map[])
    && (forall id | id in s.h.jobs && id !in s.h.tracked ::
          && id in s.broker.stream && id !in s.broker.pending && id !in s.h.deliveries
          && (s.broker.group.Some? ==> id < s.broker.group.value))
    && (forall t | t in s.open :: t.id in s.h.deliveries)
    && (forall id | id in s.h.succeeded + s.h.unhandled + s.h.buried :: id in s.h.deliveries)
  }

  lemma SkipsEarlyMove(s: State, s': State, t: Ticket)
    requires SkipsEarly(s) && OneMove(s, s', t)
    ensures SkipsEarly(s')
  {
    assert t.id in s.h.deliveries;
  }

  lemma SkipsEarlyDeliver(s: State, w: Worker, b: Broker, ids: set<Id>)
    requires SkipsEarly(s) && ids <= b.stream.Keys && ids <= b.pending.Keys && b.stream == s.broker.stream
    requires s.broker.group.Some? && b.group.Some? && b.group.value >= s.broker.group.value
    requires b.pending.Keys <= s.broker.pending.Keys + ids
    requires forall id | id in ids && id in s.h.jobs :: id in s.h.tracked
    ensures SkipsEarly(Deliver(s, w, b, ids))
  {
    var s' := Deliver(s, w, b, ids);
    forall t | t in s'.open ensures t.id in s'.h.deliveries {
      assert t in s.open || t in Tickets(w, b, ids);
    }
  }

  lemma SkipsEarlyRead(cfg: Config, s: State, w: Worker, upTo: Id)
    requires SkipsEarly(s)
    ensures SkipsEarly(Step(cfg, s, Read(w, upTo)))
  {
    if Idle(s, w) && CanRead(s.broker, upTo) {
      SkipsEarlyDeliver(s, w, XReadGroup(s.broker, upTo), Fresh(s.broker, upTo));
    }
  }

  lemma SkipsEarlyClaim(cfg: Config, s: State, w: Worker, ids: set<Id>)
    requires Safe(cfg, s) && SkipsEarly(s)
    ensures SkipsEarly(Step(cfg, s, Claim(w, ids)))
  {
    if Idle(s, w) && ids <= s.broker.pending.Keys && s.broker.group.Some? {
      SkipsEarlyDeliver(s, w, XAutoClaim(s.broker, ids), ids * s.broker.stream.Keys);
    }
  }

  lemma SkipsEarlyOther(cfg: Config, s: State, a: Action)
    requires Safe(cfg, s) && SkipsEarly(s) && (a.Enqueue? || a.CreateGroup? || a.Die?)
    ensures SkipsEarly(Step(cfg, s, a))
  {
    match a
    case Enqueue(_) =>
    case CreateGroup =>
    case Die(_) =>
  }

  lemma SkipsEarlyStep(cfg: Config, s: State, a: Action)
    requires Safe(cfg, s) && SkipsEarly(s)
    ensures SkipsEarly(Step(cfg, s, a))
  {
    if a.Read? {
      SkipsEarlyRead(cfg, s, a.worker, a.upTo);
    } else if a.Claim? {
      SkipsEarlyClaim(cfg, s, a.worker, a.ids);
    } else if !OnOneMessage(a) {
      SkipsEarlyOther(cfg, s, a);
    } else if Step(cfg, s, a) != s {
      MessageMoves(cfg, s, a);
      SkipsEarlyMove(s, Step(cfg, s, a), a.t);
    }
  }

  /** The group is created at the end of the stream, so it is exactly the jobs enqueued after it
      that the queue takes care of: one enqueued earlier is never delivered, settled or removed. */
  lemma {:induction false} EarlierJobsAreNeverDelivered(cfg: Config, run: seq<Action>)
    ensures SkipsEarly(After(cfg, run))
  {
    if run != [] {
      EarlierJobsAreNeverDelivered(cfg, run[..|run| - 1]);
      SafeAfter(cfg, run[..|run| - 1]);
      SkipsEarlyStep(cfg, After(cfg, run[..|run| - 1]), run[|run| - 1]);
    }
  }

  // ---- the retry bound ----

  /** How many times in the run a worker decided to retry the job on an answer of the broker. */
  function AnsweredRetries(cfg: Config, run: seq<Action>, id: Id): nat {
    if run == [] then 0
    else
      var earlier, a := run[..|run| - 1], run[|run| - 1];
      AnsweredRetries(cfg, earlier, id) + (if AnsweredRetry(cfg, After(cfg, earlier), a) && a.t.id == id then 1 else 0)
  }

  /** Those decided before the job was settled. */
  function UnsettledRetries(cfg: Config, run: seq<Action>, id: Id): nat {
    if run == [] then 0
    else
      var earlier, a := run[..|run| - 1], run[|run| - 1];
      UnsettledRetries(cfg, earlier, id)
      + (if AnsweredRetry(cfg, After(cfg, earlier), a) && a.t.id == id && !Settled(After(cfg, earlier).h, id) then 1 else 0)
  }

  /** Those decided after the entry had left the pending list. */
  function LateRetries(cfg: Config, run: seq<Action>, id: Id): nat {
    if run == [] then 0
    else
      var earlier, a := run[..|run| - 1], run[|run| - 1];
      LateRetries(cfg, earlier, id) + (if LateRetry(cfg, After(cfg, earlier), a) && a.t.id == id then 1 else 0)
  }

  /** Those decided knowing the delivery count. */
  function InformedRetries(cfg: Config, run: seq<Action>, id: Id): nat {
    if run == [] then 0
    else
      var earlier, a := run[..|run| - 1], run[|run| - 1];
      InformedRetries(cfg, earlier, id) + (if InformedRetry(cfg, After(cfg, earlier), a) && a.t.id == id then 1 else 0)
  }

  function Logged(h: History, id: Id): set<nat> {
    set p | p in h.informed && p.0 == id :: p.1
  }

  ghost predicate Numbered(cfg: Config, s: State) {
    && (forall id | id in s.broker.pending :: s.broker.pending[id] == Delivered(s.h, id))
    && (forall id | id in s.h.deliveries :: s.broker.group.Some? && id < s.broker.group.value)
    && (forall t | t in s.open :: 1 <= t.delivery <= Delivered(s.h, t.id))
    && (forall t, u | t in s.open && u in s.open && t.id == u.id && t.delivery == u.delivery :: t == u)
    && (forall p | p in s.h.informed :: 1 <= p.1 <= Delivered(s.h, p.0) && p.1 < cfg.MaxRetries())
    && (forall t | t in s.open :: (t.id, t.delivery) !in s.h.informed)
  }

  lemma TicketsAreNew(cfg: Config, s: State, w: Worker, b: Broker, ids: set<Id>)
    requires Numbered(cfg, s)
    requires ids <= b.stream.Keys && ids <= b.pending.Keys
    requires forall id | id in ids :: b.pending[id] == Delivered(s.h, id) + 1
    ensures forall t | t in Tickets(w, b, ids) :: t.id in ids && t.delivery == Delivered(s.h, t.id) + 1
    ensures forall t | t in s.open :: t.delivery <= Delivered(s.h, t.id) && t !in Tickets(w, b, ids)
    ensures forall t, u | t in Tickets(w, b, ids) && u in Tickets(w, b, ids) && t.id == u.id :: t == u
  {
  }

  /** Nothing in the books disagrees with what has been handed out. */
  lemma CountsDeliver(cfg: Config, s: State, w: Worker, b: Broker, ids: set<Id>)
    requires Numbered(cfg, s)
    requires ids <= b.stream.Keys && ids <= b.pending.Keys
    requires forall id | id in ids :: b.pending[id] == Delivered(s.h, id) + 1
    requires forall id | id in b.pending && id !in ids :: id in s.broker.pending && b.pending[id] == s.broker.pending[id]
    ensures var s' := Deliver(s, w, b, ids);
            && (forall id | id in s'.broker.pending :: s'.broker.pending[id] == Delivered(s'.h, id))
            && (forall p | p in s'.h.informed :: 1 <= p.1 <= Delivered(s'.h, p.0) && p.1 < cfg.MaxRetries())
            && (forall t | t in s.open :: t.delivery <= Delivered(s'.h, t.id))
            && (forall id | id in ids :: Delivered(s'.h, id) == Delivered(s.h, id) + 1)
  {
  }

  lemma NumberedDeliver(cfg: Config, s: State, w: Worker, b: Broker, ids: set<Id>)
    requires Numbered(cfg, s)
    requires ids <= b.stream.Keys && ids <= b.pending.Keys
    requires b.group.Some? && (s.broker.group.Some? ==> s.broker.group.value <= b.group.value)
    requires forall id | id in ids :: id < b.group.value && b.pending[id] == Delivered(s.h, id) + 1
    requires forall id | id in b.pending && id !in ids :: id in s.broker.pending && b.pending[id] == s.broker.pending[id]
    ensures Numbered(cfg, Deliver(s, w, b, ids))
  {
    TicketsAreNew(cfg, s, w, b, ids);
    CountsDeliver(cfg, s, w, b, ids);
    assert Deliver(s, w, b, ids).open.Keys == s.open.Keys + Tickets(w, b, ids);
  }

  lemma NumberedRead(cfg: Config, s: State, w: Worker, upTo: Id)
    requires Numbered(cfg, s)
    ensures Numbered(cfg, Step(cfg, s, Read(w, upTo)))
  {
    if Idle(s, w) && CanRead(s.broker, upTo) {
      NumberedDeliver(cfg, s, w, XReadGroup(s.broker, upTo), Fresh(s.broker, upTo));
    }
  }

  lemma NumberedClaim(cfg: Config, s: State, w: Worker, ids: set<Id>)
    requires Safe(cfg, s) && Numbered(cfg, s)
    ensures Numbered(cfg, Step(cfg, s, Claim(w, ids)))
  {
    if Idle(s, w) && ids <= s.broker.pending.Keys && s.broker.group.Some? {
      NumberedDeliver(cfg, s, w, XAutoClaim(s.broker, ids), ids * s.broker.stream.Keys);
    }
  }

  /** Whatever hands out nothing and logs nothing. */
  lemma NumberedFewer(cfg: Config, s: State, s': State)
    requires Numbered(cfg, s)
    requires s'.open.Keys <= s.open.Keys && s'.h.deliveries == s.h.deliveries && s'.h.informed == s.h.informed
    requires forall id | id in s'.broker.pending :: id in s.broker.pending && s'.broker.pending[id] == s.broker.pending[id]
    requires s.broker.group.Some? ==> s'.broker.group == s.broker.group
    ensures Numbered(cfg, s')
  {
  }

  lemma NumberedInformed(cfg: Config, s: State, a: Action)
    requires Numbered(cfg, s) && InformedRetry(cfg, s, a)
    ensures Numbered(cfg, StepCount(cfg, s, a))
  {
    var s' := StepCount(cfg, s, a);
    assert s.broker.pending[a.t.id] == Delivered(s.h, a.t.id);
    forall t | t in s'.open ensures (t.id, t.delivery) !in s'.h.informed {
      assert t != a.t;
    }
  }

  lemma NumberedCount(cfg: Config, s: State, a: Action)
    requires a.Count? && Numbered(cfg, s)
    ensures Numbered(cfg, Step(cfg, s, a))
  {
    if InformedRetry(cfg, s, a) {
      NumberedInformed(cfg, s, a);
    } else {
      NumberedFewer(cfg, s, Step(cfg, s, a));
    }
  }

  lemma NumberedOther(cfg: Config, s: State, a: Action)
    requires Numbered(cfg, s) && !a.Read? && !a.Claim? && !a.Count?
    ensures Numbered(cfg, Step(cfg, s, a))
  {
    if OnOneMessage(a) {
      if Step(cfg, s, a) != s {
        MessageMoves(cfg, s, a);
        LogKept(cfg, s, a);
        NumberedFewer(cfg, s, Step(cfg, s, a));
      }
    } else {
      NumberedFewer(cfg, s, Step(cfg, s, a));
    }
  }

  lemma LogKept(cfg: Config, s: State, a: Action)
    requires !InformedRetry(cfg, s, a)
    ensures Step(cfg, s, a).h.informed == s.h.informed
  {
    match a
    case Count(_, _) =>
    case _ =>
  }

  lemma NumberedStep(cfg: Config, s: State, a: Action)
    requires Safe(cfg, s) && Numbered(cfg, s)
    ensures Numbered(cfg, Step(cfg, s, a))
  {
    if a.Read? {
      NumberedRead(cfg, s, a.worker, a.upTo);
    } else if a.Claim? {
      NumberedClaim(cfg, s, a.worker, a.ids);
    } else if a.Count? {
      NumberedCount(cfg, s, a);
    } else {
      NumberedOther(cfg, s, a);
    }
  }

  lemma {:induction false} NumberedAfter(cfg: Config, run: seq<Action>)
    ensures Numbered(cfg, After(cfg, run))
  {
    if run != [] {
      NumberedAfter(cfg, run[..|run| - 1]);
      SafeAfter(cfg, run[..|run| - 1]);
      NumberedStep(cfg, After(cfg, run[..|run| - 1]), run[|run| - 1]);
    }
  }

  lemma LogGrows(h: History, p: (Id, nat), id: Id)
    requires p !in h.informed
    ensures |Logged(h.(informed := h.informed + {p}), id)| == |Logged(h, id)| + (if p.0 == id then 1 else 0)
  {
    var h' := h.(informed := h.informed + {p});
    assert p in h'.informed;
    assert Logged(h', id) == Logged(h, id) + (if p.0 == id then {p.1} else {});
  }

  lemma LogStep(cfg: Config, s: State, a: Action, id: Id)
    requires Numbered(cfg, s)
    ensures |Logged(Step(cfg, s, a).h, id)| == |Logged(s.h, id)| + (if InformedRetry(cfg, s, a) && a.t.id == id then 1 else 0)
  {
    var s' := Step(cfg, s, a);
    if InformedRetry(cfg, s, a) {
      var p := (a.t.id, a.t.delivery);
      assert s'.h == s.h.(informed := s.h.informed + {p});
      LogGrows(s.h, p, id);
    } else {
      LogKept(cfg, s, a);
    }
  }

  lemma {:induction false} RetriesAreLogged(cfg: Config, run: seq<Action>, id: Id)
    ensures InformedRetries(cfg, run, id) == |Logged(After(cfg, run).h, id)|
  {
    if run == [] {
      assert Logged(EMPTY.h, id) == {};
    } else {
      RetriesAreLogged(cfg, run[..|run| - 1], id);
      NumberedAfter(cfg, run[..|run| - 1]);
      LogStep(cfg, After(cfg, run[..|run| - 1]), run[|run| - 1], id);
    }
  }

  lemma {:induction false} SmallSet(xs: set<nat>, n: nat)
    requires forall x | x in xs :: 1 <= x <= n
    ensures |xs| <= n
    decreases n
  {
    if n == 0 {
      assert xs == {};
    } else {
      SmallSet(xs - {n}, n - 1);
    }
  }

  lemma InformedRetriesAreBounded(cfg: Config, run: seq<Action>, id: Id)
    ensures InformedRetries(cfg, run, id) <= cfg.MaxRetries() - 1
  {
    RetriesAreLogged(cfg, run, id);
    NumberedAfter(cfg, run);
    SmallSet(Logged(After(cfg, run).h, id), cfg.MaxRetries() - 1);
  }

  /** A worker that counts an entry gone from the pending list always retries, unless there is only
      one try, and no other answered retry is uninformed; the entry is gone only if the job was
      settled, by another worker. */
  lemma LateRetriesFollowSettlement(cfg: Config, run: seq<Action>, a: Action)
    requires a.Count? && a.answered && a.t in After(cfg, run).open && After(cfg, run).open[a.t].Counting?
    ensures var s := After(cfg, run);
            && (AnsweredRetry(cfg, s, a) && !InformedRetry(cfg, s, a) <==> a.t.id !in s.broker.pending && cfg.MaxRetries() > 1)
            && (a.t.id !in s.broker.pending ==> Settled(s.h, a.t.id))
  {
    var s := After(cfg, run);
    SafeAfter(cfg, run);
    EarlierJobsAreNeverDelivered(cfg, run);
    assert TicketOk(cfg, s, a.t);
    assert a.t.id in s.h.tracked;
    assert Waiting(s.broker, a.t.id) || Settled(s.h, a.t.id);
  }

  lemma {:induction false} RetriesSplit(cfg: Config, run: seq<Action>, id: Id)
    ensures AnsweredRetries(cfg, run, id) == InformedRetries(cfg, run, id) + LateRetries(cfg, run, id)
    ensures UnsettledRetries(cfg, run, id) <= InformedRetries(cfg, run, id)
  {
    if run != [] {
      var earlier, a := run[..|run| - 1], run[|run| - 1];
      RetriesSplit(cfg, earlier, id);
      if AnsweredRetry(cfg, After(cfg, earlier), a) {
        LateRetriesFollowSettlement(cfg, earlier, a);
      }
    }
  }

  /** With any number of workers and deaths, when the broker answers a job is retried at most
      MaxRetries - 1 times before it is settled, and at most that often plus once for each worker
      that comes too late, after it was settled. */
  lemma RetriesAreBounded(cfg: Config, run: seq<Action>, id: Id)
    ensures UnsettledRetries(cfg, run, id) <= cfg.MaxRetries() - 1
    ensures AnsweredRetries(cfg, run, id) <= cfg.MaxRetries() - 1 + LateRetries(cfg, run, id)
  {
    RetriesSplit(cfg, run, id);
    InformedRetriesAreBounded(cfg, run, id);
  }

  // ---- rules for workers ----

  /** What may be asked of workers and broker: nobody dies; a count is answered, unless there is only
      one try; an entry that could not be acknowledged is removed; and an entry is only reclaimed
      when no worker has it in hand. */
  datatype Rule = Survive | Answer | Remove | Wait

  const ALL_RULES := {Survive, Answer, Remove, Wait}

  predicate Keeps(cfg: Config, rule: Rule, s: State, a: Action) {
    match rule
    case Survive => !a.Die?
    case Answer => a.Count? ==> a.answered || cfg.MaxRetries() == 1
    case Remove => a.Delete? ==> a.done || a.t.id !in s.broker.pending
    case Wait => a.Claim? ==> forall t | t in s.open :: t.id !in a.ids
  }

  ghost predicate AllKeep(cfg: Config, rules: set<Rule>, run: seq<Action>) {
    run == []
    || (AllKeep(cfg, rules, run[..|run| - 1])
        && forall rule | rule in rules :: Keeps(cfg, rule, After(cfg, run[..|run| - 1]), run[|run| - 1]))
  }

  lemma AllKeepMore(cfg: Config, rules: set<Rule>, run: seq<Action>, a: Action)
    requires AllKeep(cfg, rules, run) && forall rule | rule in rules :: Keeps(cfg, rule, After(cfg, run), a)
    ensures AllKeep(cfg, rules, run + [a]) && After(cfg, run + [a]) == Step(cfg, After(cfg, run), a)
  {
    assert (run + [a])[..|run|] == run;
  }

  lemma {:induction false} FewerRules(cfg: Config, rules: set<Rule>, fewer: set<Rule>, run: seq<Action>)
    requires AllKeep(cfg, rules, run) && fewer <= rules
    ensures AllKeep(cfg, fewer, run)
  {
    if run != [] {
      FewerRules(cfg, rules, fewer, run[..|run| - 1]);
    }
  }

  // ---- an entry in one pair of hands ----

  /** No entry is in two hands, and one that is in hand is pending until its acknowledgement. */
  ghost predicate OneHolder(s: State) {
    && (forall t, u | t in s.open && u in s.open && t.id == u.id :: t == u)
    && (forall t | t in s.open && !s.open[t].Deleting? :: t.id in s.broker.pending)
  }

  lemma OneHolderDeliver(s: State, w: Worker, b: Broker, ids: set<Id>)
    requires OneHolder(s) && ids <= b.stream.Keys && ids <= b.pending.Keys
    requires forall t | t in s.open :: t.id !in ids && (t.id in s.broker.pending ==> t.id in b.pending)
    ensures OneHolder(Deliver(s, w, b, ids))
  {
    var s' := Deliver(s, w, b, ids);
    forall t | t in s'.open && t !in s.open ensures t.id in ids && s'.open[t].Handling? {}
  }

  lemma OneHolderMove(s: State, s': State, t: Ticket)
    requires OneHolder(s) && OneMove(s, s', t)
    ensures OneHolder(s')
  {
    forall u | u in s'.open && !s'.open[u].Deleting? ensures u.id in s'.broker.pending {
      assert u in s.open && !s.open[u].Deleting?;
      assert u != t ==> u.id != t.id;
    }
  }

  lemma OneHolderTicket(cfg: Config, s: State, a: Action)
    requires OneHolder(s) && !a.Read? && !a.Claim?
    ensures OneHolder(Step(cfg, s, a))
  {
    if OnOneMessage(a) && Step(cfg, s, a) != s {
      MessageMoves(cfg, s, a);
      OneHolderMove(s, Step(cfg, s, a), a.t);
    }
  }

  lemma OneHolderStep(cfg: Config, s: State, a: Action)
    requires Safe(cfg, s) && OneHolder(s) && Keeps(cfg, Wait, s, a)
    ensures OneHolder(Step(cfg, s, a))
  {
    if a.Read? {
      if Idle(s, a.worker) && CanRead(s.broker, a.upTo) {
        forall t | t in s.open ensures t.id !in Fresh(s.broker, a.upTo) {
          assert TicketOk(cfg, s, t);
        }
        OneHolderDeliver(s, a.worker, XReadGroup(s.broker, a.upTo), Fresh(s.broker, a.upTo));
      }
    } else if a.Claim? {
      if Idle(s, a.worker) && a.ids <= s.broker.pending.Keys {
        OneHolderDeliver(s, a.worker, XAutoClaim(s.broker, a.ids), a.ids * s.broker.stream.Keys);
      }
    } else {
      OneHolderTicket(cfg, s, a);
    }
  }

  lemma {:induction false} OneHolderAfter(cfg: Config, rules: set<Rule>, run: seq<Action>)
    requires Wait in rules && AllKeep(cfg, rules, run)
    ensures OneHolder(After(cfg, run))
  {
    if run != [] {
      OneHolderAfter(cfg, rules, run[..|run| - 1]);
      SafeAfter(cfg, run[..|run| - 1]);
      OneHolderStep(cfg, After(cfg, run[..|run| - 1]), run[|run| - 1]);
    }
  }

  /** If entries are only reclaimed from nobody's hands, every answered retry knows its count and the
      bound holds for all of them, whoever dies. */
  lemma {:induction false} PatienceMakesRetriesInformed(cfg: Config, run: seq<Action>, id: Id)
    requires AllKeep(cfg, {Wait}, run)
    ensures LateRetries(cfg, run, id) == 0 && AnsweredRetries(cfg, run, id) <= cfg.MaxRetries() - 1
  {
    if run != [] {
      PatienceMakesRetriesInformed(cfg, run[..|run| - 1], id);
      OneHolderAfter(cfg, {Wait}, run[..|run| - 1]);
    }
    RetriesAreBounded(cfg, run, id);
  }

  // ---- workers that keep all the rules finish every job within the limit ----

  predicate InHand(s: State, id: Id) {
    exists t | t in s.open :: t.id == id
  }

  /** No worker has the job: it can still be delivered below the limit, or it is done with. */
  predicate Resting(cfg: Config, s: State, id: Id) {
    || (id in s.broker.pending && Delivered(s.h, id) < cfg.MaxRetries())
    || ((id !in s.broker.pending || id !in s.broker.stream) && Settled(s.h, id))
  }

  predicate Punctual(cfg: Config, s: State, a: Action) {
    forall rule | rule in ALL_RULES :: Keeps(cfg, rule, s, a)
  }

  ghost predicate OnTime(cfg: Config, s: State) {
    && OneHolder(s)
    && (forall t | t in s.open :: t.delivery == Delivered(s.h, t.id) && t.id in s.h.deliveries)
    && (forall id | id in s.h.deliveries :: s.h.deliveries[id] <= cfg.MaxRetries())
    && (forall id | id in s.h.deliveries :: InHand(s, id) || Resting(cfg, s, id))
  }

  lemma StillInHand(s: State, s': State, id: Id)
    requires InHand(s, id)
    requires forall t | t in s.open && t.id == id :: t in s'.open
    ensures InHand(s', id)
  {
    var t :| t in s.open && t.id == id;
    assert t in s'.open;
  }

  lemma NowInHand(w: Worker, b: Broker, ids: set<Id>, s': State, id: Id)
    requires id in ids && ids <= b.stream.Keys && ids <= b.pending.Keys && Tickets(w, b, ids) <= s'.open.Keys
    ensures InHand(s', id)
  {
    var t := Ticket(w, id, b.pending[id], b.stream[id]);
    assert t in Tickets(w, b, ids);
    assert t in s'.open && t.id == id;
  }

  /** Handing out entries that nobody has in hand, each below the limit. */
  lemma OnTimeDeliver(cfg: Config, s: State, w: Worker, b: Broker, ids: set<Id>)
    requires ids <= b.stream.Keys && ids <= b.pending.Keys && b.stream == s.broker.stream
    requires OnTime(cfg, s) && OneHolder(Deliver(s, w, b, ids))
    requires forall id | id in ids :: !InHand(s, id) && Delivered(s.h, id) < cfg.MaxRetries() && b.pending[id] == Delivered(s.h, id) + 1
    requires forall id | id in s.h.deliveries && id !in ids ::
               (id in b.pending <==> id in s.broker.pending) || (id !in b.pending && Settled(s.h, id))
    ensures OnTime(cfg, Deliver(s, w, b, ids))
  {
    var s' := Deliver(s, w, b, ids);
    forall t | t in s.open ensures InHand(s, t.id) && t.id !in ids {}
    forall id | id in s'.h.deliveries ensures InHand(s', id) || Resting(cfg, s', id) {
      if id in ids {
        NowInHand(w, b, ids, s', id);
      } else if InHand(s, id) {
        StillInHand(s, s', id);
      } else {
        assert Resting(cfg, s, id);
      }
    }
  }

  lemma OnTimeRead(cfg: Config, s: State, w: Worker, upTo: Id)
    requires Numbered(cfg, s) && OnTime(cfg, s) && OneHolder(Step(cfg, s, Read(w, upTo)))
    ensures OnTime(cfg, Step(cfg, s, Read(w, upTo)))
  {
    if Idle(s, w) && CanRead(s.broker, upTo) {
      OnTimeDeliver(cfg, s, w, XReadGroup(s.broker, upTo), Fresh(s.broker, upTo));
    }
  }

  /** Nobody has a reclaimed entry in hand, and it is below the limit or only left over. */
  lemma ClaimedRests(cfg: Config, s: State, w: Worker, ids: set<Id>, id: Id)
    requires Safe(cfg, s) && SkipsEarly(s) && Numbered(cfg, s) && OnTime(cfg, s) && Keeps(cfg, Wait, s, Claim(w, ids))
    requires id in ids && id in s.broker.pending
    ensures !InHand(s, id) && (id in s.broker.stream ==> Delivered(s.h, id) < cfg.MaxRetries())
    ensures id !in s.broker.stream ==> Settled(s.h, id)
    ensures s.broker.pending[id] == Delivered(s.h, id)
  {
    OnlyTrackedPend(cfg, s, id);
    if id in s.h.deliveries {
      assert InHand(s, id) || Resting(cfg, s, id);
    }
  }

  lemma OnTimeClaim(cfg: Config, s: State, w: Worker, ids: set<Id>, s': State)
    requires Safe(cfg, s) && SkipsEarly(s) && Numbered(cfg, s) && OnTime(cfg, s) && Keeps(cfg, Wait, s, Claim(w, ids))
    requires ids <= s.broker.pending.Keys && OneHolder(s')
    requires s' == Deliver(s, w, XAutoClaim(s.broker, ids), ids * s.broker.stream.Keys)
    ensures OnTime(cfg, s')
  {
    ReclaimedRest(cfg, s, w, ids);
    OnTimeDeliver(cfg, s, w, XAutoClaim(s.broker, ids), ids * s.broker.stream.Keys);
  }

  lemma ReclaimedRest(cfg: Config, s: State, w: Worker, ids: set<Id>)
    requires Safe(cfg, s) && SkipsEarly(s) && Numbered(cfg, s) && OnTime(cfg, s) && Keeps(cfg, Wait, s, Claim(w, ids))
    requires ids <= s.broker.pending.Keys
    ensures var b, again := XAutoClaim(s.broker, ids), ids * s.broker.stream.Keys;
            && again <= b.pending.Keys
            && (forall id | id in again ::
                  !InHand(s, id) && Delivered(s.h, id) < cfg.MaxRetries() && b.pending[id] == Delivered(s.h, id) + 1)
            && (forall id | id in s.h.deliveries && id !in again ::
                  (id in b.pending <==> id in s.broker.pending) || (id !in b.pending && Settled(s.h, id)))
  {
    forall id | id in ids
      ensures !InHand(s, id) && (id in s.broker.stream ==> Delivered(s.h, id) < cfg.MaxRetries())
      ensures id !in s.broker.stream ==> Settled(s.h, id)
      ensures s.broker.pending[id] == Delivered(s.h, id)
    {
      ClaimedRests(cfg, s, w, ids, id);
    }
  }

  lemma OnlyTrackedPend(cfg: Config, s: State, id: Id)
    requires Safe(cfg, s) && SkipsEarly(s) && id in s.broker.pending
    ensures id !in s.broker.stream ==> Settled(s.h, id)
  {
    assert id in s.h.tracked;
    assert Waiting(s.broker, id) || Settled(s.h, id);
  }

  /** Moving one message leaves all the others alone. */
  lemma OthersOnTime(cfg: Config, s: State, s': State, t: Ticket, id: Id)
    requires OnTime(cfg, s) && OneMove(s, s', t) && id != t.id && id in s.h.deliveries
    ensures InHand(s', id) || Resting(cfg, s', id)
  {
    if InHand(s, id) {
      StillInHand(s, s', id);
    } else {
      assert Resting(cfg, s, id);
    }
  }

  lemma OnTimeTicket(cfg: Config, s: State, s': State, t: Ticket)
    requires OnTime(cfg, s) && OneHolder(s') && OneMove(s, s', t)
    requires t !in s'.open ==> Resting(cfg, s', t.id)
    ensures OnTime(cfg, s')
  {
    forall id | id in s'.h.deliveries ensures InHand(s', id) || Resting(cfg, s', id) {
      if id != t.id {
        OthersOnTime(cfg, s, s', t, id);
      } else if t in s'.open {
        assert InHand(s', id);
      }
    }
  }

  /** A retry leaves the entry pending, below the limit. */
  lemma RetryRests(cfg: Config, s: State, a: Action)
    requires Numbered(cfg, s) && OneHolder(s) && a.Count? && Keeps(cfg, Answer, s, a) && Step(cfg, s, a) != s
    ensures a.t !in Step(cfg, s, a).open ==> Resting(cfg, Step(cfg, s, a), a.t.id)
  {
    assert s.broker.pending[a.t.id] == Delivered(s.h, a.t.id);
  }

  lemma OnTimeCount(cfg: Config, s: State, a: Action)
    requires Numbered(cfg, s) && OnTime(cfg, s) && a.Count? && Keeps(cfg, Answer, s, a) && OneHolder(Step(cfg, s, a))
    ensures OnTime(cfg, Step(cfg, s, a))
  {
    if Step(cfg, s, a) != s {
      CountMoves(cfg, s, a);
      RetryRests(cfg, s, a);
      OnTimeTicket(cfg, s, Step(cfg, s, a), a.t);
    }
  }

  lemma OnTimeDelete(cfg: Config, s: State, t: Ticket, done: bool)
    requires OnTime(cfg, s) && Safe(cfg, s) && Keeps(cfg, Remove, s, Delete(t, done)) && OneHolder(Step(cfg, s, Delete(t, done)))
    ensures OnTime(cfg, Step(cfg, s, Delete(t, done)))
  {
    if t in s.open && s.open[t].Deleting? {
      assert TicketOk(cfg, s, t);
      DeleteMoves(cfg, s, t, done);
      OnTimeTicket(cfg, s, Step(cfg, s, Delete(t, done)), t);
    }
  }

  lemma OnTimeHandle(cfg: Config, s: State, t: Ticket, ok: bool)
    requires OnTime(cfg, s) && OneHolder(Step(cfg, s, Handle(t, ok)))
    ensures OnTime(cfg, Step(cfg, s, Handle(t, ok)))
  {
    if Step(cfg, s, Handle(t, ok)) != s {
      HandleMoves(cfg, s, t, ok);
      OnTimeTicket(cfg, s, Step(cfg, s, Handle(t, ok)), t);
    }
  }

  lemma OnTimeBury(cfg: Config, s: State, t: Ticket, written: bool)
    requires OnTime(cfg, s) && OneHolder(Step(cfg, s, Bury(t, written)))
    ensures OnTime(cfg, Step(cfg, s, Bury(t, written)))
  {
    if Step(cfg, s, Bury(t, written)) != s {
      BuryMoves(cfg, s, t, written);
      OnTimeTicket(cfg, s, Step(cfg, s, Bury(t, written)), t);
    }
  }

  lemma OnTimeAck(cfg: Config, s: State, t: Ticket, done: bool)
    requires OnTime(cfg, s) && OneHolder(Step(cfg, s, Ack(t, done)))
    ensures OnTime(cfg, Step(cfg, s, Ack(t, done)))
  {
    if Step(cfg, s, Ack(t, done)) != s {
      AckMoves(cfg, s, t, done);
      OnTimeTicket(cfg, s, Step(cfg, s, Ack(t, done)), t);
    }
  }

  lemma OnTimeStep(cfg: Config, s: State, a: Action)
    requires Safe(cfg, s) && SkipsEarly(s) && Numbered(cfg, s) && OnTime(cfg, s) && Punctual(cfg, s, a)
    ensures OnTime(cfg, Step(cfg, s, a))
  {
    assert Keeps(cfg, Survive, s, a) && Keeps(cfg, Answer, s, a) && Keeps(cfg, Remove, s, a) && Keeps(cfg, Wait, s, a);
    OneHolderStep(cfg, s, a);
    if a.Read? {
      OnTimeRead(cfg, s, a.worker, a.upTo);
    } else if a.Claim? {
      if Idle(s, a.worker) && a.ids <= s.broker.pending.Keys {
        OnTimeClaim(cfg, s, a.worker, a.ids, Step(cfg, s, a));
      }
    } else if a.Count? {
      OnTimeCount(cfg, s, a);
    } else if a.Delete? {
      OnTimeDelete(cfg, s, a.t, a.done);
    } else if a.Enqueue? || a.CreateGroup? {
      SameHands(cfg, s, Step(cfg, s, a));
    } else if a.Handle? {
      OnTimeHandle(cfg, s, a.t, a.ok);
    } else if a.Bury? {
      OnTimeBury(cfg, s, a.t, a.written);
    } else if a.Ack? {
      OnTimeAck(cfg, s, a.t, a.done);
    }
  }

  lemma SameHands(cfg: Config, s: State, s': State)
    requires OnTime(cfg, s) && s'.open == s.open && s'.broker.pending == s.broker.pending
    requires s'.h.deliveries == s.h.deliveries && s'.h.succeeded == s.h.succeeded
    requires s'.h.unhandled == s.h.unhandled && s'.h.buried == s.h.buried
    requires forall id | id in s.h.deliveries && id in s'.broker.stream :: id in s.broker.stream
    ensures OnTime(cfg, s')
  {
    forall id | id in s'.h.deliveries ensures InHand(s', id) || Resting(cfg, s', id) {
      assert InHand(s, id) || Resting(cfg, s, id);
    }
  }

  /** What holds after a run that keeps all the rules. */
  ghost predicate Regular(cfg: Config, s: State) {
    Safe(cfg, s) && SkipsEarly(s) && Numbered(cfg, s) && OnTime(cfg, s)
  }

  lemma {:induction false} RegularAfter(cfg: Config, run: seq<Action>)
    requires AllKeep(cfg, ALL_RULES, run)
    ensures Regular(cfg, After(cfg, run))
  {
    SafeAfter(cfg, run);
    NumberedAfter(cfg, run);
    EarlierJobsAreNeverDelivered(cfg, run);
    if run != [] {
      var earlier := run[..|run| - 1];
      RegularAfter(cfg, earlier);
      OnTimeStep(cfg, After(cfg, earlier), run[|run| - 1]);
    }
  }

  /** Then a job is delivered at most MaxRetries times, once that many deliveries have been dealt with
      it is settled, and until then it can be delivered again. */
  lemma DeliveriesStayWithinTheLimit(cfg: Config, run: seq<Action>, id: Id)
    requires AllKeep(cfg, ALL_RULES, run)
    ensures var s := After(cfg, run);
            && Delivered(s.h, id) <= cfg.MaxRetries()
            && (Delivered(s.h, id) == cfg.MaxRetries() ==> InHand(s, id) || Settled(s.h, id))
            && (id in s.h.tracked ==> InHand(s, id) || Settled(s.h, id) || (Waiting(s.broker, id) && Delivered(s.h, id) < cfg.MaxRetries()))
  {
    RegularAfter(cfg, run);
    var s := After(cfg, run);
    if id in s.h.deliveries {
      assert InHand(s, id) || Resting(cfg, s, id);
    }
  }

  lemma FromMore(cfg: Config, s: State, run: seq<Action>, a: Action)
    ensures From(cfg, s, run + [a]) == Step(cfg, From(cfg, s, run), a)
  {
    assert (run + [a])[..|run|] == run;
  }

  // ---- the measure ----

  ghost function HandRank(s: State, id: Id): nat {
    if InHand(s, id) then
      var t :| t in s.open && t.id == id;
      Left(s.open[t])
    else 0
  }

  /** Deliveries it may still get, then steps it may still take in the hand it is in. */
  ghost function Rank(cfg: Config, s: State, id: Id): int {
    6 * (cfg.MaxRetries() - Delivered(s.h, id)) + HandRank(s, id)
  }

  lemma HandRankIs(s: State, t: Ticket)
    requires OneHolder(s) && t in s.open
    ensures HandRank(s, t.id) == Left(s.open[t])
  {
  }

  lemma HandRankKept(s: State, s': State, id: Id)
    requires OneHolder(s) && OneHolder(s')
    requires forall t: Ticket | t.id == id :: (t in s.open <==> t in s'.open) && (t in s.open ==> s.open[t] == s'.open[t])
    ensures HandRank(s', id) == HandRank(s, id)
  {
    if InHand(s, id) {
      var t :| t in s.open && t.id == id;
      HandRankIs(s, t);
      HandRankIs(s', t);
    }
  }

  /** Nothing happens to the job, or it comes closer to its end. */
  ghost predicate Closer(cfg: Config, s: State, s': State, id: Id) {
    || (Delivered(s'.h, id) == Delivered(s.h, id) && HandRank(s', id) == HandRank(s, id))
    || Rank(cfg, s', id) < Rank(cfg, s, id)
  }

  lemma CloserByTicket(cfg: Config, s: State, s': State, t: Ticket, id: Id)
    requires OneHolder(s) && OneHolder(s') && OneMove(s, s', t)
    ensures Closer(cfg, s, s', id) && (id == t.id ==> Rank(cfg, s', id) < Rank(cfg, s, id))
  {
    if id == t.id {
      HandRankIs(s, t);
      if t in s'.open {
        HandRankIs(s', t);
      } else {
        assert !InHand(s', id);
      }
    } else {
      HandRankKept(s, s', id);
    }
  }

  lemma CloserByDelivery(cfg: Config, s: State, w: Worker, b: Broker, ids: set<Id>, id: Id)
    requires ids <= b.stream.Keys && ids <= b.pending.Keys
    requires OneHolder(s) && OneHolder(Deliver(s, w, b, ids)) && forall t | t in s.open :: t.id !in ids
    ensures Closer(cfg, s, Deliver(s, w, b, ids), id)
    ensures id in ids ==> Rank(cfg, Deliver(s, w, b, ids), id) < Rank(cfg, s, id)
  {
    var s' := Deliver(s, w, b, ids);
    if id in ids {
      var t := Ticket(w, id, b.pending[id], b.stream[id]);
      assert t in Tickets(w, b, ids) && t in s'.open;
      HandRankIs(s', t);
      assert !InHand(s, id);
    } else {
      HandRankKept(s, s', id);
    }
  }

  lemma TicketRankFalls(cfg: Config, s: State, a: Action, id: Id)
    requires OneHolder(s) && OneHolder(Step(cfg, s, a)) && Step(cfg, s, a) != s && OnOneMessage(a)
    ensures Closer(cfg, s, Step(cfg, s, a), id) && (id == a.t.id ==> Rank(cfg, Step(cfg, s, a), id) < Rank(cfg, s, id))
  {
    MessageMoves(cfg, s, a);
    CloserByTicket(cfg, s, Step(cfg, s, a), a.t, id);
  }

  lemma DeliveryRankFalls(cfg: Config, s: State, a: Action, id: Id)
    requires Safe(cfg, s) && OneHolder(s) && OneHolder(Step(cfg, s, a)) && Keeps(cfg, Wait, s, a) && Step(cfg, s, a) != s
    requires a.Read? || a.Claim?
    ensures Closer(cfg, s, Step(cfg, s, a), id)
  {
    if a.Read? {
      NothingFreshInHand(cfg, s, a.upTo);
      CloserByDelivery(cfg, s, a.worker, XReadGroup(s.broker, a.upTo), Fresh(s.broker, a.upTo), id);
    } else {
      CloserByDelivery(cfg, s, a.worker, XAutoClaim(s.broker, a.ids), a.ids * s.broker.stream.Keys, id);
    }
  }

  /** The measure of a job never rises, and falls with every step that does anything with it. */
  lemma RankFalls(cfg: Config, s: State, a: Action, id: Id)
    requires Regular(cfg, s) && Punctual(cfg, s, a)
    ensures Closer(cfg, s, Step(cfg, s, a), id)
  {
    assert Keeps(cfg, Survive, s, a) && Keeps(cfg, Wait, s, a);
    OneHolderStep(cfg, s, a);
    if Step(cfg, s, a) != s {
      if a.Read? || a.Claim? {
        DeliveryRankFalls(cfg, s, a, id);
      } else if a.Enqueue? || a.CreateGroup? {
        HandRankKept(s, Step(cfg, s, a), id);
      } else {
        TicketRankFalls(cfg, s, a, id);
      }
    }
  }

  lemma NothingFreshInHand(cfg: Config, s: State, upTo: Id)
    requires Safe(cfg, s)
    ensures forall t | t in s.open :: t.id !in Fresh(s.broker, upTo)
  {
    forall t | t in s.open ensures t.id !in Fresh(s.broker, upTo) {
      assert TicketOk(cfg, s, t);
    }
  }

  /** The steps of a run that did something with the job: deliver it, or move the hand it is in. */
  ghost function StepsOn(cfg: Config, run: seq<Action>, id: Id): nat {
    if run == [] then 0
    else
      var earlier := run[..|run| - 1];
      var s, s' := After(cfg, earlier), After(cfg, run);
      StepsOn(cfg, earlier, id) + if Delivered(s'.h, id) == Delivered(s.h, id) && HandRank(s', id) == HandRank(s, id) then 0 else 1
  }

  /** So in a run that keeps all the rules at most six steps per allowed delivery are spent on a job. */
  lemma {:induction false} JobsTakeFewSteps(cfg: Config, run: seq<Action>, id: Id)
    requires AllKeep(cfg, ALL_RULES, run)
    ensures StepsOn(cfg, run, id) + Rank(cfg, After(cfg, run), id) <= 6 * cfg.MaxRetries()
    ensures StepsOn(cfg, run, id) <= 6 * cfg.MaxRetries()
  {
    RegularAfter(cfg, run);
    if run == [] {
      assert !InHand(EMPTY, id);
    } else {
      var earlier := run[..|run| - 1];
      JobsTakeFewSteps(cfg, earlier, id);
      RegularAfter(cfg, earlier);
      RankFalls(cfg, After(cfg, earlier), run[|run| - 1], id);
    }
    assert Delivered(After(cfg, run).h, id) <= cfg.MaxRetries();
  }

  // ---- the end of every job ----

  /** A worker is past the handler with at most one message. */
  ghost predicate OneAtATime(s: State) {
    forall t, u | t in s.open && u in s.open && t.worker == u.worker && t != u :: s.open[t].Handling? || s.open[u].Handling?
  }

  lemma {:induction false} OneAtATimeAfter(cfg: Config, run: seq<Action>)
    ensures OneAtATime(After(cfg, run))
  {
    if run != [] {
      OneAtATimeAfter(cfg, run[..|run| - 1]);
      OneAtATimeStep(cfg, After(cfg, run[..|run| - 1]), run[|run| - 1]);
    }
  }

  lemma OneAtATimeStep(cfg: Config, s: State, a: Action)
    requires OneAtATime(s)
    ensures OneAtATime(Step(cfg, s, a))
  {
  }

  /** The worker finishes what it is in the middle of. */
  function Finish(u: Ticket): seq<Action> {
    [Count(u, true), Bury(u, true), Ack(u, true), Delete(u, true)]
  }

  lemma FinishMeaning(cfg: Config, s: State, u: Ticket)
    requires u in s.open && !s.open[u].Handling?
    ensures var c := Finish(u);
            Step(cfg, Step(cfg, Step(cfg, Step(cfg, s, c[0]), c[1]), c[2]), c[3]).open == s.open - {u}
  {
    var c := Finish(u);
    var s1 := Step(cfg, s, c[0]);
    var s2 := Step(cfg, s1, c[1]);
    var s3 := Step(cfg, s2, c[2]);
    assert s1.open - {u} == s.open - {u} && s2.open - {u} == s1.open - {u} && s3.open - {u} == s2.open - {u};
    assert u in s1.open ==> s1.open[u] in {Burying, Acking, Deleting};
    assert u in s2.open ==> s2.open[u] in {Acking, Deleting};
    assert u in s3.open ==> s3.open[u] == Deleting;
  }

  lemma RankMore(cfg: Config, run: seq<Action>, a: Action, id: Id)
    requires AllKeep(cfg, ALL_RULES, run) && Punctual(cfg, After(cfg, run), a)
    ensures Rank(cfg, Step(cfg, After(cfg, run), a), id) <= Rank(cfg, After(cfg, run), id)
  {
    RegularAfter(cfg, run);
    RankFalls(cfg, After(cfg, run), a, id);
  }

  lemma TrackedStays(cfg: Config, s: State, a: Action)
    ensures s.h.tracked <= Step(cfg, s, a).h.tracked
  {
  }

  /** One more step of a run that keeps the rules. */
  lemma OneMoreStep(cfg: Config, run: seq<Action>, a: Action, id: Id)
    requires AllKeep(cfg, ALL_RULES, run) && Punctual(cfg, After(cfg, run), a)
    ensures AllKeep(cfg, ALL_RULES, run + [a]) && After(cfg, run + [a]) == Step(cfg, After(cfg, run), a)
    ensures Rank(cfg, After(cfg, run + [a]), id) <= Rank(cfg, After(cfg, run), id)
    ensures id in After(cfg, run).h.tracked ==> id in After(cfg, run + [a]).h.tracked
  {
    AllKeepMore(cfg, ALL_RULES, run, a);
    RankMore(cfg, run, a, id);
    TrackedStays(cfg, After(cfg, run), a);
  }

  lemma TwoMoreSteps(cfg: Config, run: seq<Action>, a: Action, b: Action, id: Id)
    requires AllKeep(cfg, ALL_RULES, run) && Punctual(cfg, After(cfg, run), a) && Punctual(cfg, Step(cfg, After(cfg, run), a), b)
    ensures AllKeep(cfg, ALL_RULES, run + [a, b])
    ensures After(cfg, run + [a, b]) == Step(cfg, Step(cfg, After(cfg, run), a), b)
    ensures Rank(cfg, After(cfg, run + [a, b]), id) <= Rank(cfg, After(cfg, run), id)
    ensures id in After(cfg, run).h.tracked ==> id in After(cfg, run + [a, b]).h.tracked
  {
    OneMoreStep(cfg, run, a, id);
    OneMoreStep(cfg, run + [a], b, id);
    assert run + [a, b] == run + [a] + [b];
  }

  lemma FinishInHalves(run: seq<Action>, u: Ticket)
    ensures run + Finish(u) == run + [Count(u, true), Bury(u, true)] + [Ack(u, true), Delete(u, true)]
  {
    assert Finish(u) == [Count(u, true), Bury(u, true)] + [Ack(u, true), Delete(u, true)];
  }

  /** A run may go on with a worker finishing the message it is in the middle of. */
  lemma FinishMore(cfg: Config, run: seq<Action>, u: Ticket, id: Id)
    requires AllKeep(cfg, ALL_RULES, run) && u in After(cfg, run).open && !After(cfg, run).open[u].Handling?
    ensures AllKeep(cfg, ALL_RULES, run + Finish(u)) && After(cfg, run + Finish(u)).open == After(cfg, run).open - {u}
    ensures Rank(cfg, After(cfg, run + Finish(u)), id) <= Rank(cfg, After(cfg, run), id)
    ensures id in After(cfg, run).h.tracked ==> id in After(cfg, run + Finish(u)).h.tracked
  {
    FinishMeaning(cfg, After(cfg, run), u);
    var half := run + [Count(u, true), Bury(u, true)];
    TwoMoreSteps(cfg, run, Count(u, true), Bury(u, true), id);
    TwoMoreSteps(cfg, half, Ack(u, true), Delete(u, true), id);
    FinishInHalves(run, u);
  }

  lemma IdleWorker(s: State) returns (w: Worker)
    ensures Idle(s, w)
  {
    w := IdleAmong(s, s.open.Keys);
  }

  lemma {:induction false} IdleAmong(s: State, ts: set<Ticket>) returns (w: Worker)
    ensures forall t | t in ts :: t.worker < w
  {
    if ts == {} {
      w := 0;
    } else {
      var t :| t in ts;
      var v := IdleAmong(s, ts - {t});
      w := if t.worker < v then v else t.worker + 1;
    }
  }

  /** The handler of the job answers as foreseen for each of its deliveries. */
  predicate Foreseen(q: seq<Action>, id: Id, outcome: nat -> bool) {
    forall i | 0 <= i < |q| :: q[i].Handle? && q[i].t.id == id ==> q[i].ok == outcome(q[i].t.delivery)
  }

  lemma TakenByClaim(cfg: Config, s: State, w: Worker, id: Id)
    requires Safe(cfg, s) && OneHolder(s) && id in s.broker.stream && id in s.broker.pending && !InHand(s, id) && Idle(s, w)
    ensures Rank(cfg, Step(cfg, s, Claim(w, {id})), id) < Rank(cfg, s, id)
  {
    assert Keeps(cfg, Wait, s, Claim(w, {id}));
    OneHolderStep(cfg, s, Claim(w, {id}));
    assert Step(cfg, s, Claim(w, {id})) == Deliver(s, w, XAutoClaim(s.broker, {id}), {id} * s.broker.stream.Keys);
    CloserByDelivery(cfg, s, w, XAutoClaim(s.broker, {id}), {id} * s.broker.stream.Keys, id);
  }

  lemma TakenByRead(cfg: Config, s: State, w: Worker, id: Id)
    requires Safe(cfg, s) && OneHolder(s) && Waiting(s.broker, id) && id !in s.broker.pending && Idle(s, w)
    ensures Rank(cfg, Step(cfg, s, Read(w, s.broker.nextId)), id) < Rank(cfg, s, id)
  {
    var all := s.broker.nextId;
    OneHolderStep(cfg, s, Read(w, all));
    NothingFreshInHand(cfg, s, all);
    assert id in Fresh(s.broker, all);
    CloserByDelivery(cfg, s, w, XReadGroup(s.broker, all), Fresh(s.broker, all), id);
  }

  /** What advances a job that nobody has in hand: somebody takes it. */
  lemma Taken(cfg: Config, s: State, id: Id) returns (a: Action)
    requires Safe(cfg, s) && OneHolder(s) && Waiting(s.broker, id) && !InHand(s, id)
    ensures Punctual(cfg, s, a) && (a.Read? || a.Claim?)
    ensures Rank(cfg, Step(cfg, s, a), id) < Rank(cfg, s, id)
  {
    var w := IdleWorker(s);
    if id in s.broker.pending {
      a := Claim(w, {id});
      TakenByClaim(cfg, s, w, id);
    } else {
      a := Read(w, s.broker.nextId);
      TakenByRead(cfg, s, w, id);
    }
  }

  /** What advances a job in hand: its worker's next move with it. */
  lemma Moved(cfg: Config, s: State, t: Ticket, ok: bool) returns (a: Action)
    requires OneHolder(s) && t in s.open && s.open[t] in {Handling, Counting, Burying}
    requires s.open[t].Handling? ==> forall u | u in s.open && u.worker == t.worker :: s.open[u].Handling?
    ensures Punctual(cfg, s, a) && (a.Handle? ==> a.t == t && a.ok == ok)
    ensures Rank(cfg, Step(cfg, s, a), t.id) < Rank(cfg, s, t.id)
  {
    a := NextMove(cfg, s, t, ok);
    OneHolderTicket(cfg, s, a);
    TicketRankFalls(cfg, s, a, t.id);
  }

  lemma NextMove(cfg: Config, s: State, t: Ticket, ok: bool) returns (a: Action)
    requires t in s.open && s.open[t] in {Handling, Counting, Burying}
    requires s.open[t].Handling? ==> forall u | u in s.open && u.worker == t.worker :: s.open[u].Handling?
    ensures (a.Handle? && a.ok == ok) || a.Count? || a.Bury?
    ensures Punctual(cfg, s, a) && a.t == t && Step(cfg, s, a) != s
  {
    if s.open[t].Handling? {
      a := Handle(t, ok);
    } else if s.open[t].Counting? {
      a := Count(t, true);
    } else {
      a := Bury(t, true);
    }
    assert t !in Step(cfg, s, a).open || Step(cfg, s, a).open[t] != s.open[t];
  }

  lemma UnsettledInHand(cfg: Config, run: seq<Action>, t: Ticket)
    requires t in After(cfg, run).open && !Settled(After(cfg, run).h, t.id)
    ensures After(cfg, run).open[t] in {Handling, Counting, Burying}
  {
    SafeAfter(cfg, run);
    assert TicketOk(cfg, After(cfg, run), t);
    var stage := After(cfg, run).open[t];
    assert stage.Handling? || stage.Counting? || stage.Burying? || stage in {Acking, Deleting};
  }

  lemma AdvanceIdle(cfg: Config, run: seq<Action>, id: Id) returns (a: Action)
    requires AllKeep(cfg, ALL_RULES, run) && id in After(cfg, run).h.tracked
    requires !Settled(After(cfg, run).h, id) && !InHand(After(cfg, run), id)
    ensures Punctual(cfg, After(cfg, run), a) && !a.Handle?
    ensures Rank(cfg, Step(cfg, After(cfg, run), a), id) < Rank(cfg, After(cfg, run), id)
  {
    SafeAfter(cfg, run);
    OneHolderAfter(cfg, ALL_RULES, run);
    assert Waiting(After(cfg, run).broker, id) || Settled(After(cfg, run).h, id);
    a := Taken(cfg, After(cfg, run), id);
  }

  lemma AdvanceInHand(cfg: Config, run: seq<Action>, t: Ticket, ok: bool) returns (a: Action)
    requires AllKeep(cfg, ALL_RULES, run) && t in After(cfg, run).open && !Settled(After(cfg, run).h, t.id)
    requires After(cfg, run).open[t].Handling? ==>
               forall u | u in After(cfg, run).open && u.worker == t.worker :: After(cfg, run).open[u].Handling?
    ensures Punctual(cfg, After(cfg, run), a) && (a.Handle? ==> a.t == t && a.ok == ok)
    ensures Rank(cfg, Step(cfg, After(cfg, run), a), t.id) < Rank(cfg, After(cfg, run), t.id)
  {
    OneHolderAfter(cfg, ALL_RULES, run);
    UnsettledInHand(cfg, run, t);
    a := Moved(cfg, After(cfg, run), t, ok);
  }

  /** What one advance achieves. */
  ghost predicate Advanced(cfg: Config, run: seq<Action>, id: Id, outcome: nat -> bool, q: seq<Action>) {
    && |q| <= 5 && AllKeep(cfg, ALL_RULES, run + q) && Foreseen(q, id, outcome)
    && (Rank(cfg, After(cfg, run + q), id) < Rank(cfg, After(cfg, run), id) || Settled(After(cfg, run + q).h, id))
    && id in After(cfg, run + q).h.tracked
  }

  lemma AdvanceByOne(cfg: Config, run: seq<Action>, id: Id, outcome: nat -> bool, a: Action)
    requires AllKeep(cfg, ALL_RULES, run) && Punctual(cfg, After(cfg, run), a) && id in After(cfg, run).h.tracked
    requires Rank(cfg, Step(cfg, After(cfg, run), a), id) < Rank(cfg, After(cfg, run), id)
    requires a.Handle? && a.t.id == id ==> a.ok == outcome(a.t.delivery)
    ensures Advanced(cfg, run, id, outcome, [a])
  {
    OneMoreStep(cfg, run, a, id);
  }

  /** Then nothing keeps the worker from its other messages. */
  lemma Unblocked(cfg: Config, run: seq<Action>, t: Ticket, u: Ticket)
    requires AllKeep(cfg, ALL_RULES, run) && t in After(cfg, run).open && u in After(cfg, run).open && u.worker == t.worker
    requires After(cfg, run).open[t].Handling? && !After(cfg, run).open[u].Handling?
    requires After(cfg, run + Finish(u)).open == After(cfg, run).open - {u}
    ensures var open := After(cfg, run + Finish(u)).open;
            t in open && forall v | v in open && v.worker == t.worker :: open[v].Handling?
  {
    OneAtATimeAfter(cfg, run);
  }

  lemma AdvanceTicket(cfg: Config, run: seq<Action>, t: Ticket, outcome: nat -> bool) returns (a: Action)
    requires AllKeep(cfg, ALL_RULES, run) && t in After(cfg, run).open && !Settled(After(cfg, run).h, t.id)
    requires After(cfg, run).open[t].Handling? ==>
               forall u | u in After(cfg, run).open && u.worker == t.worker :: After(cfg, run).open[u].Handling?
    requires t.id in After(cfg, run).h.tracked
    ensures Advanced(cfg, run, t.id, outcome, [a])
  {
    a := AdvanceInHand(cfg, run, t, outcome(t.delivery));
    AdvanceByOne(cfg, run, t.id, outcome, a);
  }

  lemma AdvanceOnceMore(cfg: Config, run: seq<Action>, id: Id, outcome: nat -> bool, first: seq<Action>, a: Action)
    requires AllKeep(cfg, ALL_RULES, run + first) && Foreseen(first, id, outcome) && |first| <= 4
    requires Rank(cfg, After(cfg, run + first), id) <= Rank(cfg, After(cfg, run), id) && id in After(cfg, run + first).h.tracked
    requires Advanced(cfg, run + first, id, outcome, [a])
    ensures Advanced(cfg, run, id, outcome, first + [a])
  {
    assert run + first + [a] == run + (first + [a]);
  }

  /** The worker that has the job is in the middle of another message: it finishes that first. */
  lemma AdvanceBlocked(cfg: Config, run: seq<Action>, t: Ticket, u: Ticket, outcome: nat -> bool) returns (q: seq<Action>)
    requires AllKeep(cfg, ALL_RULES, run) && t in After(cfg, run).open && u in After(cfg, run).open && u.worker == t.worker
    requires t.id in After(cfg, run).h.tracked
    requires After(cfg, run).open[t].Handling? && !After(cfg, run).open[u].Handling?
    ensures Advanced(cfg, run, t.id, outcome, q)
  {
    q := Finish(u);
    FinishMore(cfg, run, u, t.id);
    Unblocked(cfg, run, t, u);
    if !Settled(After(cfg, run + q).h, t.id) {
      var a := AdvanceTicket(cfg, run + q, t, outcome);
      AdvanceOnceMore(cfg, run, t.id, outcome, q, a);
      q := q + [a];
    }
  }

  /** A job that is not settled can always be brought closer to its end, within five steps that keep
      the rules, whatever its handler is going to answer. */
  lemma CanAdvance(cfg: Config, run: seq<Action>, id: Id, outcome: nat -> bool) returns (q: seq<Action>)
    requires AllKeep(cfg, ALL_RULES, run) && id in After(cfg, run).h.tracked && !Settled(After(cfg, run).h, id)
    ensures Advanced(cfg, run, id, outcome, q)
  {
    var s := After(cfg, run);
    if !InHand(s, id) {
      var a := AdvanceIdle(cfg, run, id);
      AdvanceByOne(cfg, run, id, outcome, a);
      q := [a];
    } else {
      var t :| t in s.open && t.id == id;
      if u :| u in s.open && u.worker == t.worker && s.open[t].Handling? && !s.open[u].Handling? {
        q := AdvanceBlocked(cfg, run, t, u, outcome);
      } else {
        var a := AdvanceTicket(cfg, run, t, outcome);
        q := [a];
      }
    }
  }

  lemma RankBounds(cfg: Config, run: seq<Action>, id: Id)
    requires AllKeep(cfg, ALL_RULES, run)
    ensures 0 <= Rank(cfg, After(cfg, run), id) <= 6 * cfg.MaxRetries()
    ensures Delivered(After(cfg, run).h, id) <= cfg.MaxRetries()
  {
    RegularAfter(cfg, run);
    JobsTakeFewSteps(cfg, run, id);
  }

  /** The continuation settles the job, keeping the rules. */
  ghost predicate Ends(cfg: Config, run: seq<Action>, id: Id, outcome: nat -> bool, q: seq<Action>) {
    AllKeep(cfg, ALL_RULES, run + q) && Foreseen(q, id, outcome) && Settled(After(cfg, run + q).h, id)
  }

  lemma EndsLater(cfg: Config, run: seq<Action>, id: Id, outcome: nat -> bool, first: seq<Action>, rest: seq<Action>)
    requires Foreseen(first, id, outcome) && Ends(cfg, run + first, id, outcome, rest)
    ensures Ends(cfg, run, id, outcome, first + rest)
  {
    assert run + first + rest == run + (first + rest);
  }

  lemma {:induction false} Ended(cfg: Config, run: seq<Action>, id: Id, outcome: nat -> bool) returns (q: seq<Action>)
    requires AllKeep(cfg, ALL_RULES, run) && id in After(cfg, run).h.tracked && Rank(cfg, After(cfg, run), id) >= 0
    ensures Ends(cfg, run, id, outcome, q) && |q| <= 5 * Rank(cfg, After(cfg, run), id) + 5
    decreases Rank(cfg, After(cfg, run), id)
  {
    if Settled(After(cfg, run).h, id) {
      q := [];
      assert run + q == run;
    } else {
      q := CanAdvance(cfg, run, id, outcome);
      if !Settled(After(cfg, run + q).h, id) {
        RankBounds(cfg, run + q, id);
        var rest := Ended(cfg, run + q, id, outcome);
        EndsLater(cfg, run, id, outcome, q, rest);
        q := q + rest;
      }
    }
  }

  /** Every job ends: whatever its handler answers to each delivery, a run that keeps the rules can be
      continued by a bounded number of steps that keep them until the job is settled, and it is
      settled within MaxRetries deliveries. */
  lemma JobsEndWithinTheLimit(cfg: Config, run: seq<Action>, id: Id, outcome: nat -> bool) returns (q: seq<Action>)
    requires AllKeep(cfg, ALL_RULES, run) && id in After(cfg, run).h.tracked
    ensures AllKeep(cfg, ALL_RULES, run + q) && Foreseen(q, id, outcome)
    ensures |q| <= 30 * cfg.MaxRetries() + 5
    ensures Settled(After(cfg, run + q).h, id) && Delivered(After(cfg, run + q).h, id) <= cfg.MaxRetries()
  {
    RankBounds(cfg, run, id);
    q := Ended(cfg, run, id, outcome);
    RankBounds(cfg, run + q, id);
  }

  // ---- each rule is needed ----

  function TicketOf(w: Worker, n: nat, job: Job): Ticket {
    Ticket(w, 0, n, job)
  }

  /** Only job 0 exists and worker 0 has just been given it, for the n-th time. */
  ghost predicate Held(s: State, n: nat, job: Job) {
    && s.broker.stream == map[0 := job] && s.broker.group == Some(1) && s.broker.pending == map[0 := n]
    && s.open == map[TicketOf(0, n, job) := Handling] && Delivered(s.h, 0) == n
  }

  /** The same, but nobody has it. */
  ghost predicate Dropped(s: State, n: nat, job: Job) {
    && s.broker.stream == map[0 := job] && s.broker.group == Some(1) && s.broker.pending == map[0 := n]
    && s.open == map[] && Delivered(s.h, 0) == n
  }

  lemma FirstJob(cfg: Config, job: Job)
    ensures var s := Step(cfg, Step(cfg, EMPTY, CreateGroup), Enqueue(job));
            && s.broker == Broker(map[0 := job], 1, Some(0), map[], []) && s.open == map[] && s.h.deliveries == map[]
  {
  }

  lemma FirstRead(cfg: Config, s: State, job: Job)
    requires s.broker == Broker(map[0 := job], 1, Some(0), map[], []) && s.open == map[] && s.h.deliveries == map[]
    ensures Held(Step(cfg, s, Read(0, 1)), 1, job)
  {
    assert Fresh(s.broker, 1) == {0};
    var s' := Deliver(s, 0, XReadGroup(s.broker, 1), {0});
    assert Tickets(0, XReadGroup(s.broker, 1), {0}) == {TicketOf(0, 1, job)};
    assert s'.open == map[TicketOf(0, 1, job) := Handling];
  }

  lemma FirstDelivery(cfg: Config, job: Job) returns (run: seq<Action>)
    ensures AllKeep(cfg, ALL_RULES, run) && Held(After(cfg, run), 1, job)
  {
    var run0: seq<Action> := [];
    var run1 := run0 + [CreateGroup];
    var run2 := run1 + [Enqueue(job)];
    run := run2 + [Read(0, 1)];
    AllKeepMore(cfg, ALL_RULES, run0, CreateGroup);
    AllKeepMore(cfg, ALL_RULES, run1, Enqueue(job));
    AllKeepMore(cfg, ALL_RULES, run2, Read(0, 1));
    FirstJob(cfg, job);
    FirstRead(cfg, After(cfg, run2), job);
  }

  lemma ReclaimDropped(cfg: Config, s: State, n: nat, job: Job)
    requires Dropped(s, n, job)
    ensures Held(Step(cfg, s, Claim(0, {0})), n + 1, job)
    ensures forall rule :: Keeps(cfg, rule, s, Claim(0, {0}))
  {
    var b := XAutoClaim(s.broker, {0});
    assert b.pending == map[0 := n + 1] && {0} * s.broker.stream.Keys == {0};
    assert Tickets(0, b, {0}) == {TicketOf(0, n + 1, job)};
    assert Deliver(s, 0, b, {0}).open == map[TicketOf(0, n + 1, job) := Handling];
  }

  /** How a worker loses the job without settling it, each time breaking one rule only. */
  function Dropping(rule: Rule, t: Ticket): seq<Action>
    requires rule != Wait
  {
    match rule
    case Survive => [Die(t.worker)]
    case Answer => [Handle(t, false), Count(t, false)]
    case Remove => [Handle(t, true), Ack(t, false), Delete(t, false)]
  }

  lemma DropByDeath(cfg: Config, run: seq<Action>, n: nat, job: Job)
    requires AllKeep(cfg, ALL_RULES - {Survive}, run) && Held(After(cfg, run), n, job)
    ensures AllKeep(cfg, ALL_RULES - {Survive}, run + [Die(0)]) && Dropped(After(cfg, run + [Die(0)]), n, job)
  {
    AllKeepMore(cfg, ALL_RULES - {Survive}, run, Die(0));
    assert Step(cfg, After(cfg, run), Die(0)).open == map[];
  }

  lemma DropBySilence(cfg: Config, run: seq<Action>, n: nat, job: Job)
    requires AllKeep(cfg, ALL_RULES - {Answer}, run) && Held(After(cfg, run), n, job)
    requires job.jobType in cfg.handled && cfg.MaxRetries() > 1
    ensures var q := Dropping(Answer, TicketOf(0, n, job));
            AllKeep(cfg, ALL_RULES - {Answer}, run + q) && Dropped(After(cfg, run + q), n, job)
  {
    var rules, t := ALL_RULES - {Answer}, TicketOf(0, n, job);
    var run1 := run + [Handle(t, false)];
    AllKeepMore(cfg, rules, run, Handle(t, false));
    assert After(cfg, run1).open == map[t := Counting];
    AllKeepMore(cfg, rules, run1, Count(t, false));
    assert run + Dropping(Answer, t) == run1 + [Count(t, false)];
    assert Step(cfg, After(cfg, run1), Count(t, false)).open == map[];
  }

  /** The worker succeeds and can neither acknowledge nor remove the entry. */
  lemma RemovalFails(cfg: Config, s: State, n: nat, job: Job)
    requires Held(s, n, job) && job.jobType in cfg.handled
    ensures var t := TicketOf(0, n, job);
            var s1 := Step(cfg, s, Handle(t, true));
            s1 == s.(open := map[t := Acking], h := s1.h) && s1.h.deliveries == s.h.deliveries
            && Dropped(Step(cfg, Step(cfg, s1, Ack(t, false)), Delete(t, false)), n, job)
  {
    var t := TicketOf(0, n, job);
    var s1 := Step(cfg, s, Handle(t, true));
    assert s1.open == map[t := Acking];
    var s2 := Step(cfg, s1, Ack(t, false));
    assert s2.open == map[t := Deleting];
    assert Step(cfg, s2, Delete(t, false)).open == map[];
  }

  lemma DropByFailedRemoval(cfg: Config, run: seq<Action>, n: nat, job: Job)
    requires AllKeep(cfg, ALL_RULES - {Remove}, run) && Held(After(cfg, run), n, job)
    requires job.jobType in cfg.handled
    ensures var q := Dropping(Remove, TicketOf(0, n, job));
            AllKeep(cfg, ALL_RULES - {Remove}, run + q) && Dropped(After(cfg, run + q), n, job)
  {
    var rules, t := ALL_RULES - {Remove}, TicketOf(0, n, job);
    var run1 := run + [Handle(t, true)];
    var run2 := run1 + [Ack(t, false)];
    RemovalFails(cfg, After(cfg, run), n, job);
    AllKeepMore(cfg, rules, run, Handle(t, true));
    AllKeepMore(cfg, rules, run1, Ack(t, false));
    AllKeepMore(cfg, rules, run2, Delete(t, false));
    assert run + Dropping(Remove, t) == run2 + [Delete(t, false)];
  }

  lemma Drop(cfg: Config, rule: Rule, run: seq<Action>, n: nat, job: Job)
    requires rule != Wait && job.jobType in cfg.handled && (rule.Answer? ==> cfg.MaxRetries() > 1)
    requires AllKeep(cfg, ALL_RULES - {rule}, run) && Held(After(cfg, run), n, job)
    ensures var q := Dropping(rule, TicketOf(0, n, job));
            AllKeep(cfg, ALL_RULES - {rule}, run + q) && Dropped(After(cfg, run + q), n, job)
  {
    match rule
    case Survive => DropByDeath(cfg, run, n, job);
    case Answer => DropBySilence(cfg, run, n, job);
    case Remove => DropByFailedRemoval(cfg, run, n, job);
  }

  lemma {:induction false} HeldAgain(cfg: Config, rule: Rule, job: Job, n: nat) returns (run: seq<Action>)
    requires n >= 1 && rule != Wait && job.jobType in cfg.handled && (rule.Answer? ==> cfg.MaxRetries() > 1)
    ensures AllKeep(cfg, ALL_RULES - {rule}, run) && Held(After(cfg, run), n, job)
    decreases n
  {
    var rules := ALL_RULES - {rule};
    if n == 1 {
      run := FirstDelivery(cfg, job);
      FewerRules(cfg, ALL_RULES, rules, run);
    } else {
      run := HeldAgain(cfg, rule, job, n - 1);
      Drop(cfg, rule, run, n - 1, job);
      run := run + Dropping(rule, TicketOf(0, n - 1, job));
      ReclaimDropped(cfg, After(cfg, run), n - 1, job);
      AllKeepMore(cfg, rules, run, Claim(0, {0}));
      run := run + [Claim(0, {0})];
    }
  }

  /** Workers 0 to n - 1 have been given the job one after the other and nobody has begun. */
  function Queue(from: nat, n: nat, job: Job): map<Ticket, Stage>
    requires from <= n
  {
    if from == n then map[] else Queue(from, n - 1, job)[TicketOf(n - 1, n, job) := Handling]
  }

  predicate Queued(from: nat, n: nat, job: Job, t: Ticket) {
    from <= t.worker < n && t == TicketOf(t.worker, t.worker + 1, job)
  }

  lemma {:induction false} QueueIs(from: nat, n: nat, job: Job)
    requires from <= n
    ensures forall t :: t in Queue(from, n, job) <==> Queued(from, n, job, t)
    ensures forall t | t in Queue(from, n, job) :: Queue(from, n, job)[t] == Handling
  {
    if from < n {
      QueueIs(from, n - 1, job);
      assert forall t :: Queued(from, n, job, t) <==> Queued(from, n - 1, job, t) || t == TicketOf(n - 1, n, job);
    }
  }

  lemma QueueShrinks(from: nat, n: nat, job: Job, stage: Stage)
    requires from < n
    ensures TicketOf(from, from + 1, job) in Queue(from, n, job)
    ensures Queue(from, n, job)[TicketOf(from, from + 1, job) := stage] - {TicketOf(from, from + 1, job)} == Queue(from + 1, n, job)
  {
    QueueIs(from, n, job);
    QueueIs(from + 1, n, job);
  }

  ghost predicate Contended(s: State, n: nat, job: Job) {
    && s.broker.stream == map[0 := job] && s.broker.group == Some(1) && s.broker.pending == map[0 := n]
    && s.open == Queue(0, n, job) && Delivered(s.h, 0) == n
  }

  lemma NextInQueue(n: nat, job: Job)
    ensures Queue(0, n + 1, job) == Queue(0, n, job)[TicketOf(n, n + 1, job) := Handling]
    ensures forall t | t in Queue(0, n, job) :: t.worker < n
  {
    QueueIs(0, n, job);
  }

  lemma ClaimedAgain(cfg: Config, s: State, n: nat, job: Job)
    requires Contended(s, n, job)
    ensures Contended(Step(cfg, s, Claim(n, {0})), n + 1, job)
  {
    var b := XAutoClaim(s.broker, {0});
    NextInQueue(n, job);
    assert Idle(s, n) && {0} * s.broker.stream.Keys == {0} && b.pending == map[0 := n + 1];
    assert Tickets(n, b, {0}) == {TicketOf(n, n + 1, job)};
    assert Deliver(s, n, b, {0}).open == s.open[TicketOf(n, n + 1, job) := Handling];
  }

  /** A job reclaimed again and again from workers that are merely slow. */
  lemma {:induction false} SlowWorkersExceedAnyLimit(cfg: Config, job: Job, n: nat) returns (run: seq<Action>)
    requires n >= 1
    ensures AllKeep(cfg, ALL_RULES - {Wait}, run) && Contended(After(cfg, run), n, job)
    decreases n
  {
    if n == 1 {
      run := FirstDelivery(cfg, job);
      FewerRules(cfg, ALL_RULES, ALL_RULES - {Wait}, run);
      assert Queue(0, 1, job) == Queue(0, 0, job)[TicketOf(0, 1, job) := Handling];
    } else {
      var earlier := SlowWorkersExceedAnyLimit(cfg, job, n - 1);
      run := earlier + [Claim(n - 1, {0})];
      AllKeepMore(cfg, ALL_RULES - {Wait}, earlier, Claim(n - 1, {0}));
      ClaimedAgain(cfg, After(cfg, earlier), n - 1, job);
    }
  }

  /** None of the rules can be spared: a run that keeps all but one may deliver a job any number of
      times. An answer can be spared exactly if there is only one try. */
  lemma EachRuleIsNeeded(cfg: Config, rule: Rule, job: Job, n: nat) returns (run: seq<Action>)
    requires n >= 1 && job.jobType in cfg.handled && (rule.Answer? ==> cfg.MaxRetries() > 1)
    ensures AllKeep(cfg, ALL_RULES - {rule}, run) && Delivered(After(cfg, run).h, 0) == n
  {
    if rule.Wait? {
      run := SlowWorkersExceedAnyLimit(cfg, job, n);
    } else {
      run := HeldAgain(cfg, rule, job, n);
    }
  }

  // ---- retries that come too late ----

  /** The entry is gone, and the workers from `from` on still have the job. */
  ghost predicate TooLate(s: State, from: nat, n: nat, job: Job) {
    from <= n && s.broker.pending == map[] && s.open == Queue(from, n, job)
  }

  /** The worker that has been given the job first succeeds with it. */
  lemma FirstHandles(cfg: Config, s: State, n: nat, job: Job)
    requires n >= 1 && job.jobType in cfg.handled && Contended(s, n, job)
    ensures var t, s' := TicketOf(0, 1, job), Step(cfg, s, Handle(TicketOf(0, 1, job), true));
            t in s.open && s'.open == s.open[t := Acking] && s'.broker == s.broker
  {
    QueueIs(0, n, job);
  }

  /** It acknowledges and removes the entry. */
  lemma FirstSettles(cfg: Config, s: State, open: map<Ticket, Stage>, n: nat, job: Job)
    requires n >= 1 && s.broker.pending == map[0 := n] && open == Queue(0, n, job)
    requires TicketOf(0, 1, job) in open && s.open == open[TicketOf(0, 1, job) := Acking]
    ensures var t := TicketOf(0, 1, job);
            TooLate(Step(cfg, Step(cfg, s, Ack(t, true)), Delete(t, true)), 1, n, job)
  {
    var t := TicketOf(0, 1, job);
    var s1 := Step(cfg, s, Ack(t, true));
    assert s1.open == open[t := Deleting] && s1.broker.pending == map[];
    QueueShrinks(0, n, job, Deleting);
  }

  lemma FirstSucceeds(cfg: Config, run: seq<Action>, n: nat, job: Job) returns (run': seq<Action>)
    requires n >= 1 && job.jobType in cfg.handled
    requires AllKeep(cfg, ALL_RULES - {Wait}, run) && Contended(After(cfg, run), n, job)
    ensures AllKeep(cfg, ALL_RULES - {Wait}, run') && TooLate(After(cfg, run'), 1, n, job)
  {
    var rules, t := ALL_RULES - {Wait}, TicketOf(0, 1, job);
    var run1 := run + [Handle(t, true)];
    var run2 := run1 + [Ack(t, true)];
    run' := run2 + [Delete(t, true)];
    AllKeepMore(cfg, rules, run, Handle(t, true));
    AllKeepMore(cfg, rules, run1, Ack(t, true));
    AllKeepMore(cfg, rules, run2, Delete(t, true));
    FirstHandles(cfg, After(cfg, run), n, job);
    FirstSettles(cfg, After(cfg, run1), After(cfg, run).open, n, job);
  }

  lemma LateRetryMeaning(cfg: Config, s: State, from: nat, n: nat, job: Job)
    requires from < n && job.jobType in cfg.handled && cfg.MaxRetries() > 1 && TooLate(s, from, n, job)
    ensures var t := TicketOf(from, from + 1, job);
            var s1 := Step(cfg, s, Handle(t, false));
            LateRetry(cfg, s1, Count(t, true)) && TooLate(Step(cfg, s1, Count(t, true)), from + 1, n, job)
    ensures !LateRetry(cfg, s, Handle(TicketOf(from, from + 1, job), false))
  {
    var t := TicketOf(from, from + 1, job);
    QueueIs(from, n, job);
    QueueShrinks(from, n, job, Counting);
    assert Step(cfg, s, Handle(t, false)).open == s.open[t := Counting];
  }

  lemma NextRetriesLate(cfg: Config, run: seq<Action>, from: nat, n: nat, job: Job) returns (run': seq<Action>)
    requires from < n && job.jobType in cfg.handled && cfg.MaxRetries() > 1
    requires AllKeep(cfg, ALL_RULES - {Wait}, run) && TooLate(After(cfg, run), from, n, job)
    ensures AllKeep(cfg, ALL_RULES - {Wait}, run') && TooLate(After(cfg, run'), from + 1, n, job)
    ensures LateRetries(cfg, run', 0) == LateRetries(cfg, run, 0) + 1
  {
    var rules, t := ALL_RULES - {Wait}, TicketOf(from, from + 1, job);
    LateRetryMeaning(cfg, After(cfg, run), from, n, job);
    var run1 := run + [Handle(t, false)];
    run' := run1 + [Count(t, true)];
    AllKeepMore(cfg, rules, run, Handle(t, false));
    AllKeepMore(cfg, rules, run1, Count(t, true));
    assert run1[..|run|] == run && run'[..|run1|] == run1;
  }

  lemma {:induction false} TheRestRetriesLate(cfg: Config, run: seq<Action>, from: nat, n: nat, job: Job) returns (run': seq<Action>)
    requires from <= n && job.jobType in cfg.handled && cfg.MaxRetries() > 1
    requires AllKeep(cfg, ALL_RULES - {Wait}, run) && TooLate(After(cfg, run), from, n, job)
    ensures AllKeep(cfg, ALL_RULES - {Wait}, run') && LateRetries(cfg, run', 0) == LateRetries(cfg, run, 0) + (n - from)
    decreases n - from
  {
    if from == n {
      run' := run;
    } else {
      var next := NextRetriesLate(cfg, run, from, n, job);
      run' := TheRestRetriesLate(cfg, next, from + 1, n, job);
    }
  }

  /** The limit on retries does not hold for those that come too late: of n + 1 slow workers that all
      have the job one succeeds, and each of the others fails, is told nothing, and decides to retry. */
  lemma LateRetriesAreUnbounded(cfg: Config, job: Job, n: nat) returns (run: seq<Action>)
    requires job.jobType in cfg.handled && cfg.MaxRetries() > 1
    ensures AllKeep(cfg, ALL_RULES - {Wait}, run)
    ensures LateRetries(cfg, run, 0) >= n && AnsweredRetries(cfg, run, 0) >= n
  {
    var slow := SlowWorkersExceedAnyLimit(cfg, job, n + 1);
    var done := FirstSucceeds(cfg, slow, n + 1, job);
    run := TheRestRetriesLate(cfg, done, 1, n + 1, job);
    RetriesSplit(cfg, run, 0);
  }

  // ---- the worker loop ----

  /** How the calls made while processing one message turn out. */
  datatype Luck = Luck(handled: bool, answered: bool, written: bool, acked: bool, deleted: bool)

  /** The moves of processing one message, in order; a move whose turn never comes is skipped. */
  function Script(t: Ticket, luck: Luck): seq<Action> {
    [Handle(t, luck.handled), Count(t, luck.answered), Bury(t, luck.written), Ack(t, luck.acked), Delete(t, luck.deleted)]
  }

  /** The broker after acknowledging and removing an entry. */
  function SettledBroker(b: Broker, id: Id, luck: Luck): Broker {
    var acked := if luck.acked then XAck(b, id) else b;
    if luck.deleted then XDel(acked, id) else acked
  }

  /** The broker after a message was processed from start to end with nothing in between. */
  function ProcessedBroker(cfg: Config, b: Broker, t: Ticket, luck: Luck): Broker {
    if t.job.jobType !in cfg.handled || luck.handled then SettledBroker(b, t.id, luck)
    else if SeenDeliveries(b, t.id, luck.answered) < cfg.MaxRetries() then b
    else SettledBroker(if luck.written then b.(dead := b.dead + [Letter(t.id, t.job)]) else b, t.id, luck)
  }

  lemma AckThenDelete(cfg: Config, s: State, t: Ticket, luck: Luck)
    requires t in s.open && s.open[t].Acking?
    ensures var s' := Step(cfg, Step(cfg, s, Ack(t, luck.acked)), Delete(t, luck.deleted));
            s'.broker == SettledBroker(s.broker, t.id, luck) && s'.open == s.open - {t}
  {
    assert s.open[t := Deleting] - {t} == s.open - {t};
  }

  /** The rest of the script after the handler failed. */
  lemma RetryMeaning(cfg: Config, s: State, t: Ticket, luck: Luck)
    requires t in s.open && s.open[t].Counting?
    ensures var c := Script(t, luck);
            var s' := Step(cfg, Step(cfg, Step(cfg, Step(cfg, s, c[1]), c[2]), c[3]), c[4]);
            s'.open == s.open - {t}
            && s'.broker == if SeenDeliveries(s.broker, t.id, luck.answered) < cfg.MaxRetries() then s.broker
                            else SettledBroker(if luck.written then s.broker.(dead := s.broker.dead + [Letter(t.id, t.job)]) else s.broker,
                                               t.id, luck)
  {
    var s2 := StepCount(cfg, s, Count(t, luck.answered));
    if t in s2.open {
      var s3 := StepBury(s2, t, luck.written);
      AckThenDelete(cfg, s3, t, luck);
      assert s3.open - {t} == s.open - {t};
    }
  }

  lemma ScriptMeaning(cfg: Config, s: State, t: Ticket, luck: Luck)
    requires t in s.open && forall u | u in s.open && u.worker == t.worker :: s.open[u].Handling?
    ensures From(cfg, s, Script(t, luck)).broker == ProcessedBroker(cfg, s.broker, t, luck)
    ensures From(cfg, s, Script(t, luck)).open == s.open - {t}
  {
    FromScript(cfg, s, t, luck);
    var s1 := StepHandle(cfg, s, t, luck.handled);
    assert s1.open == s.open[t := s1.open[t]] && s1.open - {t} == s.open - {t};
    if s1.open[t].Acking? {
      AckThenDelete(cfg, s1, t, luck);
    } else {
      RetryMeaning(cfg, s1, t, luck);
    }
  }

  // ---- a batch ----

  /** Each message of the batch once. */
  ghost predicate IsOrder(order: seq<Ticket>, messages: set<Ticket>) {
    && (forall t :: t in order <==> t in messages)
    && (forall i, j | 0 <= i < j < |order| :: order[i] != order[j])
  }

  /** The moves of a batch: those of one message after the other. */
  function Scripts(order: seq<Ticket>, luck: Ticket -> Luck): seq<Action> {
    if order == [] then []
    else Scripts(order[..|order| - 1], luck) + Script(order[|order| - 1], luck(order[|order| - 1]))
  }

  /** Nothing more is to be done for the message: it was handled, or there is no handler. */
  predicate Done(cfg: Config, t: Ticket, luck: Luck) {
    t.job.jobType !in cfg.handled || luck.handled
  }

  /** It has failed, for the last time as far as the worker knows. */
  predicate GivenUp(cfg: Config, t: Ticket, luck: Luck) {
    !Done(cfg, t, luck) && (if luck.answered then t.delivery else 1) >= cfg.MaxRetries()
  }

  /** What processing a message leaves: done with or given up it leaves the pending list if that was
      acknowledged and the stream if it was removed, given up it is in the dead stream if it could be
      written; otherwise it stays as it is for a retry. */
  predicate Dealt(cfg: Config, b: Broker, b': Broker, t: Ticket, luck: Luck) {
    var over := Done(cfg, t, luck) || GivenUp(cfg, t, luck);
    && (t.id in b'.pending <==> t.id in b.pending && !(over && luck.acked))
    && (t.id in b'.stream <==> t.id in b.stream && !(over && luck.deleted))
    && (t.id in b'.pending ==> b'.pending[t.id] == b.pending[t.id]) && (t.id in b'.stream ==> b'.stream[t.id] == b.stream[t.id])
    && (GivenUp(cfg, t, luck) && luck.written ==> Letter(t.id, t.job) in b'.dead)
  }

  predicate SameEntry(b: Broker, b': Broker, id: Id) {
    && (id in b'.pending <==> id in b.pending) && (id in b'.pending ==> b'.pending[id] == b.pending[id])
    && (id in b'.stream <==> id in b.stream) && (id in b'.stream ==> b'.stream[id] == b.stream[id])
  }

  /** The letter that burying the message wrote. */
  predicate WrittenFor(cfg: Config, t: Ticket, luck: Luck, letter: Letter) {
    GivenUp(cfg, t, luck) && luck.written && letter == Letter(t.id, t.job)
  }

  /** The letters that came were written for messages given up. */
  predicate OnlyGivenUp(cfg: Config, b: Broker, b': Broker, messages: set<Ticket>, luck: Ticket -> Luck) {
    && b.dead <= b'.dead
    && forall i | |b.dead| <= i < |b'.dead| :: exists t | t in messages :: WrittenFor(cfg, t, luck(t), b'.dead[i])
  }

  ghost predicate BatchDealt(cfg: Config, b: Broker, b': Broker, messages: set<Ticket>, luck: Ticket -> Luck) {
    && (forall t | t in messages :: Dealt(cfg, b, b', t, luck(t)))
    && (forall id | forall t | t in messages :: t.id != id :: SameEntry(b, b', id))
    && OnlyGivenUp(cfg, b, b', messages, luck)
    && b'.nextId == b.nextId && b'.group == b.group
  }

  /** The broker has just delivered the messages: one for each entry, with its count. */
  predicate JustDelivered(b: Broker, messages: set<Ticket>) {
    && (forall t | t in messages :: t.id in b.pending && b.pending[t.id] == t.delivery)
    && (forall t, u | t in messages && u in messages && t.id == u.id :: t == u)
  }

  lemma ProcessedIsDealt(cfg: Config, b: Broker, t: Ticket, luck: Luck)
    requires t.id in b.pending && b.pending[t.id] == t.delivery
    ensures var b' := ProcessedBroker(cfg, b, t, luck);
            && Dealt(cfg, b, b', t, luck) && (forall id | id != t.id :: SameEntry(b, b', id))
            && b'.dead == (if GivenUp(cfg, t, luck) && luck.written then b.dead + [Letter(t.id, t.job)] else b.dead)
            && b'.nextId == b.nextId && b'.group == b.group
  {
  }

  lemma LettersStay(cfg: Config, b: Broker, b1: Broker, b2: Broker, done: set<Ticket>, t: Ticket, luck: Ticket -> Luck)
    requires OnlyGivenUp(cfg, b, b1, done, luck)
    requires b2.dead == if GivenUp(cfg, t, luck(t)) && luck(t).written then b1.dead + [Letter(t.id, t.job)] else b1.dead
    ensures OnlyGivenUp(cfg, b, b2, done + {t}, luck)
  {
    forall i | |b.dead| <= i < |b2.dead| ensures exists u | u in done + {t} :: WrittenFor(cfg, u, luck(u), b2.dead[i]) {
      if i < |b1.dead| {
        assert b2.dead[i] == b1.dead[i];
        var u :| u in done && WrittenFor(cfg, u, luck(u), b1.dead[i]);
        assert u in done + {t};
      } else {
        assert t in done + {t} && WrittenFor(cfg, t, luck(t), b2.dead[i]);
      }
    }
  }

  lemma OneMoreDealt(cfg: Config, b: Broker, b1: Broker, done: set<Ticket>, t: Ticket, luck: Ticket -> Luck)
    requires BatchDealt(cfg, b, b1, done, luck) && t !in done && JustDelivered(b, done + {t})
    ensures BatchDealt(cfg, b, ProcessedBroker(cfg, b1, t, luck(t)), done + {t}, luck)
  {
    var b2 := ProcessedBroker(cfg, b1, t, luck(t));
    assert t in done + {t} && forall u | u in done :: u in done + {t} && u.id != t.id;
    assert SameEntry(b, b1, t.id);
    ProcessedIsDealt(cfg, b1, t, luck(t));
    LettersStay(cfg, b, b1, b2, done, t, luck);
    forall u | u in done + {t} ensures Dealt(cfg, b, b2, u, luck(u)) {
      if u != t {
        assert Dealt(cfg, b, b1, u, luck(u)) && SameEntry(b1, b2, u.id);
      }
    }
    forall id | forall u | u in done + {t} :: u.id != id ensures SameEntry(b, b2, id) {
      assert SameEntry(b, b1, id) && SameEntry(b1, b2, id);
    }
  }

  lemma ScriptsMore(order: seq<Ticket>, t: Ticket, luck: Ticket -> Luck)
    ensures Scripts(order + [t], luck) == Scripts(order, luck) + Script(t, luck(t))
  {
    assert (order + [t])[..|order|] == order;
  }

  lemma {:induction false} FromConcat(cfg: Config, s: State, r: seq<Action>, q: seq<Action>)
    ensures From(cfg, s, r + q) == From(cfg, From(cfg, s, r), q)
    decreases |q|
  {
    if q == [] {
      assert r + q == r;
    } else {
      var q' := q[..|q| - 1];
      FromConcat(cfg, s, r, q');
      assert (r + q)[..|r + q| - 1] == r + q';
    }
  }

  /** The broker, updated in place by its commands. */
  class Redis {
    var stream: map<Id, Job>
    var nextId: Id
    var group: Option<Id>
    var pending: map<Id, nat>
    var dead: seq<Letter>

    function State(): Broker
      reads this
    {
      Broker(stream, nextId, group, pending, dead)
    }

    constructor ()
      ensures State() == EMPTY.broker
    {
      stream, nextId, group, pending, dead := map[], 0, None, map[], [];
    }

    method Add(job: Job)
      modifies this
      ensures State() == XAdd(old(State()), job)
    {
      stream := stream[nextId := job];
      nextId := nextId + 1;
    }

    method GroupCreate()
      modifies this
      ensures State() == XGroupCreate(old(State()))
    {
      if group.None? {
        group := Some(nextId);
      }
    }

    method ReadGroup(worker: Worker, upTo: Id) returns (messages: set<Ticket>)
      requires CanRead(State(), upTo)
      modifies this
      ensures State() == XReadGroup(old(State()), upTo)
      ensures messages == Tickets(worker, State(), Fresh(old(State()), upTo))
    {
      var arrived := Fresh(State(), upTo);
      pending := map id | id in pending.Keys + arrived :: if id in arrived then 1 else pending[id];
      group := Some(upTo);
      messages := Tickets(worker, State(), arrived);
    }

    method AutoClaim(worker: Worker, ids: set<Id>) returns (messages: set<Ticket>)
      requires ids <= pending.Keys
      modifies this
      ensures State() == XAutoClaim(old(State()), ids)
      ensures messages == Tickets(worker, State(), ids * stream.Keys)
    {
      pending := map id | id in pending && (id in ids ==> id in stream) :: if id in ids then pending[id] + 1 else pending[id];
      messages := Tickets(worker, State(), ids * stream.Keys);
    }

    method Acknowledge(id: Id)
      modifies this
      ensures State() == XAck(old(State()), id)
    {
      pending := pending - {id};
    }

    method Remove(id: Id)
      modifies this
      ensures State() == XDel(old(State()), id)
    {
      stream := stream - {id};
    }

    method AddDead(letter: Letter)
      modifies this
      ensures State() == old(State()).(dead := old(dead) + [letter])
    {
      dead := dead + [letter];
    }
  }

  /** Between two messages of a batch: the worker has those still to do, beside what others have. */
  ghost predicate Batch(s0: State, s: State, todo: set<Ticket>, worker: Worker) {
    && s.open.Keys == s0.open.Keys + todo
    && (forall t | t in s0.open :: s.open[t] == s0.open[t])
    && (forall t | t in todo :: t.worker == worker && s.open[t] == Handling)
  }

  lemma BatchBegun(s0: State, s: State, todo: set<Ticket>, worker: Worker)
    requires Idle(s0, worker) && Batch(s0, s, todo, worker)
    ensures forall u | u in s.open && u.worker == worker :: s.open[u].Handling?
    ensures todo == {} ==> s.open == s0.open
  {
  }

  lemma BatchShrinks(s0: State, s: State, s': State, todo: set<Ticket>, worker: Worker, t: Ticket)
    requires Idle(s0, worker) && Batch(s0, s, todo, worker) && t in todo && s'.open == s.open - {t}
    ensures Batch(s0, s', todo - {t}, worker)
  {
  }

  /** Part of a batch has been processed, and the rest is still in the worker's hands. */
  ghost predicate Processed(cfg: Config, s0: State, before: seq<Action>, s: State, order: seq<Ticket>, s': State,
                            messages: set<Ticket>, todo: set<Ticket>, name: Worker, luck: Ticket -> Luck) {
    && todo <= messages && s' == From(cfg, s0, before + Scripts(order, luck)) && IsOrder(order, messages - todo)
    && Batch(s0, s', todo, name) && BatchDealt(cfg, s.broker, s'.broker, messages - todo, luck)
  }

  lemma NothingProcessed(cfg: Config, s0: State, before: seq<Action>, s: State, messages: set<Ticket>, name: Worker, luck: Ticket -> Luck)
    requires s == From(cfg, s0, before) && Batch(s0, s, messages, name)
    ensures Processed(cfg, s0, before, s, [], s, messages, messages, name, luck)
  {
    assert before + Scripts([], luck) == before;
  }

  lemma AllProcessed(cfg: Config, s0: State, before: seq<Action>, s: State, order: seq<Ticket>, s': State,
                     messages: set<Ticket>, name: Worker, luck: Ticket -> Luck)
    requires Processed(cfg, s0, before, s, order, s', messages, {}, name, luck) && Idle(s0, name)
    ensures s' == From(cfg, s0, before + Scripts(order, luck)) && s'.open == s0.open
    ensures IsOrder(order, messages) && BatchDealt(cfg, s.broker, s'.broker, messages, luck)
  {
    BatchBegun(s0, s', {}, name);
    assert messages - {} == messages;
  }

  lemma OrderMore(order: seq<Ticket>, done: set<Ticket>, t: Ticket)
    requires IsOrder(order, done) && t !in done
    ensures IsOrder(order + [t], done + {t})
  {
    forall i, j | 0 <= i < j < |order + [t]| ensures (order + [t])[i] != (order + [t])[j] {
      assert order[i] in order;
    }
  }

  lemma MovesMore(cfg: Config, s0: State, before: seq<Action>, order: seq<Ticket>, luck: Ticket -> Luck, t: Ticket)
    ensures From(cfg, s0, before + Scripts(order + [t], luck))
         == From(cfg, From(cfg, s0, before + Scripts(order, luck)), Script(t, luck(t)))
  {
    ScriptsMore(order, t, luck);
    FromConcat(cfg, s0, before + Scripts(order, luck), Script(t, luck(t)));
    assert before + Scripts(order, luck) + Script(t, luck(t)) == before + (Scripts(order, luck) + Script(t, luck(t)));
  }

  lemma ProcessedOneMore(cfg: Config, s0: State, before: seq<Action>, s: State, order: seq<Ticket>, s1: State, messages: set<Ticket>,
                         todo: set<Ticket>, name: Worker, luck: Ticket -> Luck, t: Ticket, s2: State)
    requires Processed(cfg, s0, before, s, order, s1, messages, todo, name, luck) && Idle(s0, name)
    requires t in todo && JustDelivered(s.broker, messages)
    requires s2 == From(cfg, s1, Script(t, luck(t))) && s2.open == s1.open - {t}
    requires s2.broker == ProcessedBroker(cfg, s1.broker, t, luck(t))
    ensures Processed(cfg, s0, before, s, order + [t], s2, messages, todo - {t}, name, luck)
  {
    OneLessToDo(messages, todo, t);
    MovesMore(cfg, s0, before, order, luck, t);
    BatchShrinks(s0, s1, s2, todo, name, t);
    OrderMore(order, messages - todo, t);
    OneMoreDealt(cfg, s.broker, s1.broker, messages - todo, t, luck);
  }

  lemma OneLessToDo(messages: set<Ticket>, todo: set<Ticket>, t: Ticket)
    requires t in todo && todo <= messages
    ensures messages - (todo - {t}) == messages - todo + {t} && messages - todo + {t} <= messages
  {
  }

  /** A worker. The ghost states relate what it does to the machine above: it only ever takes the
      machine's steps, and leaves nothing of its batch behind. */
  class Consumer {
    const rdb: Redis
    const cfg: Config
    const name: Worker

    constructor (rdb: Redis, cfg: Config, name: Worker)
      ensures this.rdb == rdb && this.cfg == cfg && this.name == name
    {
      this.rdb, this.cfg, this.name := rdb, cfg, name;
    }

    method Process(t: Ticket, luck: Luck, ghost s: State) returns (ghost s': State)
      requires s.broker == rdb.State() && t in s.open
      requires forall u | u in s.open && u.worker == t.worker :: s.open[u].Handling?
      modifies rdb
      ensures s' == From(cfg, s, Script(t, luck))
      ensures s'.broker == rdb.State() == ProcessedBroker(cfg, s.broker, t, luck) && s'.open == s.open - {t}
    {
      s' := From(cfg, s, Script(t, luck));
      ScriptMeaning(cfg, s, t, luck);
      if t.job.jobType !in cfg.handled {
        Settle(t.id, luck);
        return;
      }
      if !luck.handled {
        var deliveries := DeliveryCount(t.id, luck.answered);
        if deliveries < cfg.MaxRetries() {
          return;
        }
        if luck.written {
          rdb.AddDead(Letter(t.id, t.job));
        }
      }
      Settle(t.id, luck);
    }

    /** Acknowledge, then remove; failures are only logged. */
    method Settle(id: Id, luck: Luck)
      modifies rdb
      ensures rdb.State() == SettledBroker(old(rdb.State()), id, luck)
    {
      if luck.acked {
        rdb.Acknowledge(id);
      }
      if luck.deleted {
        rdb.Remove(id);
      }
    }

    method DeliveryCount(id: Id, answered: bool) returns (n: nat)
      ensures n == SeenDeliveries(rdb.State(), id, answered)
    {
      if !answered || id !in rdb.pending {
        return 1;
      }
      return rdb.pending[id];
    }

    /** Reads a batch and processes each of its messages once. */
    method ReadOnce(upTo: Id, luck: Ticket -> Luck, ghost s: State) returns (ghost s': State, ghost order: seq<Ticket>)
      requires s.broker == rdb.State() && Idle(s, name) && CanRead(rdb.State(), upTo)
      modifies rdb
      ensures s' == From(cfg, s, [Read(name, upTo)] + Scripts(order, luck)) && s'.broker == rdb.State() && s'.open == s.open
      ensures var b := XReadGroup(s.broker, upTo);
              var messages := Tickets(name, b, Fresh(s.broker, upTo));
              IsOrder(order, messages) && BatchDealt(cfg, b, rdb.State(), messages, luck)
    {
      var messages := rdb.ReadGroup(name, upTo);
      s' := Deliver(s, name, rdb.State(), Fresh(s.broker, upTo));
      OneStep(cfg, s, Read(name, upTo));
      s', order := ProcessAll(messages, luck, s, s', [Read(name, upTo)]);
    }

    /** Reclaims a batch and processes each of its messages once. */
    method Reclaim(ids: set<Id>, luck: Ticket -> Luck, ghost s: State) returns (ghost s': State, ghost order: seq<Ticket>)
      requires s.broker == rdb.State() && Idle(s, name) && ids <= rdb.pending.Keys
      modifies rdb
      ensures s' == From(cfg, s, [Claim(name, ids)] + Scripts(order, luck)) && s'.broker == rdb.State() && s'.open == s.open
      ensures var b := XAutoClaim(s.broker, ids);
              var messages := Tickets(name, b, ids * s.broker.stream.Keys);
              IsOrder(order, messages) && BatchDealt(cfg, b, rdb.State(), messages, luck)
    {
      var messages := rdb.AutoClaim(name, ids);
      s' := Deliver(s, name, rdb.State(), ids * s.broker.stream.Keys);
      OneStep(cfg, s, Claim(name, ids));
      s', order := ProcessAll(messages, luck, s, s', [Claim(name, ids)]);
    }

    method ProcessAll(messages: set<Ticket>, luck: Ticket -> Luck, ghost s0: State, ghost s: State, ghost before: seq<Action>)
      returns (ghost s': State, ghost order: seq<Ticket>)
      requires s == From(cfg, s0, before) && s.broker == rdb.State() && Idle(s0, name)
      requires Batch(s0, s, messages, name) && JustDelivered(rdb.State(), messages)
      modifies rdb
      ensures s' == From(cfg, s0, before + Scripts(order, luck)) && s'.broker == rdb.State() && s'.open == s0.open
      ensures IsOrder(order, messages) && BatchDealt(cfg, old(rdb.State()), rdb.State(), messages, luck)
    {
      var todo := messages;
      s', order := s, [];
      NothingProcessed(cfg, s0, before, s, messages, name, luck);
      while todo != {}
        invariant s'.broker == rdb.State() && Processed(cfg, s0, before, s, order, s', messages, todo, name, luck)
        decreases todo
      {
        var t :| t in todo;
        BatchBegun(s0, s', todo, name);
        ghost var earlier := s';
        s' := Process(t, luck(t), s');
        ProcessedOneMore(cfg, s0, before, s, order, earlier, messages, todo, name, luck, t, s');
        order := order + [t];
        todo := todo - {t};
      }
      AllProcessed(cfg, s0, before, s, order, s', messages, name, luck);
    }
  }

  lemma OneStep(cfg: Config, s: State, a: Action)
    ensures From(cfg, s, [a]) == Step(cfg, s, a)
  {
    assert [a][..0] == [];
  }

  lemma FromScript(cfg: Config, s: State, t: Ticket, luck: Luck)
    ensures var c := Script(t, luck);
            From(cfg, s, c) == Step(cfg, Step(cfg, Step(cfg, Step(cfg, Step(cfg, s, c[0]), c[1]), c[2]), c[3]), c[4])
  {
    var c := Script(t, luck);
    FromMore(cfg, s, [], c[0]);
    FromMore(cfg, s, c[..1], c[1]);
    FromMore(cfg, s, c[..2], c[2]);
    FromMore(cfg, s, c[..3], c[3]);
    FromMore(cfg, s, c[..4], c[4]);
    assert [] + [c[0]] == c[..1] && c[..1] + [c[1]] == c[..2] && c[..2] + [c[2]] == c[..3];
    assert c[..3] + [c[3]] == c[..4] && c[..4] + [c[4]] == c;
  }
}
