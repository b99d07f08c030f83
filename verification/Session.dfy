/**
 A client's session store together with the server it talks to. Between two suspension points the
 client's code runs undisturbed, so each stretch of it is one step; replies may be lost, and other
 devices use the server meanwhile, but not this client's tokens.
 */
module Session {
  import opened Auth
  import opened Wrappers

  /** A refresh request somebody waits for: on its way, or answered. */
  datatype Flight = Sent(presented: Secret) | Answered(presented: Secret, reply: Result<Secret, Error>)

  /** `busy` is whether a refresh task is remembered; `held` are the tokens this client was given. */
  datatype World = World(server: Server, tokens: Option<Secret>, busy: bool, flights: seq<Flight>, held: set<Secret>)

  datatype Event =
    | SignIn(user: UserId, secret: Secret)
    | Want
    | Serve(flight: nat, secret: Secret, fails: bool)
    | Deliver(flight: nat)
    | Lose(flight: nat, handled: bool, secret: Secret)
    | SendLogout
    | ClearLocal
    | Others(action: Action)

  /** What one call to the store's refresh does at once. */
  datatype Wanted = Join | Nothing | Start(presented: Secret)

  function WantedNow(tokens: Option<Secret>, busy: bool): Wanted {
    if busy then Join else if tokens.None? then Nothing else Start(tokens.value)
  }

  predicate PresentsHeld(a: Action, held: set<Secret>) {
    match a
    case Refresh(p, _, _) => p in held
    case Logout(p) => p in held
    case _ => false
  }

  predicate EventPossible(w: World, e: Event) {
    match e
    case SignIn(_, secret) => secret !in w.server.drawn
    case Serve(i, secret, _) => i < |w.flights| && w.flights[i].Sent? && secret !in w.server.drawn
    case Deliver(i) => i < |w.flights| && w.flights[i].Answered?
    case Lose(i, _, secret) => i < |w.flights| && secret !in w.server.drawn
    case Others(a) => Possible(w.server, a) && !PresentsHeld(a, w.held)
    case _ => true
  }

  function Without(flights: seq<Flight>, i: nat): seq<Flight>
    requires i < |flights|
  {
    flights[..i] + flights[i + 1..]
  }

  function Adopted(w: World, r: Result<Secret, Error>): World {
    if r.Ok? then w.(tokens := Some(r.value), held := w.held + {r.value}) else w
  }

  function Happened(cfg: Config, w: World, e: Event): World
    requires EventPossible(w, e)
  {
    match e
    case SignIn(user, secret) =>
      var (server, r) := SignedIn(cfg, w.server, user, secret);
      Adopted(w.(server := server), r)
    case Want =>
      var wanted := WantedNow(w.tokens, w.busy);
      if wanted.Start? then w.(busy := true, flights := w.flights + [Sent(wanted.presented)]) else w
    case Serve(i, secret, fails) =>
      var (server, r) := Refreshed(cfg, w.server, w.flights[i].presented, secret, fails);
      w.(server := server, flights := w.flights[i := Answered(w.flights[i].presented, r)],
         held := if r.Ok? then w.held + {r.value} else w.held)
    case Deliver(i) => Adopted(w, w.flights[i].reply).(busy := false, flights := Without(w.flights, i))
    case Lose(i, handled, secret) =>
      var server := if handled && w.flights[i].Sent? then Refreshed(cfg, w.server, w.flights[i].presented, secret, false).0 else w.server;
      w.(server := server, busy := false, flights := Without(w.flights, i))
    case SendLogout => if w.tokens.Some? then w.(server := LoggedOut(w.server, w.tokens.value)) else w
    case ClearLocal => w.(tokens := None)
    case Others(a) => w.(server := Step(cfg, w.server, a))
  }

  predicate PossibleEvents(cfg: Config, w: World, run: seq<Event>)
    decreases |run|
  {
    run == [] || (EventPossible(w, run[0]) && PossibleEvents(cfg, Happened(cfg, w, run[0]), run[1..]))
  }

  function Finally(cfg: Config, w: World, run: seq<Event>): World
    requires PossibleEvents(cfg, w, run)
    decreases |run|
  {
    if run == [] then w else Finally(cfg, Happened(cfg, w, run[0]), run[1..])
  }

  function Installed(server: Server): World {
    World(server, None, false, [], {})
  }

  // ---- coalescing ----

  predicate Coalesced(w: World) {
    |w.flights| == if w.busy then 1 else 0
  }

  /** However many callers want a refresh and whatever is lost, two are never in flight. */
  lemma {:induction false} NeverTwoInFlight(cfg: Config, w: World, run: seq<Event>)
    requires Coalesced(w) && PossibleEvents(cfg, w, run)
    ensures Coalesced(Finally(cfg, w, run)) && |Finally(cfg, w, run).flights| <= 1
    decreases |run|
  {
    if run != [] {
      NeverTwoInFlight(cfg, Happened(cfg, w, run[0]), run[1..]);
    }
  }

  // ---- what is presented ----

  /** No reply is lost, and no exchange breaks off after the old token was revoked. */
  predicate Calm(e: Event) {
    !e.Lose? && !(e.Serve? && e.fails)
  }

  predicate Unspent(s: Server, secret: Secret) {
    secret in s.drawn && secret !in s.exchanged
  }

  predicate AnsweredFor(w: World, secret: Secret) {
    exists i :: 0 <= i < |w.flights| && w.flights[i].Answered? && w.flights[i].presented == secret
  }

  ghost predicate Honest(w: World) {
    && Sound(w.server) && Coalesced(w)
    && (w.tokens.Some? ==> w.tokens.value in w.held && (Unspent(w.server, w.tokens.value) || AnsweredFor(w, w.tokens.value)))
    && (forall i | 0 <= i < |w.flights| :: FlightHonest(w, w.flights[i]))
  }

  predicate FlightHonest(w: World, f: Flight) {
    && f.presented in w.held
    && (f.Sent? ==> Unspent(w.server, f.presented))
    && (f.Answered? && f.reply.Ok? ==> f.reply.value in w.held && Unspent(w.server, f.reply.value))
    && (f.Answered? && f.reply.Err? ==> Unspent(w.server, f.presented))
  }

  lemma ServerStep(cfg: Config, s: Server, a: Action)
    requires Sound(s) && Possible(s, a)
    ensures Sound(Step(cfg, s, a))
    ensures forall k | Unspent(s, k) && !(a.Refresh? && a.presented == k) :: Unspent(Step(cfg, s, a), k)
  {
    TokensStaySound(cfg, s, a);
    ExchangesStaySound(cfg, s, a);
    LinksStaySound(cfg, s, a);
  }

  lemma ServedHonestly(cfg: Config, w: World, i: nat, secret: Secret)
    requires Honest(w) && EventPossible(w, Serve(i, secret, false))
    ensures Honest(Happened(cfg, w, Serve(i, secret, false)))
  {
    var p := w.flights[i].presented;
    assert FlightHonest(w, w.flights[i]);
    assert Step(cfg, w.server, Refresh(p, secret, false)) == Refreshed(cfg, w.server, p, secret, false).0;
    ServerStep(cfg, w.server, Refresh(p, secret, false));
    var w' := Happened(cfg, w, Serve(i, secret, false));
    assert w'.flights[i].Answered?;
    assert w.tokens.Some? ==> !AnsweredFor(w, w.tokens.value);
  }

  /** A step of the server that presents no token of a flight keeps the client honest. */
  lemma HonestUnder(w: World, w': World)
    requires Honest(w) && Sound(w'.server) && w' == w.(server := w'.server)
    requires forall k | Unspent(w.server, k) :: Unspent(w'.server, k)
    ensures Honest(w')
  {
    forall i | 0 <= i < |w'.flights| ensures FlightHonest(w', w'.flights[i]) {
      assert FlightHonest(w, w.flights[i]);
    }
    assert forall k :: AnsweredFor(w, k) ==> AnsweredFor(w', k);
  }

  lemma SignedInHonestly(cfg: Config, w: World, user: UserId, secret: Secret)
    requires Honest(w) && EventPossible(w, Event.SignIn(user, secret))
    ensures Honest(Happened(cfg, w, Event.SignIn(user, secret)))
  {
    var (server, r) := SignedIn(cfg, w.server, user, secret);
    assert server == Step(cfg, w.server, Auth.SignIn(user, secret));
    ServerStep(cfg, w.server, Auth.SignIn(user, secret));
    HonestUnder(w, w.(server := server));
    ExchangedWereDrawn(w.server, secret);
    if r.Ok? {
      AdoptedHonestly(w.(server := server), secret);
    }
  }

  lemma AdoptedHonestly(w: World, secret: Secret)
    requires Honest(w) && Unspent(w.server, secret)
    ensures Honest(w.(tokens := Some(secret), held := w.held + {secret}))
  {
    var w' := w.(tokens := Some(secret), held := w.held + {secret});
    forall i | 0 <= i < |w'.flights| ensures FlightHonest(w', w'.flights[i]) {
      assert FlightHonest(w, w.flights[i]);
    }
  }

  lemma StaysHonest(cfg: Config, w: World, e: Event)
    requires Honest(w) && EventPossible(w, e) && Calm(e)
    ensures Honest(Happened(cfg, w, e))
  {
    match e
    case SignIn(user, secret) => SignedInHonestly(cfg, w, user, secret);
    case Serve(i, secret, _) => ServedHonestly(cfg, w, i, secret);
    case Deliver(i) => assert FlightHonest(w, w.flights[i]);
    case SendLogout =>
      if w.tokens.Some? {
        ServerStep(cfg, w.server, Logout(w.tokens.value));
        HonestUnder(w, Happened(cfg, w, e));
      }
    case Others(a) =>
      ServerStep(cfg, w.server, a);
      OthersSpendNothing(cfg, w, a);
    case _ =>
  }

  lemma OthersSpendNothing(cfg: Config, w: World, a: Action)
    requires Honest(w) && EventPossible(w, Others(a))
    requires Sound(Step(cfg, w.server, a))
    requires forall k | Unspent(w.server, k) && !(a.Refresh? && a.presented == k) :: Unspent(Step(cfg, w.server, a), k)
    ensures Honest(Happened(cfg, w, Others(a)))
  {
    var w' := w.(server := Step(cfg, w.server, a));
    forall i | 0 <= i < |w'.flights| ensures FlightHonest(w', w'.flights[i]) {
      assert FlightHonest(w, w.flights[i]);
    }
    assert forall k :: AnsweredFor(w, k) ==> AnsweredFor(w', k);
  }

  lemma ExchangedWereDrawn(s: Server, secret: Secret)
    requires Sound(s) && secret !in s.drawn
    ensures secret !in s.exchanged
  {
  }

  lemma {:induction false} RunsAreHonest(cfg: Config, w: World, run: seq<Event>)
    requires Honest(w) && PossibleEvents(cfg, w, run) && forall e | e in run :: Calm(e)
    ensures Honest(Finally(cfg, w, run))
    decreases |run|
  {
    if run != [] {
      assert run[0] in run && forall e | e in run[1..] :: e in run;
      StaysHonest(cfg, w, run[0]);
      RunsAreHonest(cfg, Happened(cfg, w, run[0]), run[1..]);
    }
  }

  /** Unless a reply is lost, the client never presents a token that was accepted before. */
  lemma EachRefreshPresentsAnUnspentToken(cfg: Config, server: Server, run: seq<Event>, i: nat)
    requires Sound(server) && PossibleEvents(cfg, Installed(server), run) && forall e | e in run :: Calm(e)
    requires i < |Finally(cfg, Installed(server), run).flights| && Finally(cfg, Installed(server), run).flights[i].Sent?
    ensures var w := Finally(cfg, Installed(server), run); Unspent(w.server, w.flights[i].presented)
  {
    RunsAreHonest(cfg, Installed(server), run);
    var w := Finally(cfg, Installed(server), run);
    assert FlightHonest(w, w.flights[i]);
  }

  /** Neither does the session end: nobody signs this client out and nobody resets its users'
      passwords. Tokens may still expire and users be deactivated. */
  predicate Gentle(e: Event, owners: set<UserId>) {
    && Calm(e) && !e.SendLogout?
    && (e.SignIn? ==> e.user in owners)
    && (e.Others? && e.action.Reset? ==> e.action.link.user !in owners)
  }

  /** Neither exchanged nor ended; gone only after it expired. */
  predicate Intact(s: Server, secret: Secret) {
    && secret in s.drawn
    && (secret in s.tokens ==> s.tokens[secret].status == Live && s.tokens[secret].expiresAt == s.drawn[secret])
    && (secret !in s.tokens ==> s.drawn[secret] < s.now)
  }

  ghost predicate Kept(w: World, owners: set<UserId>) {
    && Honest(w)
    && (forall k | k in w.held :: k in w.server.drawn && (k in w.server.tokens ==> w.server.tokens[k].user in owners))
    && (w.tokens.Some? ==> Intact(w.server, w.tokens.value) || AnsweredFor(w, w.tokens.value))
    && (forall i | 0 <= i < |w.flights| :: FlightKept(w, w.flights[i]))
  }

  predicate FlightKept(w: World, f: Flight) {
    && (f.Sent? ==> Intact(w.server, f.presented))
    && (f.Answered? && f.reply.Ok? ==> Intact(w.server, f.reply.value))
    && (f.Answered? && f.reply.Err? ==> Intact(w.server, f.presented))
  }

  /** A token never changes hands. */
  lemma HeldKeepsUser(cfg: Config, s: Server, a: Action, k: Secret)
    requires Possible(s, a) && k in s.drawn
    ensures k in Step(cfg, s, a).drawn
    ensures k in Step(cfg, s, a).tokens ==> k in s.tokens && s.tokens[k].user == Step(cfg, s, a).tokens[k].user
  {
  }

  lemma IntactStep(cfg: Config, s: Server, a: Action, secret: Secret)
    requires Sound(s) && Possible(s, a) && Intact(s, secret)
    requires !(a.Refresh? && a.presented == secret) && !(a.Logout? && a.presented == secret)
    requires a.Reset? && secret in s.tokens ==> a.link.user != s.tokens[secret].user
    ensures Intact(Step(cfg, s, a), secret)
  {
  }

  lemma KeptOthers(cfg: Config, w: World, owners: set<UserId>, a: Action)
    requires Kept(w, owners) && EventPossible(w, Others(a)) && Gentle(Others(a), owners)
    ensures Kept(Happened(cfg, w, Others(a)), owners)
  {
    var w' := Happened(cfg, w, Others(a));
    StaysHonest(cfg, w, Others(a));
    forall k | k in w.held ensures Intact(w.server, k) ==> Intact(w'.server, k) {
      if Intact(w.server, k) {
        IntactStep(cfg, w.server, a, k);
      }
    }
    forall k | k in w.held ensures k in w'.server.drawn && (k in w'.server.tokens ==> w'.server.tokens[k].user in owners) {
      HeldKeepsUser(cfg, w.server, a, k);
    }
    forall i | 0 <= i < |w.flights| ensures FlightKept(w', w'.flights[i]) {
      assert FlightHonest(w, w.flights[i]) && FlightKept(w, w.flights[i]);
    }
  }

  lemma KeptSignIn(cfg: Config, w: World, owners: set<UserId>, user: UserId, secret: Secret)
    requires Kept(w, owners) && EventPossible(w, Event.SignIn(user, secret)) && user in owners
    ensures Kept(Happened(cfg, w, Event.SignIn(user, secret)), owners)
  {
    var w' := Happened(cfg, w, Event.SignIn(user, secret));
    StaysHonest(cfg, w, Event.SignIn(user, secret));
    forall i | 0 <= i < |w.flights| ensures FlightKept(w', w'.flights[i]) {
      assert FlightHonest(w, w.flights[i]) && FlightKept(w, w.flights[i]);
    }
  }

  /** Serving a refresh spends the token presented and no other. */
  lemma OthersStayIntact(cfg: Config, w: World, w': World, p: Secret, secret: Secret)
    requires Honest(w) && Possible(w.server, Refresh(p, secret, false)) && w'.server == Step(cfg, w.server, Refresh(p, secret, false))
    ensures forall k | k in w.held && k != p && Intact(w.server, k) :: Intact(w'.server, k)
  {
    forall k | k in w.held && k != p && Intact(w.server, k) ensures Intact(w'.server, k) {
      IntactStep(cfg, w.server, Refresh(p, secret, false), k);
    }
  }

  lemma KeptServe(cfg: Config, w: World, owners: set<UserId>, i: nat, secret: Secret)
    requires Kept(w, owners) && EventPossible(w, Serve(i, secret, false))
    ensures Kept(Happened(cfg, w, Serve(i, secret, false)), owners)
  {
    var w', p := Happened(cfg, w, Serve(i, secret, false)), w.flights[i].presented;
    StaysHonest(cfg, w, Serve(i, secret, false));
    assert FlightHonest(w, w.flights[i]) && FlightKept(w, w.flights[i]);
    OthersStayIntact(cfg, w, w', p, secret);
    KeptAnswer(cfg, w, w', owners, i, secret);
  }

  lemma KeptAnswer(cfg: Config, w: World, w': World, owners: set<UserId>, i: nat, secret: Secret)
    requires Kept(w, owners) && EventPossible(w, Serve(i, secret, false)) && w' == Happened(cfg, w, Serve(i, secret, false))
    requires FlightHonest(w, w.flights[i]) && FlightKept(w, w.flights[i]) && Honest(w')
    requires forall k | k in w.held && k != w.flights[i].presented && Intact(w.server, k) :: Intact(w'.server, k)
    ensures Kept(w', owners)
  {
    assert w'.flights[i].Answered? && w'.flights[i].presented == w.flights[i].presented;
    assert w.tokens.Some? ==> !AnsweredFor(w, w.tokens.value);
  }

  lemma StaysKept(cfg: Config, w: World, owners: set<UserId>, e: Event)
    requires Kept(w, owners) && EventPossible(w, e) && Gentle(e, owners)
    ensures Kept(Happened(cfg, w, e), owners)
  {
    match e
    case SignIn(user, secret) => KeptSignIn(cfg, w, owners, user, secret);
    case Serve(i, secret, _) => KeptServe(cfg, w, owners, i, secret);
    case Others(a) => KeptOthers(cfg, w, owners, a);
    case Deliver(i) =>
      StaysHonest(cfg, w, e);
      assert FlightHonest(w, w.flights[i]) && FlightKept(w, w.flights[i]);
    case Want => StaysHonest(cfg, w, e);
    case ClearLocal => StaysHonest(cfg, w, e);
  }

  lemma {:induction false} RunsAreKept(cfg: Config, w: World, owners: set<UserId>, run: seq<Event>)
    requires Kept(w, owners) && PossibleEvents(cfg, w, run) && forall e | e in run :: Gentle(e, owners)
    ensures Kept(Finally(cfg, w, run), owners)
    decreases |run|
  {
    if run != [] {
      assert run[0] in run && forall e | e in run[1..] :: e in run;
      StaysKept(cfg, w, owners, run[0]);
      RunsAreKept(cfg, Happened(cfg, w, run[0]), owners, run[1..]);
    }
  }

  /** Without sign-out, reset or lost replies, whatever other devices do, each refresh presents a
      usable token until it expires, and is granted to an active user. */
  lemma EachRefreshPresentsAUsableToken(cfg: Config, server: Server, owners: set<UserId>, run: seq<Event>, i: nat, secret: Secret)
    requires Sound(server) && PossibleEvents(cfg, Installed(server), run) && forall e | e in run :: Gentle(e, owners)
    requires i < |Finally(cfg, Installed(server), run).flights| && Finally(cfg, Installed(server), run).flights[i].Sent?
    ensures var w := Finally(cfg, Installed(server), run);
            var p := w.flights[i].presented;
            && p in w.server.drawn
            && (w.server.now < w.server.drawn[p] ==> p in w.server.tokens && w.server.tokens[p].IsUsable(w.server.now))
            && (w.server.now < w.server.drawn[p] && Known(w.server, w.server.tokens[p].user) && w.server.users[w.server.tokens[p].user].active
                ==> Refreshed(cfg, w.server, p, secret, false).1 == Ok(secret))
  {
    RunsAreKept(cfg, Installed(server), owners, run);
    var w := Finally(cfg, Installed(server), run);
    assert FlightKept(w, w.flights[i]);
  }

  // ---- when a cleared client stays without tokens ----

  /** What an event is to the server. */
  function ServerAction(w: World, e: Event): Option<Action>
    requires EventPossible(w, e)
  {
    match e
    case SignIn(user, secret) => Some(Action.SignIn(user, secret))
    case Serve(i, secret, fails) => Some(Refresh(w.flights[i].presented, secret, fails))
    case Lose(i, handled, secret) => if handled && w.flights[i].Sent? then Some(Refresh(w.flights[i].presented, secret, false)) else None
    case SendLogout => if w.tokens.Some? then Some(Logout(w.tokens.value)) else None
    case Others(a) => Some(a)
    case _ => None
  }

  lemma EventIsAction(cfg: Config, w: World, e: Event)
    requires EventPossible(w, e)
    ensures var a := ServerAction(w, e);
            if a.None? then Happened(cfg, w, e).server == w.server
            else Possible(w.server, a.value) && Happened(cfg, w, e).server == Step(cfg, w.server, a.value)
  {
  }

  /** The server knows every token this client deals with, and the owner of every token. */
  ghost predicate Traceable(w: World) {
    && Sound(w.server) && (forall k | k in w.held :: k in w.server.drawn)
    && HaveOwners(w.server) && (w.tokens.Some? ==> w.tokens.value in w.held)
    && (forall i | 0 <= i < |w.flights| :: FlightTraceable(w, w.flights[i]))
  }

  predicate FlightTraceable(w: World, f: Flight) {
    f.presented in w.held && (f.Answered? && f.reply.Ok? ==> f.reply.value in w.held)
  }

  ghost predicate HaveOwners(s: Server) {
    forall k | k in s.tokens :: s.tokens[k].user in s.users
  }

  lemma OwnersStay(cfg: Config, s: Server, a: Action)
    requires HaveOwners(s)
    ensures HaveOwners(Step(cfg, s, a))
  {
  }

  lemma ServerStaysTraceable(cfg: Config, s: Server, a: Action, held: set<Secret>)
    requires Sound(s) && Possible(s, a) && HaveOwners(s) && forall k | k in held :: k in s.drawn
    ensures var s' := Step(cfg, s, a); Sound(s') && HaveOwners(s') && forall k | k in held :: k in s'.drawn
  {
    ServerStep(cfg, s, a);
    OwnersStay(cfg, s, a);
    forall k | k in held ensures k in Step(cfg, s, a).drawn {
      HeldKeepsUser(cfg, s, a, k);
    }
  }

  lemma GrantIsDrawn(cfg: Config, s: Server, presented: Secret, secret: Secret, fails: bool)
    ensures var (s', r) := Refreshed(cfg, s, presented, secret, fails); r.Ok? ==> r.value == secret && secret in s'.drawn
  {
  }

  lemma StaysTraceable(cfg: Config, w: World, e: Event)
    requires Traceable(w) && EventPossible(w, e)
    ensures Traceable(Happened(cfg, w, e))
  {
    var w' := Happened(cfg, w, e);
    EventIsAction(cfg, w, e);
    if ServerAction(w, e).Some? {
      ServerStaysTraceable(cfg, w.server, ServerAction(w, e).value, w.held);
    }
    if e.Serve? {
      GrantIsDrawn(cfg, w.server, w.flights[e.flight].presented, e.secret, e.fails);
    }
    forall i | 0 <= i < |w'.flights| ensures FlightTraceable(w', w'.flights[i]) {
      FlightsOf(cfg, w, e, i);
    }
    if e.Deliver? {
      assert FlightTraceable(w, w.flights[e.flight]);
    }
  }

  /** Where the flights after an event come from. */
  lemma FlightsOf(cfg: Config, w: World, e: Event, i: nat)
    requires EventPossible(w, e) && i < |Happened(cfg, w, e).flights|
    ensures var (w', f) := (Happened(cfg, w, e), Happened(cfg, w, e).flights[i]);
            || (exists j :: 0 <= j < |w.flights| && w.flights[j] == f)
            || (e.Want? && w.tokens.Some? && f == Sent(w.tokens.value))
            || (e.Serve? && f == Answered(w.flights[e.flight].presented,
                                          Refreshed(cfg, w.server, w.flights[e.flight].presented, e.secret, e.fails).1))
  {
    if e.Deliver? || e.Lose? {
      var j := if i < e.flight then i else i + 1;
      assert w.flights[j] == Happened(cfg, w, e).flights[i];
    } else if i < |w.flights| && !(e.Serve? && e.flight == i) {
      assert w.flights[i] == Happened(cfg, w, e).flights[i];
    }
  }

  lemma {:induction false} RunsAreTraceable(cfg: Config, w: World, run: seq<Event>)
    requires Traceable(w) && PossibleEvents(cfg, w, run)
    ensures Traceable(Finally(cfg, w, run))
    decreases |run|
  {
    if run != [] {
      StaysTraceable(cfg, w, run[0]);
      RunsAreTraceable(cfg, Happened(cfg, w, run[0]), run[1..]);
    }
  }

  /** A token that can never be exchanged again. */
  predicate Dead(s: Server, secret: Secret) {
    secret in s.tokens ==>
      var t := s.tokens[secret];
      t.status != Live || t.expiresAt <= s.now || (t.user in s.users && s.users[t.user].deleted)
  }

  /** A refresh on its way that can still bring tokens: it was granted, or its token is alive. */
  predicate Hopeful(w: World, f: Flight) {
    if f.Answered? then f.reply.Ok? else !Dead(w.server, f.presented)
  }

  predicate Hopeless(w: World) {
    forall i | 0 <= i < |w.flights| :: !Hopeful(w, w.flights[i])
  }

  lemma DeadStaysDead(cfg: Config, s: Server, a: Action, secret: Secret)
    requires Possible(s, a) && secret in s.drawn && Dead(s, secret)
    ensures Dead(Step(cfg, s, a), secret)
  {
  }

  lemma DeadIsRefused(cfg: Config, s: Server, presented: Secret, secret: Secret, fails: bool)
    requires Dead(s, presented)
    ensures Refreshed(cfg, s, presented, secret, fails).1.Err?
  {
  }

  lemma HopelessStep(cfg: Config, w: World, e: Event)
    requires Traceable(w) && EventPossible(w, e) && w.tokens.None? && Hopeless(w) && !e.SignIn?
    ensures Happened(cfg, w, e).tokens.None? && Hopeless(Happened(cfg, w, e))
  {
    var w' := Happened(cfg, w, e);
    if e.Serve? {
      DeadIsRefused(cfg, w.server, w.flights[e.flight].presented, e.secret, e.fails);
    }
    if e.Deliver? {
      assert !Hopeful(w, w.flights[e.flight]);
    }
    forall i | 0 <= i < |w'.flights| ensures !Hopeful(w', w'.flights[i]) {
      FlightsOf(cfg, w, e, i);
      if j :| 0 <= j < |w.flights| && w.flights[j] == w'.flights[i] {
        assert FlightTraceable(w, w.flights[j]) && !Hopeful(w, w.flights[j]);
        StaysHopeless(cfg, w, e, w.flights[j]);
      }
    }
  }

  lemma StaysHopeless(cfg: Config, w: World, e: Event, f: Flight)
    requires Traceable(w) && EventPossible(w, e) && FlightTraceable(w, f) && !Hopeful(w, f)
    ensures !Hopeful(Happened(cfg, w, e), f)
  {
    EventIsAction(cfg, w, e);
    if f.Sent? && ServerAction(w, e).Some? {
      DeadStaysDead(cfg, w.server, ServerAction(w, e).value, f.presented);
    }
  }

  /** Nobody signs in. */
  predicate NoSignIn(run: seq<Event>) {
    forall e | e in run :: !e.SignIn?
  }

  /** A client that has been cleared stays without tokens until somebody signs in, whatever happens, if
      no refresh that was on its way can still bring any; in particular if none was on its way. */
  lemma {:induction false} ClearedStaysCleared(cfg: Config, w: World, run: seq<Event>)
    requires Traceable(w) && w.tokens.None? && Hopeless(w)
    requires PossibleEvents(cfg, w, run) && NoSignIn(run)
    ensures Finally(cfg, w, run).tokens.None?
    decreases |run|
  {
    if run != [] {
      assert run[0] in run && forall e | e in run[1..] :: e in run;
      StaysTraceable(cfg, w, run[0]);
      HopelessStep(cfg, w, run[0]);
      ClearedStaysCleared(cfg, Happened(cfg, w, run[0]), run[1..]);
    }
  }

  /** And only if: any other can get tokens back without a sign-in. */
  lemma ClearedComesBack(cfg: Config, w: World, i: nat, secret: Secret) returns (run: seq<Event>)
    requires Traceable(w) && i < |w.flights| && Hopeful(w, w.flights[i]) && secret !in w.server.drawn
    ensures PossibleEvents(cfg, w, run) && |run| <= 3 && NoSignIn(run)
    ensures Finally(cfg, w, run).tokens.Some?
  {
    var f := w.flights[i];
    if f.Answered? {
      run := [Deliver(i)];
      RunOfOne(cfg, w, Deliver(i));
    } else {
      var user := w.server.tokens[f.presented].user;
      var activate := Others(SetActive(user, true));
      var w1 := Happened(cfg, w, activate);
      var w2 := Happened(cfg, w1, Serve(i, secret, false));
      assert w2.flights[i] == Answered(f.presented, Ok(secret));
      RunOfOne(cfg, w2, Deliver(i));
      RunOfTwo(cfg, w1, Serve(i, secret, false), [Deliver(i)]);
      RunOfTwo(cfg, w, activate, [Serve(i, secret, false)] + [Deliver(i)]);
      run := [activate] + ([Serve(i, secret, false)] + [Deliver(i)]);
    }
  }

  lemma {:induction false} UnusedAmong(taken: set<Secret>) returns (secret: Secret)
    ensures forall t | t in taken :: t < secret
  {
    secret := 0;
    if taken != {} {
      var t :| t in taken;
      var above := UnusedAmong(taken - {t});
      secret := if t < above then above else t + 1;
      assert forall u | u in taken :: u == t || u in taken - {t};
    }
  }

  /** So a client without tokens, whatever has happened since it was installed, stays without until the
      next sign-in if and only if no refresh on its way can still bring any. */
  lemma ClearedForGoodIffHopeless(cfg: Config, server: Server, run: seq<Event>)
    requires Sound(server) && HaveOwners(server) && PossibleEvents(cfg, Installed(server), run)
    requires Finally(cfg, Installed(server), run).tokens.None?
    ensures var w := Finally(cfg, Installed(server), run);
            Hopeless(w) <==> forall more | PossibleEvents(cfg, w, more) && NoSignIn(more) :: Finally(cfg, w, more).tokens.None?
  {
    var w := Finally(cfg, Installed(server), run);
    RunsAreTraceable(cfg, Installed(server), run);
    if Hopeless(w) {
      forall more | PossibleEvents(cfg, w, more) && NoSignIn(more) ensures Finally(cfg, w, more).tokens.None? {
        ClearedStaysCleared(cfg, w, more);
      }
    } else {
      var i: nat :| i < |w.flights| && Hopeful(w, w.flights[i]);
      var secret := UnusedAmong(w.server.drawn.Keys);
      var more := ClearedComesBack(cfg, w, i, secret);
      assert PossibleEvents(cfg, w, more) && NoSignIn(more);
    }
  }

  /** A sign-out with no refresh on its way lasts: the token it presented is over on the server, and the
      client has none until the next sign-in, whatever happens. */
  lemma ASignOutLasts(cfg: Config, w: World, p: Secret, run: seq<Event>)
    requires Traceable(w) && w.tokens == Some(p) && w.flights == []
    requires PossibleEvents(cfg, Happened(cfg, Happened(cfg, w, SendLogout), ClearLocal), run) && NoSignIn(run)
    ensures var w1 := Happened(cfg, Happened(cfg, w, SendLogout), ClearLocal);
            IsOver(w1.server, p) && Finally(cfg, w1, run).tokens.None?
  {
    var w0 := Happened(cfg, w, SendLogout);
    StaysTraceable(cfg, w, SendLogout);
    StaysTraceable(cfg, w0, ClearLocal);
    ClearedStaysCleared(cfg, Happened(cfg, w0, ClearLocal), run);
  }

  lemma RunOfOne(cfg: Config, w: World, e: Event)
    requires EventPossible(w, e)
    ensures PossibleEvents(cfg, w, [e]) && Finally(cfg, w, [e]) == Happened(cfg, w, e)
  {
    RunOfTwo(cfg, w, e, []);
    assert [e] + [] == [e];
  }

  lemma RunOfTwo(cfg: Config, w: World, e: Event, rest: seq<Event>)
    requires EventPossible(w, e) && PossibleEvents(cfg, Happened(cfg, w, e), rest)
    ensures PossibleEvents(cfg, w, [e] + rest) && Finally(cfg, w, [e] + rest) == Finally(cfg, Happened(cfg, w, e), rest)
  {
    assert ([e] + rest)[0] == e && ([e] + rest)[1..] == rest;
  }

  /** A client in use, with a refresh already answered, signs out; then the answer comes in, and it has
      tokens that the server honours. */
  lemma SignOutIsUndone(cfg: Config, w: World, p: Secret, secret: Secret) returns (run: seq<Event>)
    requires Traceable(w) && w.tokens == Some(p) && !w.busy && w.flights == [] && cfg.refreshTtl > 0 && secret !in w.server.drawn
    requires p in w.server.tokens && w.server.tokens[p].IsUsable(w.server.now)
    requires Known(w.server, w.server.tokens[p].user) && w.server.users[w.server.tokens[p].user].active
    ensures run == [Want, Serve(0, secret, false), SendLogout, ClearLocal, Deliver(0)] && PossibleEvents(cfg, w, run)
    ensures var w' := Finally(cfg, w, run);
            w'.tokens == Some(secret) && secret in w'.server.tokens && w'.server.tokens[secret].IsUsable(w'.server.now)
  {
    var w1 := Happened(cfg, w, Want);
    var w2 := RefreshAnswered(cfg, w1, p, secret);
    SignsOutTooEarly(cfg, w2, p, secret);
    RunOfTwo(cfg, w1, Serve(0, secret, false), [SendLogout] + ([ClearLocal] + [Deliver(0)]));
    RunOfTwo(cfg, w, Want, [Serve(0, secret, false)] + ([SendLogout] + ([ClearLocal] + [Deliver(0)])));
    run := [Want] + ([Serve(0, secret, false)] + ([SendLogout] + ([ClearLocal] + [Deliver(0)])));
  }

  lemma RefreshAnswered(cfg: Config, w: World, p: Secret, secret: Secret) returns (w': World)
    requires w.tokens == Some(p) && w.flights == [Sent(p)] && cfg.refreshTtl > 0 && secret !in w.server.drawn
    requires p in w.server.tokens && w.server.tokens[p].IsUsable(w.server.now) && p in w.server.drawn
    requires Known(w.server, w.server.tokens[p].user) && w.server.users[w.server.tokens[p].user].active
    ensures EventPossible(w, Serve(0, secret, false)) && w' == Happened(cfg, w, Serve(0, secret, false))
    ensures w'.tokens == Some(p) && w'.flights == [Answered(p, Ok(secret))] && p != secret
    ensures secret in w'.server.tokens && w'.server.tokens[secret].IsUsable(w'.server.now)
  {
    w' := Happened(cfg, w, Serve(0, secret, false));
  }

  lemma SignsOutTooEarly(cfg: Config, w: World, p: Secret, secret: Secret)
    requires w.tokens == Some(p) && w.flights == [Answered(p, Ok(secret))] && p != secret
    requires secret in w.server.tokens && w.server.tokens[secret].IsUsable(w.server.now)
    ensures var run := [SendLogout] + ([ClearLocal] + [Deliver(0)]);
            && PossibleEvents(cfg, w, run) && Finally(cfg, w, run).tokens == Some(secret)
            && secret in Finally(cfg, w, run).server.tokens
            && Finally(cfg, w, run).server.tokens[secret].IsUsable(Finally(cfg, w, run).server.now)
  {
    var w1 := Happened(cfg, w, SendLogout);
    var w2 := Happened(cfg, w1, ClearLocal);
    RunOfOne(cfg, w2, Deliver(0));
    RunOfTwo(cfg, w1, ClearLocal, [Deliver(0)]);
    RunOfTwo(cfg, w, SendLogout, [ClearLocal] + [Deliver(0)]);
  }

  // ---- the client's code ----

  /** The store's methods, each up to its next suspension point. */
  class SessionStore {
    var tokens: Option<Secret>
    var busy: bool

    constructor ()
      ensures tokens == None && !busy
    {
      tokens, busy := None, false;
    }

    method Adopt(refresh: Secret)
      modifies this`tokens
      ensures tokens == Some(refresh)
    {
      tokens := Some(refresh);
    }

    method ClearLocal()
      modifies this`tokens
      ensures tokens == None
    {
      tokens := None;
    }

    /** A caller either joins the refresh in flight, has nothing to refresh, or starts one. */
    method RefreshAccessToken() returns (wanted: Wanted)
      modifies this`busy
      ensures wanted == WantedNow(tokens, old(busy))
      ensures busy == (old(busy) || wanted.Start?)
    {
      if busy {
        return Join;
      }
      if tokens.None? {
        return Nothing;
      }
      busy := true;
      return Start(tokens.value);
    }

    /** The refresh ends: the new tokens are adopted, or the refresh has failed. */
    method RefreshEnded(reply: Result<Secret, Error>) returns (ok: bool)
      modifies this
      ensures ok == reply.Ok? && !busy
      ensures tokens == if reply.Ok? then Some(reply.value) else old(tokens)
    {
      if reply.Ok? {
        Adopt(reply.value);
      }
      busy := false;
      return reply.Ok?;
    }

    method HandleAuthenticationLost()
      modifies this`tokens
      ensures tokens == None
    {
      ClearLocal();
    }
  }

  datatype Response = Success | Unauthorized | OtherFailure

  /** One request: a 401 is retried once, after a refresh, and only if that succeeds. The responses
      of the server and the outcome of the refresh, own or joined, are parameters. */
  method Perform(store: SessionStore, authenticated: bool, isRetry: bool, responses: seq<Response>, refreshed: Result<Secret, Error>)
    returns (r: Response, sent: nat, started: nat)
    requires |responses| >= if isRetry then 1 else 2
    modifies store
    ensures 1 <= sent <= if isRetry then 1 else 2
    ensures r == responses[sent - 1]
    ensures sent == 2 <==> !isRetry && authenticated && responses[0].Unauthorized? && refreshed.Ok? && (old(store.busy) || old(store.tokens).Some?)
    ensures started == if !isRetry && authenticated && responses[0].Unauthorized? && !old(store.busy) && old(store.tokens).Some? then 1 else 0
    ensures store.tokens == if authenticated && r.Unauthorized? then None
                            else if sent == 2 then Some(refreshed.value) else old(store.tokens)
    decreases !isRetry
  {
    r, sent, started := responses[0], 1, 0;
    if r.Unauthorized? {
      if authenticated && !isRetry {
        var wanted := store.RefreshAccessToken();
        started := if wanted.Start? then 1 else 0;
        var ok := false;
        if !wanted.Nothing? {
          ok := store.RefreshEnded(refreshed);
        }
        if ok {
          var n, again;
          r, n, again := Perform(store, authenticated, true, responses[1..], refreshed);
          return r, 1 + n, started + again;
        }
      }
      if authenticated {
        store.HandleAuthenticationLost();
      }
    }
  }
}
