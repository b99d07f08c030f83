/**
 Sessions: refresh tokens that are exchanged for new ones, password reset links that carry a
 fingerprint of the password they replace, and a client that coalesces its refreshes. Each service
 call is one step. A token stands for its hash; drawn tokens and password fingerprints are new.
 Which sign-in a token descends from, and why it was revoked, is recorded for the proofs only.
 */
module Auth {
  import opened Wrappers

  type Secret = nat
  type UserId = nat

  datatype Error = Unauthorized | Forbidden | NotFound | Invalid | Internal | Unavailable

  /** Revoked because it was exchanged, or because the session was ended. */
  datatype Status = Live | Rotated | Ended

  datatype Token = Token(user: UserId, family: nat, expiresAt: nat, status: Status) {
    predicate IsUsable(now: nat) {
      status == Live && now < expiresAt
    }
  }

  datatype User = User(active: bool, deleted: bool, fingerprint: nat, past: set<nat>)

  datatype Link = Link(user: UserId, fingerprint: nat, expiresAt: nat)

  /** `drawn` holds every token ever issued with its expiry, `exchanged` those accepted for a new
      one, in order. */
  datatype Server = Server(
    users: map<UserId, User>, tokens: map<Secret, Token>, links: set<Link>, now: nat,
    drawn: map<Secret, nat>, exchanged: seq<Secret>, families: nat)

  datatype Config = Config(refreshTtl: nat, resetTtl: nat)

  /** A deleted user is not found by anyone. */
  predicate Known(s: Server, user: UserId) {
    user in s.users && !s.users[user].deleted
  }

  // ---- the token store ----

  function Created(s: Server, secret: Secret, t: Token): Server {
    s.(tokens := s.tokens[secret := t], drawn := s.drawn[secret := t.expiresAt])
  }

  function Revoked(tokens: map<Secret, Token>, secret: Secret, why: Status): map<Secret, Token> {
    if secret in tokens && tokens[secret].status == Live then tokens[secret := tokens[secret].(status := why)] else tokens
  }

  function RevokedAll(tokens: map<Secret, Token>, user: UserId): map<Secret, Token> {
    map k | k in tokens :: if tokens[k].user == user && tokens[k].status == Live then tokens[k].(status := Ended) else tokens[k]
  }

  // ---- the service calls ----

  /** Any way to sign in, after the credentials were checked. */
  function SignedIn(cfg: Config, s: Server, user: UserId, secret: Secret): (Server, Result<Secret, Error>) {
    if !Known(s, user) then (s, Err(Unauthorized))
    else if !s.users[user].active then (s, Err(Forbidden))
    else (Created(s, secret, Token(user, s.families, s.now + cfg.refreshTtl, Live)).(families := s.families + 1), Ok(secret))
  }

  /** `fails` is a failure after the presented token was revoked. */
  function Refreshed(cfg: Config, s: Server, presented: Secret, secret: Secret, fails: bool): (Server, Result<Secret, Error>) {
    if presented !in s.tokens || !s.tokens[presented].IsUsable(s.now) then (s, Err(Unauthorized))
    else
      var t := s.tokens[presented];
      if !Known(s, t.user) then (s, Err(NotFound))
      else if !s.users[t.user].active then (s, Err(Forbidden))
      else
        var s1 := s.(tokens := Revoked(s.tokens, presented, Rotated), exchanged := s.exchanged + [presented]);
        if fails then (s1, Err(Internal))
        else (Created(s1, secret, Token(t.user, t.family, s.now + cfg.refreshTtl, Live)), Ok(secret))
  }

  function LoggedOut(s: Server, presented: Secret): Server {
    s.(tokens := Revoked(s.tokens, presented, Ended))
  }

  /** What may stand in the way of mailing a link. */
  datatype Trouble = NoTrouble | NoMailer | ReadFails | SigningFails

  function ResetRequested(cfg: Config, s: Server, user: UserId, trouble: Trouble): (Server, Result<(), Error>) {
    if trouble == NoMailer then (s, Err(Unavailable))
    else if trouble == ReadFails then (s, Err(Internal))
    else if !Known(s, user) || !s.users[user].active then (s, Ok(()))
    else if trouble == SigningFails then (s, Err(Internal))
    else (s.(links := s.links + {Link(user, s.users[user].fingerprint, s.now + cfg.resetTtl)}), Ok(()))
  }

  /** The answer tells an account from none only when signing fails; the links are then as they were. */
  lemma TheAnswerRevealsNoAccount(cfg: Config, s: Server, a: UserId, b: UserId, trouble: Trouble)
    ensures ResetRequested(cfg, s, a, trouble).1 != ResetRequested(cfg, s, b, trouble).1
       <==> trouble == SigningFails && (Known(s, a) && s.users[a].active) != (Known(s, b) && s.users[b].active)
    ensures ResetRequested(cfg, s, a, trouble).0 != s ==> ResetRequested(cfg, s, a, trouble).1.Ok? && trouble == NoTrouble
  {
  }

  predicate LinkWorks(s: Server, l: Link) {
    && s.now < l.expiresAt && Known(s, l.user) && s.users[l.user].active
    && l.fingerprint == s.users[l.user].fingerprint
  }

  /** `fails` is a failure between the new password and the revocation. */
  function PasswordReset(s: Server, l: Link, longEnough: bool, fingerprint: nat, fails: bool): (Server, Result<(), Error>) {
    if !longEnough || !LinkWorks(s, l) then (s, Err(Invalid))
    else
      var u := s.users[l.user];
      var s1 := s.(users := s.users[l.user := u.(fingerprint := fingerprint, past := u.past + {u.fingerprint})]);
      if fails then (s1, Err(Internal)) else (s1.(tokens := RevokedAll(s1.tokens, l.user)), Ok(()))
  }

  datatype Action =
    | Register(user: UserId, fingerprint: nat)
    | SignIn(user: UserId, secret: Secret)
    | Refresh(presented: Secret, secret: Secret, fails: bool)
    | Logout(presented: Secret)
    | RequestReset(user: UserId, trouble: Trouble)
    | Reset(link: Link, longEnough: bool, fingerprint: nat, fails: bool)
    | SetActive(user: UserId, active: bool)
    | RemoveUser(user: UserId)
    | Tick(elapsed: nat)
    | DeleteExpired

  /** Random draws are new, and only issued links can be presented, because they are signed. */
  predicate Possible(s: Server, a: Action) {
    match a
    case Register(user, _) => user !in s.users
    case SignIn(_, secret) => secret !in s.drawn
    case Refresh(_, secret, _) => secret !in s.drawn
    case Reset(l, _, fp, _) => l in s.links && (l.user in s.users ==> fp !in s.users[l.user].past + {s.users[l.user].fingerprint})
    case _ => true
  }

  function Step(cfg: Config, s: Server, a: Action): Server {
    match a
    case Register(user, fp) => s.(users := s.users[user := User(true, false, fp, {})])
    case SignIn(user, secret) => SignedIn(cfg, s, user, secret).0
    case Refresh(presented, secret, fails) => Refreshed(cfg, s, presented, secret, fails).0
    case Logout(presented) => LoggedOut(s, presented)
    case RequestReset(user, trouble) => ResetRequested(cfg, s, user, trouble).0
    case Reset(l, longEnough, fp, fails) => PasswordReset(s, l, longEnough, fp, fails).0
    case SetActive(user, active) => if user in s.users then s.(users := s.users[user := s.users[user].(active := active)]) else s
    case RemoveUser(user) => if user in s.users then s.(users := s.users[user := s.users[user].(deleted := true)]) else s
    case Tick(elapsed) => s.(now := s.now + elapsed)
    case DeleteExpired => s.(tokens := map k | k in s.tokens && s.tokens[k].expiresAt >= s.now :: s.tokens[k])
  }

  predicate PossibleRun(cfg: Config, s: Server, run: seq<Action>)
    decreases |run|
  {
    run == [] || (Possible(s, run[0]) && PossibleRun(cfg, Step(cfg, s, run[0]), run[1..]))
  }

  function After(cfg: Config, s: Server, run: seq<Action>): Server
    decreases |run|
  {
    if run == [] then s else After(cfg, Step(cfg, s, run[0]), run[1..])
  }

  const EMPTY := Server(map[], map[], {}, 0, map[], [], 0)

  // ---- what every reachable server satisfies ----

  ghost predicate NoRepeats(xs: seq<Secret>) {
    forall i, j | 0 <= i < j < |xs| :: xs[i] != xs[j]
  }

  /** Of all tokens descending from one sign-in at most one is usable. */
  ghost predicate OneLivePerFamily(tokens: map<Secret, Token>) {
    forall a, b | a in tokens && b in tokens && a != b && tokens[a].family == tokens[b].family ::
      tokens[a].status != Live || tokens[b].status != Live
  }

  ghost predicate TokensSound(s: Server) {
    && OneLivePerFamily(s.tokens)
    && (forall k | k in s.tokens :: k in s.drawn && s.drawn[k] == s.tokens[k].expiresAt && s.tokens[k].family < s.families)
  }

  ghost predicate ExchangesSound(s: Server) {
    && NoRepeats(s.exchanged)
    && (forall k | k in s.exchanged :: k in s.drawn && (k in s.tokens ==> s.tokens[k].status == Rotated))
    && (forall k | k in s.tokens && s.tokens[k].status == Rotated :: k in s.exchanged)
  }

  ghost predicate LinksSound(s: Server) {
    && (forall u | u in s.users :: s.users[u].fingerprint !in s.users[u].past)
    && (forall l | l in s.links :: l.user in s.users && l.fingerprint in s.users[l.user].past + {s.users[l.user].fingerprint})
  }

  ghost predicate Sound(s: Server) {
    TokensSound(s) && ExchangesSound(s) && LinksSound(s)
  }

  lemma SignInKeepsTokens(cfg: Config, s: Server, user: UserId, secret: Secret)
    requires TokensSound(s) && secret !in s.drawn
    ensures TokensSound(SignedIn(cfg, s, user, secret).0)
  {
  }

  lemma RefreshKeepsTokens(cfg: Config, s: Server, presented: Secret, secret: Secret, fails: bool)
    requires TokensSound(s) && secret !in s.drawn
    ensures TokensSound(Refreshed(cfg, s, presented, secret, fails).0)
  {
  }

  lemma ResetKeepsTokens(s: Server, l: Link, longEnough: bool, fp: nat, fails: bool)
    requires TokensSound(s)
    ensures TokensSound(PasswordReset(s, l, longEnough, fp, fails).0)
  {
  }

  lemma TokensStaySound(cfg: Config, s: Server, a: Action)
    requires TokensSound(s) && Possible(s, a)
    ensures TokensSound(Step(cfg, s, a))
  {
    match a
    case SignIn(user, secret) => SignInKeepsTokens(cfg, s, user, secret);
    case Refresh(presented, secret, fails) => RefreshKeepsTokens(cfg, s, presented, secret, fails);
    case Reset(l, longEnough, fp, fails) => ResetKeepsTokens(s, l, longEnough, fp, fails);
    case _ =>
  }

  lemma RefreshKeepsExchanges(cfg: Config, s: Server, presented: Secret, secret: Secret, fails: bool)
    requires TokensSound(s) && ExchangesSound(s) && secret !in s.drawn
    ensures ExchangesSound(Refreshed(cfg, s, presented, secret, fails).0)
  {
  }

  lemma ExchangesStaySound(cfg: Config, s: Server, a: Action)
    requires TokensSound(s) && ExchangesSound(s) && Possible(s, a)
    ensures ExchangesSound(Step(cfg, s, a))
  {
    match a
    case Refresh(presented, secret, fails) => RefreshKeepsExchanges(cfg, s, presented, secret, fails);
    case _ =>
  }

  lemma LinksStaySound(cfg: Config, s: Server, a: Action)
    requires LinksSound(s) && Possible(s, a)
    ensures LinksSound(Step(cfg, s, a))
  {
  }

  lemma {:induction false} RunsAreSound(cfg: Config, s: Server, run: seq<Action>)
    requires Sound(s) && PossibleRun(cfg, s, run)
    ensures Sound(After(cfg, s, run))
    decreases |run|
  {
    if run != [] {
      TokensStaySound(cfg, s, run[0]);
      ExchangesStaySound(cfg, s, run[0]);
      LinksStaySound(cfg, s, run[0]);
      RunsAreSound(cfg, Step(cfg, s, run[0]), run[1..]);
    }
  }

  /** In every reachable state each sign-in has at most one usable token, and no token was ever
      accepted twice. */
  lemma RotationIsSafe(cfg: Config, run: seq<Action>)
    requires PossibleRun(cfg, EMPTY, run)
    ensures var s := After(cfg, EMPTY, run);
            && NoRepeats(s.exchanged)
            && forall a, b | a in s.tokens && b in s.tokens && s.tokens[a].IsUsable(s.now) && s.tokens[b].IsUsable(s.now)
                             && s.tokens[a].family == s.tokens[b].family :: a == b
  {
    RunsAreSound(cfg, EMPTY, run);
  }

  // ---- where tokens come from ----

  /** A token is issued only to an account in order, for the full time, by a sign-in, of which it is the
      first, or for another token of the same sign-in; and a sign-in of an account in order gets one. */
  lemma TokensAreIssuedInOrder(cfg: Config, s: Server, a: Action, k: Secret)
    requires Sound(s) && Possible(s, a)
    ensures var s' := Step(cfg, s, a);
            k in s'.tokens && k !in s.tokens ==>
              && (a.SignIn? || a.Refresh?) && a.secret == k && k !in s.drawn
              && var t := s'.tokens[k];
              && t.status == Live && t.expiresAt == s.now + cfg.refreshTtl
              && Known(s, t.user) && s.users[t.user].active
              && (if a.SignIn? then t.user == a.user && forall o | o in s.tokens :: s.tokens[o].family != t.family
                  else a.presented in s.tokens && s.tokens[a.presented].user == t.user && s.tokens[a.presented].family == t.family
                       && s.tokens[a.presented].IsUsable(s.now))
    ensures a.SignIn? ==> (a.secret in Step(cfg, s, a).tokens <==> Known(s, a.user) && s.users[a.user].active)
  {
  }

  // ---- what ends a token ----

  /** The step ends the token: its owner leaves with it, it is exchanged in time for an account in
      order, or the password of its user is reset. */
  predicate EndsToken(s: Server, a: Action, p: Secret, t: Token) {
    match a
    case Logout(q) => q == p
    case Refresh(q, _, _) => q == p && s.now < t.expiresAt && Known(s, t.user) && s.users[t.user].active
    case Reset(l, longEnough, _, fails) =>
      && l.user == t.user && longEnough && !fails
      && s.now < l.expiresAt && Known(s, l.user) && s.users[l.user].active && l.fingerprint == s.users[l.user].fingerprint
    case _ => false
  }

  predicate EndedIn(cfg: Config, s: Server, run: seq<Action>, p: Secret, t: Token)
    decreases |run|
  {
    run != [] && (EndsToken(s, run[0], p, t) || EndedIn(cfg, Step(cfg, s, run[0]), run[1..], p, t))
  }

  /** It is still what was issued; only an expired token is cleaned up. */
  predicate AsIssued(s: Server, p: Secret, t: Token) {
    p in s.drawn && t.status == Live && if p in s.tokens then s.tokens[p] == t else t.expiresAt < s.now
  }

  /** It is over for good. */
  predicate IsOver(s: Server, p: Secret) {
    p in s.drawn && (p in s.tokens ==> s.tokens[p].status != Live)
  }

  lemma TokenStep(cfg: Config, s: Server, a: Action, p: Secret, t: Token)
    requires Possible(s, a) && AsIssued(s, p, t)
    ensures if EndsToken(s, a, p, t) then IsOver(Step(cfg, s, a), p) else AsIssued(Step(cfg, s, a), p, t)
  {
  }

  lemma OverStep(cfg: Config, s: Server, a: Action, p: Secret)
    requires Possible(s, a) && IsOver(s, p)
    ensures IsOver(Step(cfg, s, a), p)
  {
  }

  lemma {:induction false} StaysOver(cfg: Config, s: Server, run: seq<Action>, p: Secret)
    requires PossibleRun(cfg, s, run) && IsOver(s, p)
    ensures IsOver(After(cfg, s, run), p)
    decreases |run|
  {
    if run != [] {
      OverStep(cfg, s, run[0], p);
      StaysOver(cfg, Step(cfg, s, run[0]), run[1..], p);
    }
  }

  lemma {:induction false} TokenHistory(cfg: Config, s: Server, run: seq<Action>, p: Secret, t: Token)
    requires PossibleRun(cfg, s, run) && AsIssued(s, p, t)
    ensures if EndedIn(cfg, s, run, p, t) then IsOver(After(cfg, s, run), p) else AsIssued(After(cfg, s, run), p, t)
    decreases |run|
  {
    if run != [] {
      TokenStep(cfg, s, run[0], p, t);
      if EndsToken(s, run[0], p, t) {
        StaysOver(cfg, Step(cfg, s, run[0]), run[1..], p);
      } else {
        TokenHistory(cfg, Step(cfg, s, run[0]), run[1..], p, t);
      }
    }
  }

  /** Whatever happens after a token was issued, it is accepted exactly if nothing has ended it, its time
      is not over, and its account is in order. */
  lemma ATokenWorksUntilEnded(cfg: Config, s: Server, run: seq<Action>, p: Secret, secret: Secret)
    requires PossibleRun(cfg, s, run) && p in s.tokens && s.tokens[p].status == Live && p in s.drawn
    ensures var (t, s') := (s.tokens[p], After(cfg, s, run));
            Refreshed(cfg, s', p, secret, false).1.Ok? <==>
              !EndedIn(cfg, s, run, p, t) && s'.now < t.expiresAt && Known(s', t.user) && s'.users[t.user].active
  {
    TokenHistory(cfg, s, run, p, s.tokens[p]);
  }

  // ---- a removed account is over ----

  lemma {:induction false} StaysRemoved(cfg: Config, s: Server, user: UserId, run: seq<Action>)
    requires user in s.users && s.users[user].deleted && PossibleRun(cfg, s, run)
    ensures user in After(cfg, s, run).users && After(cfg, s, run).users[user].deleted
    decreases |run|
  {
    if run != [] {
      StaysRemoved(cfg, Step(cfg, s, run[0]), user, run[1..]);
    }
  }

  /** Once an account is removed nobody signs in to it, and none of its tokens is accepted, for good. */
  lemma ARemovedAccountIsOver(cfg: Config, s: Server, user: UserId, run: seq<Action>, p: Secret, secret: Secret, fails: bool)
    requires user in s.users && PossibleRun(cfg, Step(cfg, s, RemoveUser(user)), run)
    ensures var s' := After(cfg, Step(cfg, s, RemoveUser(user)), run);
            && SignedIn(cfg, s', user, secret) == (s', Err(Unauthorized))
            && (p in s'.tokens && s'.tokens[p].user == user ==> Refreshed(cfg, s', p, secret, fails).1.Err?)
  {
    StaysRemoved(cfg, Step(cfg, s, RemoveUser(user)), user, run);
  }

  // ---- a logout ends its session ----

  /** No token of the sign-in is live, and none will be. */
  ghost predicate FamilyOver(s: Server, family: nat) {
    family < s.families && forall k | k in s.tokens && s.tokens[k].family == family :: s.tokens[k].status != Live
  }

  lemma FamilyStaysOver(cfg: Config, s: Server, a: Action, family: nat)
    requires FamilyOver(s, family)
    ensures FamilyOver(Step(cfg, s, a), family)
  {
  }

  lemma {:induction false} FamilyOverForever(cfg: Config, s: Server, run: seq<Action>, family: nat)
    requires FamilyOver(s, family)
    ensures FamilyOver(After(cfg, s, run), family)
    decreases |run|
  {
    if run != [] {
      FamilyStaysOver(cfg, s, run[0], family);
      FamilyOverForever(cfg, Step(cfg, s, run[0]), run[1..], family);
    }
  }

  /** After a logout with a token, for good: the token is refused, and if it was the live one of its
      sign-in that sign-in has no usable token again. Every other token is as it was. */
  lemma ALogoutEndsItsSession(cfg: Config, s: Server, p: Secret, run: seq<Action>, secret: Secret, fails: bool)
    requires Sound(s) && p in s.tokens && PossibleRun(cfg, Step(cfg, s, Logout(p)), run)
    ensures var s' := After(cfg, Step(cfg, s, Logout(p)), run);
            && (p in s'.tokens ==> !s'.tokens[p].IsUsable(s'.now))
            && Refreshed(cfg, s', p, secret, fails) == (s', Err(Unauthorized))
            && (s.tokens[p].status == Live ==>
                  forall k | k in s'.tokens && s'.tokens[k].family == s.tokens[p].family :: !s'.tokens[k].IsUsable(s'.now))
    ensures var s1 := Step(cfg, s, Logout(p)); s1.tokens.Keys == s.tokens.Keys && forall k | k in s.tokens && k != p :: s1.tokens[k] == s.tokens[k]
  {
    var s1 := Step(cfg, s, Logout(p));
    StaysOver(cfg, s1, run, p);
    if s.tokens[p].status == Live {
      assert FamilyOver(s1, s.tokens[p].family);
      FamilyOverForever(cfg, s1, run, s.tokens[p].family);
    }
  }

  // ---- a reset ends what came before ----

  /** None of these is, or ever will be, a usable token of the user. */
  ghost predicate TokensOver(s: Server, secrets: set<Secret>, user: UserId) {
    forall k | k in secrets :: k in s.drawn && (k in s.tokens && s.tokens[k].user == user ==> s.tokens[k].status != Live)
  }

  ghost predicate LinksOver(s: Server, links: set<Link>) {
    forall l | l in links :: l.user in s.users && l.fingerprint in s.users[l.user].past
  }

  /** No token that descends from one of the user's first sign-ins is live. */
  ghost predicate FamiliesOver(s: Server, first: nat, user: UserId) {
    && first <= s.families
    && (forall k | k in s.tokens && s.tokens[k].user == user && s.tokens[k].family < first :: s.tokens[k].status != Live)
  }

  lemma TokensStayOver(cfg: Config, s: Server, a: Action, secrets: set<Secret>, user: UserId)
    requires Possible(s, a) && TokensOver(s, secrets, user)
    ensures TokensOver(Step(cfg, s, a), secrets, user)
  {
  }

  lemma FamiliesStayOver(cfg: Config, s: Server, a: Action, first: nat, user: UserId)
    requires Possible(s, a) && FamiliesOver(s, first, user)
    ensures FamiliesOver(Step(cfg, s, a), first, user)
  {
  }

  lemma LinksStayOver(cfg: Config, s: Server, a: Action, links: set<Link>)
    requires Possible(s, a) && LinksOver(s, links)
    ensures LinksOver(Step(cfg, s, a), links)
  {
  }

  ghost predicate AllOver(s: Server, secrets: set<Secret>, first: nat, user: UserId, links: set<Link>) {
    TokensOver(s, secrets, user) && FamiliesOver(s, first, user) && LinksOver(s, links)
  }

  lemma {:induction false} OverForever(cfg: Config, s: Server, run: seq<Action>, secrets: set<Secret>, first: nat, user: UserId, links: set<Link>)
    requires PossibleRun(cfg, s, run) && AllOver(s, secrets, first, user, links)
    ensures AllOver(After(cfg, s, run), secrets, first, user, links)
    decreases |run|
  {
    if run != [] {
      TokensStayOver(cfg, s, run[0], secrets, user);
      FamiliesStayOver(cfg, s, run[0], first, user);
      LinksStayOver(cfg, s, run[0], links);
      OverForever(cfg, Step(cfg, s, run[0]), run[1..], secrets, first, user, links);
    }
  }

  function LinksOf(s: Server, user: UserId): set<Link> {
    set l | l in s.links && l.user == user
  }

  /** After a successful reset, for good: no token the user had before is usable, no earlier sign-in of
      the user ever has a usable descendant again, and no link issued to the user before, the used one
      included, works. */
  lemma AResetEndsEarlierSessions(cfg: Config, s: Server, l: Link, longEnough: bool, fp: nat, run: seq<Action>)
    requires Sound(s) && Possible(s, Reset(l, longEnough, fp, false))
    requires PasswordReset(s, l, longEnough, fp, false).1.Ok?
    requires PossibleRun(cfg, PasswordReset(s, l, longEnough, fp, false).0, run)
    ensures var s' := After(cfg, PasswordReset(s, l, longEnough, fp, false).0, run);
            && (forall k | k in s.drawn && k in s'.tokens && s'.tokens[k].user == l.user :: !s'.tokens[k].IsUsable(s'.now))
            && (forall k | k in s'.tokens && s'.tokens[k].user == l.user && s'.tokens[k].family < s.families :: !s'.tokens[k].IsUsable(s'.now))
            && (forall l' | l' in LinksOf(s, l.user) :: !LinkWorks(s', l'))
  {
    var reset := PasswordReset(s, l, longEnough, fp, false).0;
    assert reset == Step(cfg, s, Reset(l, longEnough, fp, false));
    OverForever(cfg, reset, run, s.drawn.Keys, s.families, l.user, LinksOf(s, l.user));
    TokensStaySound(cfg, s, Reset(l, longEnough, fp, false));
    ExchangesStaySound(cfg, s, Reset(l, longEnough, fp, false));
    LinksStaySound(cfg, s, Reset(l, longEnough, fp, false));
    RunsAreSound(cfg, reset, run);
  }

  /** Should revoking the tokens fail, the links are over all the same. */
  lemma AHalfResetEndsLinks(cfg: Config, s: Server, l: Link, fp: nat, run: seq<Action>)
    requires Sound(s) && Possible(s, Reset(l, true, fp, true)) && LinkWorks(s, l)
    requires PossibleRun(cfg, Step(cfg, s, Reset(l, true, fp, true)), run)
    ensures forall l' | l' in LinksOf(s, l.user) :: !LinkWorks(After(cfg, Step(cfg, s, Reset(l, true, fp, true)), run), l')
  {
    var a := Reset(l, true, fp, true);
    var reset := Step(cfg, s, a);
    OverForever(cfg, reset, run, {}, 0, l.user, LinksOf(s, l.user));
    TokensStaySound(cfg, s, a);
    ExchangesStaySound(cfg, s, a);
    LinksStaySound(cfg, s, a);
    RunsAreSound(cfg, reset, run);
  }

  // ---- a link works once ----

  /** The step changes the password: somebody presents a link of the account that has time left and was
      issued for the password it has now. */
  predicate ChangesPassword(s: Server, a: Action, user: UserId) {
    && a.Reset? && a.link.user == user && a.longEnough && s.now < a.link.expiresAt
    && Known(s, user) && s.users[user].active && a.link.fingerprint == s.users[user].fingerprint
  }

  predicate PasswordChangedIn(cfg: Config, s: Server, run: seq<Action>, user: UserId)
    decreases |run|
  {
    run != [] && (ChangesPassword(s, run[0], user) || PasswordChangedIn(cfg, Step(cfg, s, run[0]), run[1..], user))
  }

  lemma {:induction false} PasswordHistory(cfg: Config, s: Server, run: seq<Action>, user: UserId, fp: nat)
    requires PossibleRun(cfg, s, run) && user in s.users && fp in s.users[user].past + {s.users[user].fingerprint}
    requires forall u | u in s.users :: s.users[u].fingerprint !in s.users[u].past
    ensures var s' := After(cfg, s, run);
            && user in s'.users && fp in s'.users[user].past + {s'.users[user].fingerprint}
            && (s'.users[user].fingerprint == fp <==> s.users[user].fingerprint == fp && !PasswordChangedIn(cfg, s, run, user))
    decreases |run|
  {
    if run != [] {
      PasswordStep(cfg, s, run[0], user, fp);
      PasswordHistory(cfg, Step(cfg, s, run[0]), run[1..], user, fp);
    }
  }

  lemma PasswordStep(cfg: Config, s: Server, a: Action, user: UserId, fp: nat)
    requires Possible(s, a) && user in s.users && fp in s.users[user].past + {s.users[user].fingerprint}
    requires forall u | u in s.users :: s.users[u].fingerprint !in s.users[u].past
    ensures var s' := Step(cfg, s, a);
            && (forall u | u in s'.users :: s'.users[u].fingerprint !in s'.users[u].past)
            && user in s'.users && fp in s'.users[user].past + {s'.users[user].fingerprint}
            && (s'.users[user].fingerprint == fp <==> s.users[user].fingerprint == fp && !ChangesPassword(s, a, user))
  {
  }

  /** The link that an active account is mailed works exactly until its time is over or the password is
      changed, by it or by any other link, while the account is in order. */
  lemma ALinkWorksUntilThePasswordChanges(cfg: Config, s: Server, user: UserId, run: seq<Action>)
    requires Sound(s) && Known(s, user) && s.users[user].active
    requires PossibleRun(cfg, Step(cfg, s, RequestReset(user, NoTrouble)), run)
    ensures var (l, s1) := (Link(user, s.users[user].fingerprint, s.now + cfg.resetTtl), Step(cfg, s, RequestReset(user, NoTrouble)));
            var s' := After(cfg, s1, run);
            && l in s1.links
            && (LinkWorks(s', l) <==> s'.now < s.now + cfg.resetTtl && !PasswordChangedIn(cfg, s1, run, user)
                                      && Known(s', user) && s'.users[user].active)
  {
    PasswordHistory(cfg, Step(cfg, s, RequestReset(user, NoTrouble)), run, user, s.users[user].fingerprint);
  }

  // ---- the service ----

  class Service {
    const cfg: Config
    var users: map<UserId, User>
    var tokens: map<Secret, Token>
    var links: set<Link>
    var now: nat
    ghost var drawn: map<Secret, nat>
    ghost var exchanged: seq<Secret>
    var families: nat

    ghost function State(): Server
      reads this
    {
      Server(users, tokens, links, now, drawn, exchanged, families)
    }

    constructor (cfg: Config)
      ensures State() == EMPTY && this.cfg == cfg
    {
      this.cfg := cfg;
      users, tokens, links, now, drawn, exchanged, families := map[], map[], {}, 0, map[], [], 0;
    }

    // the token repository

    method Create(secret: Secret, t: Token)
      modifies this`tokens, this`drawn
      ensures State() == Created(old(State()), secret, t)
    {
      tokens := tokens[secret := t];
      drawn := drawn[secret := t.expiresAt];
    }

    method GetByHash(secret: Secret) returns (t: Option<Token>)
      ensures t == if secret in tokens then Some(tokens[secret]) else None
    {
      t := if secret in tokens then Some(tokens[secret]) else None;
    }

    method Revoke(secret: Secret, why: Status)
      modifies this`tokens
      ensures tokens == Revoked(old(tokens), secret, why)
    {
      if secret in tokens && tokens[secret].status == Live {
        tokens := tokens[secret := tokens[secret].(status := why)];
      }
    }

    method RevokeAllForUser(user: UserId)
      modifies this`tokens
      ensures tokens == RevokedAll(old(tokens), user)
    {
      var todo := tokens.Keys;
      while todo != {}
        invariant todo <= tokens.Keys == old(tokens).Keys
        invariant forall k | k in tokens :: tokens[k] == if k in todo then old(tokens)[k] else RevokedAll(old(tokens), user)[k]
        decreases todo
      {
        var k :| k in todo;
        todo := todo - {k};
        if tokens[k].user == user {
          Revoke(k, Ended);
        }
      }
    }

    method DeleteExpired() returns (deleted: nat)
      modifies this`tokens
      ensures State() == Step(cfg, old(State()), Action.DeleteExpired)
      ensures deleted == |old(tokens)| - |tokens|
      ensures forall k :: k in tokens <==> k in old(tokens) && old(tokens)[k].expiresAt >= now
    {
      var expired := set k | k in tokens && tokens[k].expiresAt < now;
      assert |tokens.Keys| == |tokens.Keys - expired| + |expired|;
      assert (tokens - expired).Keys == tokens.Keys - expired;
      tokens := tokens - expired;
      deleted := |expired|;
    }

    // the service

    method IssueTokens(user: UserId, family: nat, secret: Secret, fails: bool) returns (r: Result<Secret, Error>)
      modifies this`tokens, this`drawn
      ensures r == if fails then Err(Internal) else Ok(secret)
      ensures State() == if fails then old(State()) else Created(old(State()), secret, Token(user, family, now + cfg.refreshTtl, Live))
    {
      if fails {
        return Err(Internal);
      }
      Create(secret, Token(user, family, now + cfg.refreshTtl, Live));
      return Ok(secret);
    }

    method SignIn(user: UserId, secret: Secret) returns (r: Result<Secret, Error>)
      modifies this`tokens, this`drawn, this`families
      ensures (State(), r) == SignedIn(cfg, old(State()), user, secret)
    {
      if user !in users || users[user].deleted {
        return Err(Unauthorized);
      }
      if !users[user].active {
        return Err(Forbidden);
      }
      r := IssueTokens(user, families, secret, false);
      families := families + 1;
    }

    method Refresh(presented: Secret, secret: Secret, fails: bool) returns (r: Result<Secret, Error>)
      modifies this`tokens, this`drawn, this`exchanged
      ensures (State(), r) == Refreshed(cfg, old(State()), presented, secret, fails)
    {
      var stored := GetByHash(presented);
      if stored.None? || !stored.value.IsUsable(now) {
        return Err(Unauthorized);
      }
      var t := stored.value;
      if t.user !in users || users[t.user].deleted {
        return Err(NotFound);
      }
      if !users[t.user].active {
        return Err(Forbidden);
      }
      Revoke(presented, Rotated);
      exchanged := exchanged + [presented];
      r := IssueTokens(t.user, t.family, secret, fails);
    }

    method Logout(presented: Secret)
      modifies this`tokens
      ensures State() == LoggedOut(old(State()), presented)
      ensures presented in tokens ==> tokens[presented].status != Live
    {
      var stored := GetByHash(presented);
      if stored.Some? {
        Revoke(presented, Ended);
      }
    }

    method RequestPasswordReset(user: UserId, trouble: Trouble) returns (r: Result<(), Error>)
      modifies this`links
      ensures (State(), r) == ResetRequested(cfg, old(State()), user, trouble)
    {
      if trouble == NoMailer {
        return Err(Unavailable);
      }
      if trouble == ReadFails {
        return Err(Internal);
      }
      if user !in users || users[user].deleted || !users[user].active {
        return Ok(());
      }
      if trouble == SigningFails {
        return Err(Internal);
      }
      links := links + {Link(user, users[user].fingerprint, now + cfg.resetTtl)};
      return Ok(());
    }

    method ResetPassword(l: Link, longEnough: bool, fingerprint: nat, fails: bool) returns (r: Result<(), Error>)
      modifies this`users, this`tokens
      ensures (State(), r) == PasswordReset(old(State()), l, longEnough, fingerprint, fails)
    {
      if !longEnough {
        return Err(Invalid);
      }
      if now >= l.expiresAt || l.user !in users || users[l.user].deleted {
        return Err(Invalid);
      }
      var u := users[l.user];
      if !u.active || l.fingerprint != u.fingerprint {
        return Err(Invalid);
      }
      users := users[l.user := u.(fingerprint := fingerprint, past := u.past + {u.fingerprint})];
      if fails {
        return Err(Internal);
      }
      RevokeAllForUser(l.user);
      return Ok(());
    }
  }
}
