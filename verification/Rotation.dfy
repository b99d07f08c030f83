/**
 Refreshes statement by statement. Looking a token up and revoking it are two statements with
 nothing between them that locks, and revoking reports no difference when someone else was first.
 Each call goes through its statements in order; those of different calls mix freely, with logouts
 and the passing of time between them.
 */
module Rotation {
  import opened Auth

  datatype Stage = Idle | Found(token: Token) | Spent(token: Token) | Succeeded(secret: Secret) | Refused

  /** The calls in progress by the token they present. */
  datatype Race = Race(tokens: map<Secret, Token>, now: nat, stages: seq<Stage>)

  /** `known` is what the account lookup after the token's says; `secret` is the token drawn. */
  datatype Move =
    | Look(call: nat, known: bool)
    | Spend(call: nat)
    | Issue(call: nat, secret: Secret, fails: bool)
    | Leave(presented: Secret)
    | Wait(elapsed: nat)

  /** A drawn token is not in use. */
  predicate Draws(s: Race, m: Move) {
    m.Issue? ==> m.secret !in s.tokens
  }

  function Moved(cfg: Config, presented: seq<Secret>, s: Race, m: Move): Race
    requires |s.stages| == |presented|
  {
    match m
    case Look(c, known) =>
      if c >= |presented| || !s.stages[c].Idle? then s
      else
        var p := presented[c];
        var accepted := p in s.tokens && s.tokens[p].IsUsable(s.now) && known;
        s.(stages := s.stages[c := if accepted then Found(s.tokens[p]) else Refused])
    case Spend(c) =>
      if c >= |presented| || !s.stages[c].Found? then s
      else s.(tokens := Revoked(s.tokens, presented[c], Rotated), stages := s.stages[c := Spent(s.stages[c].token)])
    case Issue(c, secret, fails) =>
      if c >= |presented| || !s.stages[c].Spent? then s
      else if fails then s.(stages := s.stages[c := Refused])
      else
        var t := s.stages[c].token;
        s.(tokens := s.tokens[secret := Token(t.user, t.family, s.now + cfg.refreshTtl, Live)], stages := s.stages[c := Succeeded(secret)])
    case Leave(p) => s.(tokens := Revoked(s.tokens, p, Ended))
    case Wait(elapsed) => s.(now := s.now + elapsed)
  }

  function Raced(cfg: Config, presented: seq<Secret>, s: Race, run: seq<Move>): (r: Race)
    requires |s.stages| == |presented|
    ensures |r.stages| == |presented|
  {
    if run == [] then s else Moved(cfg, presented, Raced(cfg, presented, s, run[..|run| - 1]), run[|run| - 1])
  }

  predicate DrawsAll(cfg: Config, presented: seq<Secret>, s: Race, run: seq<Move>)
    requires |s.stages| == |presented|
  {
    forall i | 0 <= i < |run| :: Draws(Raced(cfg, presented, s, run[..i]), run[i])
  }

  /** A move that ends a token: a call that looked it up revokes it, or its owner leaves. */
  predicate Ends(presented: seq<Secret>, s: Race, m: Move, p: Secret)
    requires |s.stages| == |presented|
  {
    || (m.Spend? && m.call < |presented| && presented[m.call] == p && s.stages[m.call].Found?)
    || (m.Leave? && m.presented == p)
  }

  predicate Untouched(cfg: Config, presented: seq<Secret>, s: Race, run: seq<Move>, p: Secret)
    requires |s.stages| == |presented|
  {
    forall i | 0 <= i < |run| :: !Ends(presented, Raced(cfg, presented, s, run[..i]), run[i], p)
  }

  /** What one move does to a token that exists. */
  lemma OneMove(cfg: Config, presented: seq<Secret>, s: Race, m: Move, p: Secret)
    requires |s.stages| == |presented| && p in s.tokens && Draws(s, m)
    ensures var s' := Moved(cfg, presented, s, m);
            p in s'.tokens && s'.tokens[p].(status := Live) == s.tokens[p].(status := Live)
            && (s'.tokens[p].status == Live <==> s.tokens[p].status == Live && !Ends(presented, s, m, p))
  {
  }

  lemma RunPrefixes(cfg: Config, presented: seq<Secret>, s: Race, run: seq<Move>, p: Secret)
    requires |s.stages| == |presented| && run != []
    ensures var n := |run| - 1;
            (DrawsAll(cfg, presented, s, run) ==>
               DrawsAll(cfg, presented, s, run[..n]) && Draws(Raced(cfg, presented, s, run[..n]), run[n]))
            && (Untouched(cfg, presented, s, run, p) <==>
                  Untouched(cfg, presented, s, run[..n], p) && !Ends(presented, Raced(cfg, presented, s, run[..n]), run[n], p))
  {
    var n := |run| - 1;
    assert forall i | 0 <= i <= n :: run[..n][..i] == run[..i];
    assert forall i | 0 <= i < n :: run[..n][i] == run[i];
    if Untouched(cfg, presented, s, run[..n], p) && !Ends(presented, Raced(cfg, presented, s, run[..n]), run[n], p) {
      forall i | 0 <= i < |run| ensures !Ends(presented, Raced(cfg, presented, s, run[..i]), run[i], p) {
        if i < n {
          assert !Ends(presented, Raced(cfg, presented, s, run[..n][..i]), run[..n][i], p);
        }
      }
    }
    if Untouched(cfg, presented, s, run, p) {
      forall i | 0 <= i < n ensures !Ends(presented, Raced(cfg, presented, s, run[..n][..i]), run[..n][i], p) {
        assert !Ends(presented, Raced(cfg, presented, s, run[..i]), run[i], p);
      }
    }
    if DrawsAll(cfg, presented, s, run) {
      forall i | 0 <= i < n ensures Draws(Raced(cfg, presented, s, run[..n][..i]), run[..n][i]) {
        assert Draws(Raced(cfg, presented, s, run[..i]), run[i]);
      }
    }
  }

  /** A token stays live exactly until something ends it. */
  lemma {:induction false} LiveUntilEnded(cfg: Config, presented: seq<Secret>, s: Race, run: seq<Move>, p: Secret)
    requires |s.stages| == |presented| && p in s.tokens && s.tokens[p].status == Live && DrawsAll(cfg, presented, s, run)
    ensures var s' := Raced(cfg, presented, s, run);
            p in s'.tokens && s'.tokens[p].(status := Live) == s.tokens[p]
            && (s'.tokens[p].status == Live <==> Untouched(cfg, presented, s, run, p))
  {
    if run != [] {
      var n := |run| - 1;
      RunPrefixes(cfg, presented, s, run, p);
      LiveUntilEnded(cfg, presented, s, run[..n], p);
      OneMove(cfg, presented, Raced(cfg, presented, s, run[..n]), run[n], p);
    }
  }

  /** The i-th move is a call's lookup of this token, its first statement. */
  predicate LooksUp(cfg: Config, presented: seq<Secret>, s: Race, run: seq<Move>, i: nat, p: Secret)
    requires |s.stages| == |presented|
  {
    && i < |run| && run[i].Look? && run[i].call < |presented| && presented[run[i].call] == p
    && Raced(cfg, presented, s, run[..i]).stages[run[i].call].Idle?
  }

  predicate Accepted(cfg: Config, presented: seq<Secret>, s: Race, run: seq<Move>, i: nat, p: Secret)
    requires |s.stages| == |presented| && LooksUp(cfg, presented, s, run, i, p)
  {
    Raced(cfg, presented, s, run[..i + 1]).stages[run[i].call].Found?
  }

  lemma DrawsPrefix(cfg: Config, presented: seq<Secret>, s: Race, run: seq<Move>, n: nat)
    requires |s.stages| == |presented| && DrawsAll(cfg, presented, s, run) && n <= |run|
    ensures DrawsAll(cfg, presented, s, run[..n])
  {
    forall i | 0 <= i < n ensures Draws(Raced(cfg, presented, s, run[..n][..i]), run[..n][i]) {
      assert run[..n][..i] == run[..i];
      assert Draws(Raced(cfg, presented, s, run[..i]), run[i]);
    }
  }

  /** A lookup accepts a live token exactly if nothing has ended it before, it has not expired, and
      the account is in order. */
  lemma AcceptedUntilEnded(cfg: Config, presented: seq<Secret>, s: Race, run: seq<Move>, i: nat, p: Secret)
    requires |s.stages| == |presented| && p in s.tokens && s.tokens[p].status == Live && DrawsAll(cfg, presented, s, run)
    requires LooksUp(cfg, presented, s, run, i, p)
    ensures Accepted(cfg, presented, s, run, i, p) <==>
              Untouched(cfg, presented, s, run[..i], p) && run[i].known && Raced(cfg, presented, s, run[..i]).now < s.tokens[p].expiresAt
  {
    DrawsPrefix(cfg, presented, s, run, i);
    LiveUntilEnded(cfg, presented, s, run[..i], p);
    RacedSnoc(cfg, presented, s, run, i);
    FoundIffUsable(cfg, presented, Raced(cfg, presented, s, run[..i]), run[i]);
  }

  lemma FoundIffUsable(cfg: Config, presented: seq<Secret>, s: Race, m: Move)
    requires |s.stages| == |presented| && m.Look? && m.call < |presented| && s.stages[m.call].Idle?
    ensures var p := presented[m.call];
            Moved(cfg, presented, s, m).stages[m.call].Found? <==> p in s.tokens && s.tokens[p].IsUsable(s.now) && m.known
  {
  }

  /** So two refreshes of one token are both accepted exactly if both lookups come before the first
      revocation: rotation is one use per token only where lookups and revocations do not overlap. */
  lemma BothAcceptedIffNothingEndsBetween(cfg: Config, presented: seq<Secret>, s: Race, run: seq<Move>, i: nat, j: nat, p: Secret)
    requires |s.stages| == |presented| && p in s.tokens && s.tokens[p].status == Live && DrawsAll(cfg, presented, s, run)
    requires i < j && LooksUp(cfg, presented, s, run, i, p) && LooksUp(cfg, presented, s, run, j, p)
    requires run[i].known && run[j].known && Raced(cfg, presented, s, run[..j]).now < s.tokens[p].expiresAt
    ensures Accepted(cfg, presented, s, run, i, p) && Accepted(cfg, presented, s, run, j, p) <==>
              Untouched(cfg, presented, s, run[..j], p)
  {
    AcceptedUntilEnded(cfg, presented, s, run, i, p);
    AcceptedUntilEnded(cfg, presented, s, run, j, p);
    if Untouched(cfg, presented, s, run[..j], p) {
      UntouchedPrefix(cfg, presented, s, run[..j], i, p);
      assert run[..j][..i] == run[..i];
      TimePasses(cfg, presented, s, run, i, j);
    }
  }

  lemma UntouchedPrefix(cfg: Config, presented: seq<Secret>, s: Race, run: seq<Move>, n: nat, p: Secret)
    requires |s.stages| == |presented| && Untouched(cfg, presented, s, run, p) && n <= |run|
    ensures Untouched(cfg, presented, s, run[..n], p)
  {
    forall i | 0 <= i < n ensures !Ends(presented, Raced(cfg, presented, s, run[..n][..i]), run[..n][i], p) {
      assert run[..n][..i] == run[..i];
      assert !Ends(presented, Raced(cfg, presented, s, run[..i]), run[i], p);
    }
  }

  lemma {:induction false} TimePasses(cfg: Config, presented: seq<Secret>, s: Race, run: seq<Move>, i: nat, j: nat)
    requires |s.stages| == |presented| && i <= j <= |run|
    ensures Raced(cfg, presented, s, run[..i]).now <= Raced(cfg, presented, s, run[..j]).now
    decreases j
  {
    if i < j {
      TimePasses(cfg, presented, s, run, i, j - 1);
      assert run[..j][..j - 1] == run[..j - 1];
    }
  }

  // ---- the race ----

  function MovedTwice(cfg: Config, presented: seq<Secret>, s: Race, m: Move, n: Move): Race
    requires |s.stages| == |presented|
  {
    Moved(cfg, presented, Moved(cfg, presented, s, m), n)
  }

  lemma BothLook(cfg: Config, s: Race, p: Secret)
    requires s.stages == [Idle, Idle] && p in s.tokens && s.tokens[p].IsUsable(s.now)
    ensures MovedTwice(cfg, [p, p], s, Look(0, true), Look(1, true)) == s.(stages := [Found(s.tokens[p]), Found(s.tokens[p])])
  {
  }

  lemma BothSpend(cfg: Config, s: Race, p: Secret, t: Token)
    requires s.stages == [Found(t), Found(t)]
    ensures MovedTwice(cfg, [p, p], s, Spend(0), Spend(1)) == s.(tokens := Revoked(s.tokens, p, Rotated), stages := [Spent(t), Spent(t)])
  {
  }

  lemma BothIssue(cfg: Config, s: Race, p: Secret, t: Token, a: Secret, b: Secret)
    requires s.stages == [Spent(t), Spent(t)] && a != b
    ensures var next := Token(t.user, t.family, s.now + cfg.refreshTtl, Live);
            MovedTwice(cfg, [p, p], s, Issue(0, a, false), Issue(1, b, false))
              == s.(tokens := s.tokens[a := next][b := next], stages := [Succeeded(a), Succeeded(b)])
  {
  }

  lemma Extend(cfg: Config, presented: seq<Secret>, s: Race, run: seq<Move>, m: Move) returns (all: seq<Move>)
    requires |s.stages| == |presented| && DrawsAll(cfg, presented, s, run) && Draws(Raced(cfg, presented, s, run), m)
    ensures all == run + [m] && DrawsAll(cfg, presented, s, all)
    ensures Raced(cfg, presented, s, all) == Moved(cfg, presented, Raced(cfg, presented, s, run), m)
  {
    all := run + [m];
    assert all[..|run|] == run;
    forall i | 0 <= i < |all| ensures Draws(Raced(cfg, presented, s, all[..i]), all[i]) {
      if i < |run| {
        assert all[..i] == run[..i];
        assert Draws(Raced(cfg, presented, s, run[..i]), run[i]);
      }
    }
  }

  lemma ExtendTwice(cfg: Config, presented: seq<Secret>, s: Race, run: seq<Move>, mid: Race, m: Move, n: Move) returns (all: seq<Move>)
    requires |s.stages| == |presented| && DrawsAll(cfg, presented, s, run) && Raced(cfg, presented, s, run) == mid
    requires Draws(mid, m) && Draws(Moved(cfg, presented, mid, m), n)
    ensures all == run + [m, n] && DrawsAll(cfg, presented, s, all) && Raced(cfg, presented, s, all) == MovedTwice(cfg, presented, mid, m, n)
  {
    all := Extend(cfg, presented, s, run, m);
    all := Extend(cfg, presented, s, all, n);
  }

  /** And both then succeed, which leaves the sign-in two usable tokens: from any state, with any
      usable token, by six statements. */
  lemma TwoRefreshesBothSucceed(cfg: Config, s: Race, p: Secret, a: Secret, b: Secret) returns (run: seq<Move>)
    requires s.stages == [Idle, Idle] && p in s.tokens && s.tokens[p].IsUsable(s.now) && cfg.refreshTtl > 0
    requires a !in s.tokens && b !in s.tokens && a != b
    ensures DrawsAll(cfg, [p, p], s, run)
    ensures var s' := Raced(cfg, [p, p], s, run);
            && s'.stages == [Succeeded(a), Succeeded(b)] && a in s'.tokens && b in s'.tokens
            && s'.tokens[a].IsUsable(s'.now) && s'.tokens[b].IsUsable(s'.now)
            && s'.tokens[a].family == s'.tokens[b].family == s.tokens[p].family
  {
    var t := s.tokens[p];
    BothLook(cfg, s, p);
    run := ExtendTwice(cfg, [p, p], s, [], s, Look(0, true), Look(1, true));
    var looked := s.(stages := [Found(t), Found(t)]);
    BothSpend(cfg, looked, p, t);
    run := ExtendTwice(cfg, [p, p], s, run, looked, Spend(0), Spend(1));
    var spent := looked.(tokens := Revoked(s.tokens, p, Rotated), stages := [Spent(t), Spent(t)]);
    BothIssue(cfg, spent, p, t, a, b);
    run := ExtendTwice(cfg, [p, p], s, run, spent, Issue(0, a, false), Issue(1, b, false));
  }

  // ---- a refresh that overlaps a logout ----

  predicate IsMoveOf(m: Move, c: nat) {
    (m.Look? || m.Spend? || m.Issue?) && m.call == c
  }

  lemma {:induction false} StageStays(cfg: Config, presented: seq<Secret>, s: Race, run: seq<Move>, i: nat, j: nat, c: nat)
    requires |s.stages| == |presented| && c < |presented| && i <= j <= |run|
    requires forall h | i <= h < j :: !IsMoveOf(run[h], c)
    ensures Raced(cfg, presented, s, run[..i]).stages[c] == Raced(cfg, presented, s, run[..j]).stages[c]
    decreases j
  {
    if i < j {
      StageStays(cfg, presented, s, run, i, j - 1, c);
      RacedSnoc(cfg, presented, s, run, j - 1);
    }
  }

  lemma RacedSnoc(cfg: Config, presented: seq<Secret>, s: Race, run: seq<Move>, n: nat)
    requires |s.stages| == |presented| && n < |run|
    ensures Raced(cfg, presented, s, run[..n + 1]) == Moved(cfg, presented, Raced(cfg, presented, s, run[..n]), run[n])
  {
    assert run[..n + 1][..n] == run[..n];
  }

  /** A whole call in a run: these are its three statements, and it has no other before the last. */
  predicate IsCall(run: seq<Move>, c: nat, i: nat, j: nat, m: nat) {
    && i < j < m < |run| && run[i].Look? && run[j].Spend? && run[m].Issue?
    && run[i].call == run[j].call == run[m].call == c
    && forall h | 0 <= h < m && h != i && h != j :: !IsMoveOf(run[h], c)
  }

  /** A call that goes through all its statements succeeds exactly if its lookup accepted and its issue
      did not fail; whatever ended the token in between makes no difference. */
  lemma CallSucceedsIffAccepted(cfg: Config, presented: seq<Secret>, s: Race, run: seq<Move>, c: nat, i: nat, j: nat, m: nat, p: Secret)
    requires |s.stages| == |presented| && c < |presented| && presented[c] == p && s.stages[c].Idle? && IsCall(run, c, i, j, m)
    requires p in s.tokens && s.tokens[p].status == Live && DrawsAll(cfg, presented, s, run) && cfg.refreshTtl > 0
    ensures LooksUp(cfg, presented, s, run, i, p)
    ensures var (s', x) := (Raced(cfg, presented, s, run[..m + 1]), run[m].secret);
            && (s'.stages[c] == Succeeded(x) <==> Accepted(cfg, presented, s, run, i, p) && !run[m].fails)
            && (s'.stages[c] == Succeeded(x) ==> x in s'.tokens && s'.tokens[x].IsUsable(s'.now) && s'.tokens[x].family == s.tokens[p].family)
  {
    CallLooksUp(cfg, presented, s, run, c, i, j, m, p);
    FoundOrRefused(cfg, presented, s, run, c, i, p);
    StageBeforeIssue(cfg, presented, s, run, c, i, j, m);
    IssueOf(cfg, presented, s, run, m);
  }

  lemma CallLooksUp(cfg: Config, presented: seq<Secret>, s: Race, run: seq<Move>, c: nat, i: nat, j: nat, m: nat, p: Secret)
    requires |s.stages| == |presented| && c < |presented| && presented[c] == p && s.stages[c].Idle? && IsCall(run, c, i, j, m)
    ensures LooksUp(cfg, presented, s, run, i, p)
  {
    StageStays(cfg, presented, s, run, 0, i, c);
    assert run[..0] == [];
  }

  /** What was found is spent by the time of the issue, and a refusal stands. */
  lemma StageBeforeIssue(cfg: Config, presented: seq<Secret>, s: Race, run: seq<Move>, c: nat, i: nat, j: nat, m: nat)
    requires |s.stages| == |presented| && c < |presented| && i < j < m <= |run| && run[j] == Spend(c)
    requires forall h | i < h < m && h != j :: !IsMoveOf(run[h], c)
    ensures var (found, spent) := (Raced(cfg, presented, s, run[..i + 1]).stages[c], Raced(cfg, presented, s, run[..m]).stages[c]);
            spent == if found.Found? then Spent(found.token) else found
  {
    StageStays(cfg, presented, s, run, i + 1, j, c);
    RacedSnoc(cfg, presented, s, run, j);
    SpendOf(cfg, presented, Raced(cfg, presented, s, run[..j]), run[j]);
    StageStays(cfg, presented, s, run, j + 1, m, c);
  }

  lemma FoundOrRefused(cfg: Config, presented: seq<Secret>, s: Race, run: seq<Move>, c: nat, i: nat, p: Secret)
    requires |s.stages| == |presented| && p in s.tokens && s.tokens[p].status == Live && DrawsAll(cfg, presented, s, run)
    requires LooksUp(cfg, presented, s, run, i, p) && run[i].call == c
    ensures Raced(cfg, presented, s, run[..i + 1]).stages[c] == if Accepted(cfg, presented, s, run, i, p) then Found(s.tokens[p]) else Refused
  {
    DrawsPrefix(cfg, presented, s, run, i);
    LiveUntilEnded(cfg, presented, s, run[..i], p);
    FoundAsStored(cfg, presented, s, run, c, i, p);
  }

  lemma FoundAsStored(cfg: Config, presented: seq<Secret>, s: Race, run: seq<Move>, c: nat, i: nat, p: Secret)
    requires |s.stages| == |presented| && LooksUp(cfg, presented, s, run, i, p) && run[i].call == c && p in s.tokens
    requires var mid := Raced(cfg, presented, s, run[..i]); p in mid.tokens && mid.tokens[p].(status := Live) == s.tokens[p]
    ensures Raced(cfg, presented, s, run[..i + 1]).stages[c] == if Accepted(cfg, presented, s, run, i, p) then Found(s.tokens[p]) else Refused
  {
    RacedSnoc(cfg, presented, s, run, i);
    LookOf(cfg, presented, Raced(cfg, presented, s, run[..i]), run[i]);
  }

  lemma LookOf(cfg: Config, presented: seq<Secret>, s: Race, m: Move)
    requires |s.stages| == |presented| && m.Look? && m.call < |presented| && s.stages[m.call].Idle?
    ensures var (p, stage) := (presented[m.call], Moved(cfg, presented, s, m).stages[m.call]);
            stage == Refused || (p in s.tokens && s.tokens[p].status == Live && stage == Found(s.tokens[p]))
  {
  }

  lemma SpendOf(cfg: Config, presented: seq<Secret>, s: Race, m: Move)
    requires |s.stages| == |presented| && m.Spend? && m.call < |presented|
    ensures var (before, after) := (s.stages[m.call], Moved(cfg, presented, s, m).stages[m.call]);
            after == if before.Found? then Spent(before.token) else before
  {
  }

  lemma IssueOf(cfg: Config, presented: seq<Secret>, s: Race, run: seq<Move>, m: nat)
    requires |s.stages| == |presented| && m < |run| && run[m].Issue? && run[m].call < |presented| && cfg.refreshTtl > 0
    ensures var (before, s', c, x) := (Raced(cfg, presented, s, run[..m]).stages[run[m].call], Raced(cfg, presented, s, run[..m + 1]),
                                       run[m].call, run[m].secret);
            if !before.Spent? then s'.stages[c] == before
            else if run[m].fails then s'.stages[c] == Refused
            else s'.stages[c] == Succeeded(x) && x in s'.tokens && s'.tokens[x].IsUsable(s'.now) && s'.tokens[x].family == before.token.family
  {
    RacedSnoc(cfg, presented, s, run, m);
  }

  /** So a refresh outruns a logout that comes in the middle of it: where the logout is the first thing
      to end the token, a call that finishes after it leaves a usable token exactly if its lookup came
      before the logout and its issue does not fail. */
  lemma LogoutIsOutrunIffLookedUpBefore(cfg: Config, presented: seq<Secret>, s: Race, run: seq<Move>,
                                        c: nat, i: nat, j: nat, m: nat, l: nat, p: Secret)
    requires |s.stages| == |presented| && c < |presented| && presented[c] == p && s.stages[c].Idle? && IsCall(run, c, i, j, m)
    requires p in s.tokens && s.tokens[p].status == Live && DrawsAll(cfg, presented, s, run) && cfg.refreshTtl > 0
    requires l < m && run[l] == Leave(p) && Untouched(cfg, presented, s, run[..l], p)
    requires run[i].known && Raced(cfg, presented, s, run[..i]).now < s.tokens[p].expiresAt
    ensures var (s', x) := (Raced(cfg, presented, s, run[..m + 1]), run[m].secret);
            && (s'.stages[c] == Succeeded(x) <==> i < l && !run[m].fails)
            && (i < l && !run[m].fails ==> x in s'.tokens && s'.tokens[x].IsUsable(s'.now) && s'.tokens[x].family == s.tokens[p].family)
  {
    CallSucceedsIffAccepted(cfg, presented, s, run, c, i, j, m, p);
    AcceptedUntilEnded(cfg, presented, s, run, i, p);
    if i < l {
      UntouchedPrefix(cfg, presented, s, run[..l], i, p);
      assert run[..l][..i] == run[..i];
    } else {
      EndedBefore(cfg, presented, s, run, l, i, p);
    }
  }

  lemma EndedBefore(cfg: Config, presented: seq<Secret>, s: Race, run: seq<Move>, l: nat, i: nat, p: Secret)
    requires |s.stages| == |presented| && l < i <= |run| && run[l] == Leave(p)
    ensures !Untouched(cfg, presented, s, run[..i], p)
  {
    assert run[..i][l] == run[l];
    assert Ends(presented, Raced(cfg, presented, s, run[..i][..l]), run[..i][l], p);
  }

  lemma LeaveAfterLook(cfg: Config, s: Race, p: Secret)
    requires s.stages == [Idle] && p in s.tokens && s.tokens[p].IsUsable(s.now)
    ensures MovedTwice(cfg, [p], s, Look(0, true), Leave(p)) == s.(tokens := Revoked(s.tokens, p, Ended), stages := [Found(s.tokens[p])])
  {
  }

  lemma FinishAfterAll(cfg: Config, s: Race, p: Secret, t: Token, a: Secret)
    requires s.stages == [Found(t)] && cfg.refreshTtl > 0
    ensures var s' := MovedTwice(cfg, [p], s, Spend(0), Issue(0, a, false));
            a in s'.tokens && s'.tokens[a].IsUsable(s'.now) && s'.tokens[a].family == t.family
  {
  }

  /** A run of it, with any usable token: the owner leaves between lookup and revocation. */
  lemma ALogoutIsOutrun(cfg: Config, s: Race, p: Secret, a: Secret) returns (run: seq<Move>)
    requires s.stages == [Idle] && p in s.tokens && s.tokens[p].IsUsable(s.now) && cfg.refreshTtl > 0 && a !in s.tokens
    ensures run == [Look(0, true), Leave(p)] + [Spend(0), Issue(0, a, false)] && DrawsAll(cfg, [p], s, run)
    ensures var s' := Raced(cfg, [p], s, run); a in s'.tokens && s'.tokens[a].IsUsable(s'.now) && s'.tokens[a].family == s.tokens[p].family
  {
    LeaveAfterLook(cfg, s, p);
    var left := s.(tokens := Revoked(s.tokens, p, Ended), stages := [Found(s.tokens[p])]);
    FinishAfterAll(cfg, left, p, s.tokens[p], a);
    var first := ExtendTwice(cfg, [p], s, [], s, Look(0, true), Leave(p));
    run := ExtendTwice(cfg, [p], s, first, left, Spend(0), Issue(0, a, false));
  }
}
