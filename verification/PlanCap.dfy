/**
 Which monitors an organization's plan lets the control plane probe: the oldest ones, as many as
 the plan allows.
 */
module PlanCap {
  import opened Monitors
  import opened Sets

  type Plan = string

  /** How many monitors each organization may have probed; the plan package decides, and an
      organization it knows nothing about gets what the empty plan gets. */
  function LimitOf(plans: map<nat, Plan>, limitsFor: Plan -> int): nat -> int {
    org => limitsFor(if org in plans then plans[org] else "")
  }

  /** Older first; of equally old monitors the one listed first. */
  predicate Before(ms: seq<Monitor>, i: nat, j: nat)
    requires i < |ms| && j < |ms|
  {
    ms[i].createdAt < ms[j].createdAt || (ms[i].createdAt == ms[j].createdAt && i < j)
  }

  function Older(ms: seq<Monitor>, i: nat): set<nat>
    requires i < |ms|
  {
    set j: nat | j < |ms| && ms[j].org == ms[i].org && Before(ms, j, i)
  }

  predicate Allowed(ms: seq<Monitor>, limit: nat -> int, i: nat)
    requires i < |ms|
  {
    |Older(ms, i)| < limit(ms[i].org)
  }

  function AllowedIds(ms: seq<Monitor>, limit: nat -> int): set<Uuid> {
    set i: nat | i < |ms| && Allowed(ms, limit, i) :: ms[i].id
  }

  function Filter(ms: seq<Monitor>, ids: set<Uuid>): seq<Monitor> {
    if ms == [] then []
    else Filter(ms[..|ms| - 1], ids) + if ms[|ms| - 1].id in ids then [ms[|ms| - 1]] else []
  }

  function Cap(ms: seq<Monitor>, limit: nat -> int): seq<Monitor> {
    Filter(ms, AllowedIds(ms, limit))
  }

  function OrgIds(ms: seq<Monitor>, org: nat): set<Uuid> {
    set m | m in ms && m.org == org :: m.id
  }

  /** One organization's part of a list. */
  function OfOrg(ms: seq<Monitor>, org: nat): seq<Monitor> {
    Filter(ms, OrgIds(ms, org))
  }

  ghost predicate DistinctIds(ms: seq<Monitor>) {
    forall i, j | 0 <= i < j < |ms| :: ms[i].id != ms[j].id
  }

  // ---- filtering ----

  /** The positions a filter keeps. */
  function Picks(ms: seq<Monitor>, ids: set<Uuid>): seq<nat> {
    if ms == [] then []
    else Picks(ms[..|ms| - 1], ids) + if ms[|ms| - 1].id in ids then [|ms| - 1] else []
  }

  ghost predicate Rising(p: seq<nat>) {
    forall i, j | 0 <= i < j < |p| :: p[i] < p[j]
  }

  lemma {:induction false} PicksRise(ms: seq<Monitor>, ids: set<Uuid>)
    ensures Rising(Picks(ms, ids)) && |Filter(ms, ids)| == |Picks(ms, ids)|
    ensures forall k | 0 <= k < |Picks(ms, ids)| :: Picks(ms, ids)[k] < |ms|
  {
    if ms != [] {
      PicksRise(ms[..|ms| - 1], ids);
    }
  }

  lemma {:induction false} FilterPicks(ms: seq<Monitor>, ids: set<Uuid>)
    ensures var p := Picks(ms, ids);
            |Filter(ms, ids)| == |p| && Rising(p)
            && (forall k | 0 <= k < |p| :: p[k] < |ms| && Filter(ms, ids)[k] == ms[p[k]] && ms[p[k]].id in ids)
  {
    PicksRise(ms, ids);
    if ms != [] {
      var rest := ms[..|ms| - 1];
      FilterPicks(rest, ids);
      var p, f := Picks(rest, ids), Filter(rest, ids);
      forall k | 0 <= k < |p| ensures p[k] < |rest| && f[k] == ms[p[k]] && ms[p[k]].id in ids {
        assert rest[p[k]] == ms[p[k]];
      }
    }
  }

  lemma {:induction false} PicksAll(ms: seq<Monitor>, ids: set<Uuid>)
    ensures forall i | 0 <= i < |ms| && ms[i].id in ids :: i in Picks(ms, ids)
  {
    if ms != [] {
      var rest := ms[..|ms| - 1];
      PicksAll(rest, ids);
      assert forall i | 0 <= i < |rest| :: ms[i] == rest[i];
    }
  }

  lemma {:induction false} FilterTwice(ms: seq<Monitor>, a: set<Uuid>, b: set<Uuid>)
    ensures Filter(Filter(ms, a), b) == Filter(ms, a * b)
  {
    if ms != [] {
      var rest, last := ms[..|ms| - 1], ms[|ms| - 1];
      FilterTwice(rest, a, b);
      var f := Filter(rest, a);
      if last.id in a {
        assert Filter(ms, a) == f + [last];
        assert (f + [last])[..|f|] == f;
      } else {
        assert Filter(ms, a) == f;
      }
    }
  }

  lemma {:induction false} FilterSame(ms: seq<Monitor>, a: set<Uuid>, b: set<Uuid>)
    requires forall m | m in ms :: m.id in a <==> m.id in b
    ensures Filter(ms, a) == Filter(ms, b)
  {
    if ms != [] {
      assert forall m | m in ms[..|ms| - 1] :: m in ms;
      FilterSame(ms[..|ms| - 1], a, b);
      assert ms[|ms| - 1] in ms;
    }
  }

  lemma FilterKeepsDistinct(ms: seq<Monitor>, ids: set<Uuid>)
    requires DistinctIds(ms)
    ensures DistinctIds(Filter(ms, ids))
  {
    FilterPicks(ms, ids);
  }

  lemma FilterMembers(ms: seq<Monitor>, ids: set<Uuid>)
    ensures forall m :: m in Filter(ms, ids) <==> m in ms && m.id in ids
  {
    FilterPicks(ms, ids);
    PicksAll(ms, ids);
    forall m | m in ms && m.id in ids ensures m in Filter(ms, ids) {
      var i :| 0 <= i < |ms| && ms[i] == m;
      var k :| 0 <= k < |Picks(ms, ids)| && Picks(ms, ids)[k] == i;
    }
  }

  // ---- ranks survive filters that keep everything older ----

  lemma {:induction false} ImageSize(a: set<nat>, p: seq<nat>)
    requires Rising(p) && forall k | k in a :: k < |p|
    ensures |set k | k in a :: p[k]| == |a|
  {
    if a != {} {
      var x :| x in a;
      ImageSize(a - {x}, p);
      assert (set k | k in a :: p[k]) == (set k | k in a - {x} :: p[k]) + {p[x]};
      assert p[x] !in set k | k in a - {x} :: p[k];
    }
  }

  /** A filter that with a monitor keeps all older ones of its organization. */
  ghost predicate KeepsOlder(ms: seq<Monitor>, ids: set<Uuid>) {
    forall i, j | 0 <= i < |ms| && ms[i].id in ids && j in Older(ms, i) :: ms[j].id in ids
  }

  /** The older ones among the picked are all of the older ones. */
  lemma OlderArePicked(ms: seq<Monitor>, ids: set<Uuid>, k: nat)
    requires KeepsOlder(ms, ids) && k < |Picks(ms, ids)| == |Filter(ms, ids)|
    requires forall j | 0 <= j < |Picks(ms, ids)| :: Picks(ms, ids)[j] < |ms|
    ensures (set j | j in Older(Filter(ms, ids), k) :: Picks(ms, ids)[j]) == Older(ms, Picks(ms, ids)[k])
  {
    FilterPicks(ms, ids);
    PicksAll(ms, ids);
    var f, p := Filter(ms, ids), Picks(ms, ids);
    forall i | i in Older(ms, p[k]) ensures exists j :: j in Older(f, k) && p[j] == i {
      assert i in p;
      var j :| 0 <= j < |p| && p[j] == i;
      assert j in Older(f, k);
    }
  }

  lemma RankSurvives(ms: seq<Monitor>, ids: set<Uuid>, k: nat)
    requires KeepsOlder(ms, ids) && k < |Picks(ms, ids)|
    ensures |Filter(ms, ids)| == |Picks(ms, ids)| && Picks(ms, ids)[k] < |ms|
    ensures |Older(Filter(ms, ids), k)| == |Older(ms, Picks(ms, ids)[k])|
  {
    FilterPicks(ms, ids);
    OlderArePicked(ms, ids, k);
    ImageSize(Older(Filter(ms, ids), k), Picks(ms, ids));
  }

  /** Capping after such a filter allows what it would have allowed before. */
  lemma AllowedAfterFilter(ms: seq<Monitor>, ids: set<Uuid>, limit: nat -> int)
    requires DistinctIds(ms) && KeepsOlder(ms, ids)
    ensures AllowedIds(Filter(ms, ids), limit) == AllowedIds(ms, limit) * ids
  {
    FilterPicks(ms, ids);
    PicksAll(ms, ids);
    var f, p := Filter(ms, ids), Picks(ms, ids);
    forall id | id in AllowedIds(f, limit) ensures id in AllowedIds(ms, limit) * ids {
      var k: nat :| k < |f| && Allowed(f, limit, k) && f[k].id == id;
      RankSurvives(ms, ids, k);
    }
    forall id | id in AllowedIds(ms, limit) * ids ensures id in AllowedIds(f, limit) {
      var i: nat :| i < |ms| && Allowed(ms, limit, i) && ms[i].id == id;
      assert i in p;
      var k :| 0 <= k < |p| && p[k] == i;
      RankSurvives(ms, ids, k);
    }
  }

  /** Only the oldest are kept: with a monitor every older one of its organization is. */
  lemma CapKeepsOlder(ms: seq<Monitor>, limit: nat -> int)
    requires DistinctIds(ms)
    ensures KeepsOlder(ms, AllowedIds(ms, limit))
  {
    forall i, j | 0 <= i < |ms| && ms[i].id in AllowedIds(ms, limit) && j in Older(ms, i)
      ensures ms[j].id in AllowedIds(ms, limit)
    {
      assert Older(ms, j) <= Older(ms, i);
      SubsetSize(Older(ms, j), Older(ms, i));
      assert Allowed(ms, limit, j);
    }
  }

  // ---- what a cap does ----

  /** Capping generously first makes no difference; in particular capping twice is capping once. */
  lemma CapsCompose(ms: seq<Monitor>, tight: nat -> int, loose: nat -> int)
    requires DistinctIds(ms) && forall org :: tight(org) <= loose(org)
    ensures Cap(Cap(ms, loose), tight) == Cap(ms, tight)
  {
    var a, b := AllowedIds(ms, loose), AllowedIds(ms, tight);
    CapKeepsOlder(ms, loose);
    AllowedAfterFilter(ms, a, tight);
    FilterTwice(ms, a, b * a);
    assert b <= a;
    assert a * (b * a) == b;
  }

  /** A higher limit keeps at least as much. */
  lemma CapIsMonotone(ms: seq<Monitor>, tight: nat -> int, loose: nat -> int)
    requires DistinctIds(ms) && forall org :: tight(org) <= loose(org)
    ensures forall m | m in Cap(ms, tight) :: m in Cap(ms, loose)
  {
    CapsCompose(ms, tight, loose);
    FilterMembers(Cap(ms, loose), AllowedIds(Cap(ms, loose), tight));
  }

  lemma OrgKeepsOlder(ms: seq<Monitor>, org: nat)
    requires DistinctIds(ms)
    ensures KeepsOlder(ms, OrgIds(ms, org))
    ensures forall m | m in ms :: m.id in OrgIds(ms, org) <==> m.org == org
  {
    forall m | m in ms ensures m.id in OrgIds(ms, org) <==> m.org == org {
      SameIdSameMonitor(ms);
    }
    forall i, j | 0 <= i < |ms| && ms[i].id in OrgIds(ms, org) && j in Older(ms, i) ensures ms[j].id in OrgIds(ms, org) {
      assert ms[i] in ms && ms[j] in ms;
    }
  }

  lemma SameIdSameMonitor(ms: seq<Monitor>)
    requires DistinctIds(ms)
    ensures forall a, b | a in ms && b in ms && a.id == b.id :: a == b
  {
  }

  lemma CapOfOrgFiltered(ms: seq<Monitor>, org: nat, limit: nat -> int)
    requires DistinctIds(ms)
    ensures OfOrg(Cap(ms, limit), org) == Filter(ms, AllowedIds(ms, limit) * OrgIds(ms, org))
    ensures Cap(OfOrg(ms, org), limit) == Filter(ms, AllowedIds(ms, limit) * OrgIds(ms, org))
  {
    var a, o := AllowedIds(ms, limit), OrgIds(ms, org);
    OrgKeepsOlder(ms, org);
    AllowedAfterFilter(ms, o, limit);
    FilterTwice(ms, o, a * o);
    assert o * (a * o) == a * o;
    FilterMembers(ms, a);
    SameIdSameMonitor(ms);
    FilterSame(Filter(ms, a), OrgIds(Filter(ms, a), org), o);
    FilterTwice(ms, a, o);
  }

  /** What is kept of one organization depends on its own monitors and limit only. */
  lemma OrgsAreIndependent(ms: seq<Monitor>, ms': seq<Monitor>, org: nat, limit: nat -> int, limit': nat -> int)
    requires DistinctIds(ms) && DistinctIds(ms') && OfOrg(ms, org) == OfOrg(ms', org) && limit(org) == limit'(org)
    ensures OfOrg(Cap(ms, limit), org) == OfOrg(Cap(ms', limit'), org)
  {
    CapOfOrgFiltered(ms, org, limit);
    CapOfOrgFiltered(ms', org, limit');
    var own := OfOrg(ms, org);
    OrgKeepsOlder(ms, org);
    FilterMembers(ms, OrgIds(ms, org));
    forall i: nat | i < |own| ensures Allowed(own, limit, i) <==> Allowed(own, limit', i) {
      assert own[i] in own;
    }
    assert AllowedIds(own, limit) == AllowedIds(own, limit');
  }

  // ---- how many are kept ----

  function Below(ms: seq<Monitor>, s: set<nat>, i: nat): set<nat>
    requires i < |ms| && forall j | j in s :: j < |ms|
  {
    set j | j in s && Before(ms, j, i)
  }

  lemma {:induction false} NewestOf(ms: seq<Monitor>, s: set<nat>) returns (newest: nat)
    requires s != {} && forall j | j in s :: j < |ms|
    ensures newest in s && forall j | j in s && j != newest :: Before(ms, j, newest)
  {
    var some :| some in s;
    newest := some;
    if s != {some} {
      var other := NewestOf(ms, s - {some});
      newest := if Before(ms, some, other) then other else some;
      forall j | j in s && j != newest ensures Before(ms, j, newest) {
        assert j == some || j == other || j in s - {some};
      }
    }
  }

  function Low(ms: seq<Monitor>, s: set<nat>, n: nat): set<nat>
    requires forall j | j in s :: j < |ms|
  {
    set i | i in s && |Below(ms, s, i)| < n
  }

  lemma LowWithNewest(ms: seq<Monitor>, s: set<nat>, newest: nat, n: nat)
    requires newest !in s && newest < |ms| && forall j | j in s :: j < |ms| && Before(ms, j, newest)
    ensures Low(ms, s + {newest}, n) == if |s| < n then Low(ms, s, n) + {newest} else Low(ms, s, n)
  {
    assert Below(ms, s + {newest}, newest) == s;
    forall i | i in s ensures Below(ms, s + {newest}, i) == Below(ms, s, i) {
      assert Before(ms, i, newest);
    }
  }

  lemma {:induction false} LowRanks(ms: seq<Monitor>, s: set<nat>, n: nat)
    requires forall j | j in s :: j < |ms|
    ensures |Low(ms, s, n)| == if |s| < n then |s| else n
  {
    if s == {} {
      assert Low(ms, s, n) == {};
    } else {
      var newest := NewestOf(ms, s);
      var rest := s - {newest};
      LowRanks(ms, rest, n);
      LowWithNewest(ms, rest, newest, n);
      assert s == rest + {newest};
    }
  }

  function Positions(ms: seq<Monitor>, ids: set<Uuid>): set<nat> {
    set i: nat | i < |ms| && ms[i].id in ids
  }

  lemma {:induction false} FilterSize(ms: seq<Monitor>, ids: set<Uuid>)
    ensures |Filter(ms, ids)| == |Positions(ms, ids)|
  {
    if ms == [] {
      assert Positions(ms, ids) == {};
    } else {
      var n := |ms| - 1;
      FilterSize(ms[..n], ids);
      assert Positions(ms, ids) == Positions(ms[..n], ids) + if ms[n].id in ids then {n} else {};
    }
  }

  /** Per organization exactly as many are kept as there are and the limit allows. */
  lemma CapCount(ms: seq<Monitor>, org: nat, limit: nat -> int)
    requires DistinctIds(ms)
    ensures var all := |OfOrg(ms, org)|;
            |OfOrg(Cap(ms, limit), org)| == if limit(org) <= 0 then 0 else if all <= limit(org) then all else limit(org)
  {
    CapOfOrgFiltered(ms, org, limit);
    var a, o := AllowedIds(ms, limit), OrgIds(ms, org);
    FilterSize(ms, a * o);
    FilterSize(ms, o);
    OrgKeepsOlder(ms, org);
    var n := if limit(org) <= 0 then 0 else limit(org);
    LowRanks(ms, Positions(ms, o), n);
    AllowedPositions(ms, org, limit, n);
  }

  /** The allowed positions of an organization are those below its limit. */
  lemma AllowedPositions(ms: seq<Monitor>, org: nat, limit: nat -> int, n: nat)
    requires DistinctIds(ms) && n == if limit(org) <= 0 then 0 else limit(org)
    ensures var s := Positions(ms, OrgIds(ms, org));
            Positions(ms, AllowedIds(ms, limit) * OrgIds(ms, org)) == Low(ms, s, n)
  {
    var s := Positions(ms, OrgIds(ms, org));
    OrgKeepsOlder(ms, org);
    forall i | i in s ensures |Below(ms, s, i)| < n <==> ms[i].id in AllowedIds(ms, limit) {
      assert ms[i] in ms;
      BelowIsOlder(ms, org, i);
    }
  }

  lemma BelowIsOlder(ms: seq<Monitor>, org: nat, i: nat)
    requires DistinctIds(ms) && i in Positions(ms, OrgIds(ms, org))
    ensures Below(ms, Positions(ms, OrgIds(ms, org)), i) == Older(ms, i)
  {
    forall j: nat | j < |ms| ensures j in Positions(ms, OrgIds(ms, org)) <==> ms[j].org == org {
      assert ms[j] in ms;
    }
    assert ms[i] in ms;
  }

  /** The order of the input is kept and nothing is invented. */
  lemma CapIsASubsequence(ms: seq<Monitor>, limit: nat -> int)
    requires DistinctIds(ms)
    ensures var p := Picks(ms, AllowedIds(ms, limit));
            |Cap(ms, limit)| == |p| && Rising(p)
            && (forall k | 0 <= k < |p| :: p[k] < |ms| && Cap(ms, limit)[k] == ms[p[k]])
            && (forall i: nat | i < |ms| :: i in p <==> Allowed(ms, limit, i))
  {
    FilterPicks(ms, AllowedIds(ms, limit));
    PicksAll(ms, AllowedIds(ms, limit));
    forall i: nat | i < |ms| ensures ms[i].id in AllowedIds(ms, limit) <==> Allowed(ms, limit, i) {
      AllowedById(ms, limit, i);
    }
  }

  lemma AllowedById(ms: seq<Monitor>, limit: nat -> int, i: nat)
    requires DistinctIds(ms) && i < |ms|
    ensures ms[i].id in AllowedIds(ms, limit) <==> Allowed(ms, limit, i)
  {
  }

  // ---- the algorithm ----

  ghost predicate InOrder(ms: seq<Monitor>, idxs: seq<nat>) {
    && (forall k | 0 <= k < |idxs| :: idxs[k] < |ms|)
    && forall a, b | 0 <= a < b < |idxs| :: Before(ms, idxs[a], idxs[b])
  }

  /** All positions of an organization below n, in rising order. */
  function IndicesOf(ms: seq<Monitor>, org: nat, n: nat): seq<nat>
    requires n <= |ms|
  {
    if n == 0 then [] else IndicesOf(ms, org, n - 1) + if ms[n - 1].org == org then [n - 1] else []
  }

  lemma {:induction false} IndicesFacts(ms: seq<Monitor>, org: nat, n: nat)
    requires n <= |ms|
    ensures forall i :: i in IndicesOf(ms, org, n) <==> 0 <= i < n && ms[i].org == org
    ensures Rising(IndicesOf(ms, org, n))
  {
    if n > 0 {
      IndicesFacts(ms, org, n - 1);
      var earlier := IndicesOf(ms, org, n - 1);
      assert forall k | 0 <= k < |earlier| :: earlier[k] in earlier;
    }
  }

  /** In an organization's positions from old to new, each has as many older ones as precede it. */
  lemma RankIsPosition(ms: seq<Monitor>, org: nat, sorted: seq<nat>, k: nat)
    requires InOrder(ms, sorted) && k < |sorted|
    requires forall i: nat :: i in sorted <==> i < |ms| && ms[i].org == org
    ensures |Older(ms, sorted[k])| == k
  {
    assert sorted[k] in sorted;
    var earlier := Members(sorted[..k]);
    forall i | i in Older(ms, sorted[k]) ensures i in earlier {
      var j :| 0 <= j < |sorted| && sorted[j] == i;
      assert j < k;
      assert sorted[..k][j] == i;
    }
    forall i | i in earlier ensures i in Older(ms, sorted[k]) {
      var j :| 0 <= j < k && sorted[j] == i;
      assert sorted[j] in sorted;
    }
    assert earlier == Older(ms, sorted[k]);
    OrderedSize(ms, sorted[..k]);
  }

  function Members(idxs: seq<nat>): set<nat> {
    set i | i in idxs
  }

  lemma {:induction false} OrderedSize(ms: seq<Monitor>, sorted: seq<nat>)
    requires InOrder(ms, sorted)
    ensures |Members(sorted)| == |sorted|
  {
    if sorted != [] {
      var k := |sorted| - 1;
      var prefix, last := sorted[..k], sorted[k];
      assert sorted == prefix + [last];
      OrderedSize(ms, prefix);
      forall j | 0 <= j < k ensures sorted[j] != last {
        assert Before(ms, sorted[j], sorted[k]);
      }
      assert Members(sorted) == Members(prefix) + {last};
    }
  }

  lemma InsertedByAge(ms: seq<Monitor>, sorted: seq<nat>, k: nat, i: nat)
    requires InOrder(ms, sorted) && i < |ms| && k <= |sorted| && forall j | 0 <= j < |sorted| :: sorted[j] < i
    requires k > 0 ==> ms[sorted[k - 1]].createdAt <= ms[i].createdAt
    requires forall j | k <= j < |sorted| :: Before(ms, i, sorted[j])
    ensures InOrder(ms, sorted[..k] + [i] + sorted[k..])
  {
    forall a | 0 <= a < k ensures Before(ms, sorted[a], i) {
      assert a < k - 1 ==> Before(ms, sorted[a], sorted[k - 1]);
    }
  }

  method InsertByAge(ms: seq<Monitor>, sorted: seq<nat>, i: nat) returns (r: seq<nat>)
    requires InOrder(ms, sorted) && i < |ms| && forall j | 0 <= j < |sorted| :: sorted[j] < i
    ensures InOrder(ms, r) && forall j :: j in r <==> j in sorted || j == i
  {
    var k := |sorted|;
    while k > 0 && ms[i].createdAt < ms[sorted[k - 1]].createdAt
      invariant 0 <= k <= |sorted|
      invariant forall j | k <= j < |sorted| :: Before(ms, i, sorted[j])
    {
      k := k - 1;
    }
    InsertedByAge(ms, sorted, k, i);
    r := sorted[..k] + [i] + sorted[k..];
    assert sorted == sorted[..k] + sorted[k..];
  }

  method SortStable(ms: seq<Monitor>, idxs: seq<nat>) returns (sorted: seq<nat>)
    requires Rising(idxs) && forall i | i in idxs :: i < |ms|
    ensures InOrder(ms, sorted) && forall i :: i in sorted <==> i in idxs
  {
    sorted := [];
    for n := 0 to |idxs|
      invariant InOrder(ms, sorted) && forall i :: i in sorted <==> i in idxs[..n]
    {
      assert idxs[..n + 1] == idxs[..n] + [idxs[n]];
      assert idxs[n] in idxs;
      forall j | 0 <= j < |sorted| ensures sorted[j] < idxs[n] {
        assert sorted[j] in sorted;
        var k :| 0 <= k < n && idxs[k] == sorted[j];
      }
      sorted := InsertByAge(ms, sorted, idxs[n]);
    }
    assert idxs[..|idxs|] == idxs;
  }

  method GroupByOrg(ms: seq<Monitor>) returns (byOrg: map<nat, seq<nat>>)
    ensures forall org :: IndicesOf(ms, org, |ms|) == if org in byOrg then byOrg[org] else []
  {
    byOrg := map[];
    for i := 0 to |ms|
      invariant forall org :: IndicesOf(ms, org, i) == if org in byOrg then byOrg[org] else []
    {
      var org := ms[i].org;
      byOrg := byOrg[org := (if org in byOrg then byOrg[org] else []) + [i]];
    }
  }

  function AllowedOfOrgs(ms: seq<Monitor>, limit: nat -> int, orgs: set<nat>): set<Uuid> {
    set i: nat | i < |ms| && ms[i].org in orgs && Allowed(ms, limit, i) :: ms[i].id
  }

  method AllowOrg(ms: seq<Monitor>, org: nat, idxs: seq<nat>, limit: nat -> int) returns (allowed: set<Uuid>)
    requires idxs == IndicesOf(ms, org, |ms|)
    ensures allowed == AllowedOfOrgs(ms, limit, {org})
  {
    IndicesFacts(ms, org, |ms|);
    var max := limit(org);
    var sorted := SortStable(ms, idxs);
    allowed := {};
    for k := 0 to |sorted|
      invariant allowed == set j | 0 <= j < k && j < max :: ms[sorted[j]].id
    {
      if k < max {
        allowed := allowed + {ms[sorted[k]].id};
      }
    }
    forall k | 0 <= k < |sorted| ensures |Older(ms, sorted[k])| == k && ms[sorted[k]].org == org {
      assert sorted[k] in sorted;
      RankIsPosition(ms, org, sorted, k);
    }
    forall i: nat | i < |ms| && ms[i].org == org && Allowed(ms, limit, i) ensures ms[i].id in allowed {
      assert i in sorted;
      var k :| 0 <= k < |sorted| && sorted[k] == i;
    }
  }

  lemma AllowedSplits(ms: seq<Monitor>, limit: nat -> int, a: set<nat>, b: set<nat>)
    ensures AllowedOfOrgs(ms, limit, a + b) == AllowedOfOrgs(ms, limit, a) + AllowedOfOrgs(ms, limit, b)
  {
  }

  lemma AllowedOfAll(ms: seq<Monitor>, limit: nat -> int, byOrg: map<nat, seq<nat>>)
    requires forall org :: IndicesOf(ms, org, |ms|) == if org in byOrg then byOrg[org] else []
    ensures AllowedOfOrgs(ms, limit, byOrg.Keys) == AllowedIds(ms, limit)
  {
    forall i: nat | i < |ms| ensures ms[i].org in byOrg {
      IndicesFacts(ms, ms[i].org, |ms|);
      assert i in IndicesOf(ms, ms[i].org, |ms|);
    }
  }

  method AllowAll(ms: seq<Monitor>, byOrg: map<nat, seq<nat>>, limit: nat -> int) returns (allowed: set<Uuid>)
    requires forall org :: IndicesOf(ms, org, |ms|) == if org in byOrg then byOrg[org] else []
    ensures allowed == AllowedIds(ms, limit)
  {
    allowed := {};
    var done: set<nat>, todo := {}, byOrg.Keys;
    while todo != {}
      invariant done + todo == byOrg.Keys && allowed == AllowedOfOrgs(ms, limit, done)
      decreases todo
    {
      var org :| org in todo;
      var ids := AllowOrg(ms, org, byOrg[org], limit);
      AllowedSplits(ms, limit, done, {org});
      allowed := allowed + ids;
      done, todo := done + {org}, todo - {org};
    }
    assert done == byOrg.Keys;
    AllowedOfAll(ms, limit, byOrg);
  }

  method CapToPlan(ms: seq<Monitor>, plans: map<nat, Plan>, limitsFor: Plan -> int) returns (kept: seq<Monitor>)
    ensures kept == Cap(ms, LimitOf(plans, limitsFor))
  {
    var byOrg := GroupByOrg(ms);
    var allowed := AllowAll(ms, byOrg, LimitOf(plans, limitsFor));
    kept := [];
    for i := 0 to |ms|
      invariant kept == Filter(ms[..i], allowed)
    {
      assert ms[..i + 1][..i] == ms[..i];
      if ms[i].id in allowed {
        kept := kept + [ms[i]];
      }
    }
    assert ms[..|ms|] == ms;
  }
}
