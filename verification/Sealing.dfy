/**
 Header values at rest: each is stored encrypted behind a prefix, values from before that are
 plaintext, and a migration that several replicas run while users keep editing encrypts them.
 Encryption may give a different ciphertext each time; `Dec` is its inverse and fails on anything
 else.
 */
module Sealing {
  import opened Text
  import opened Wrappers

  type Id = nat

  type Dec = string -> Option<string>

  const SEALED_PREFIX := "enc:"

  /** A stored row: its header values as they are in the database, the settings stored with them in one
      document, and the other columns. */
  datatype Row = Row(headers: map<string, string>, settings: nat, columns: nat)

  predicate SameDocument(a: Row, b: Row) {
    a.headers == b.headers && a.settings == b.settings
  }

  predicate IsSealed(v: string) {
    HasPrefix(v, SEALED_PREFIX)
  }

  /** An unreadable value is read as empty. */
  function Opened(dec: Dec, v: string): string {
    if !IsSealed(v) then v
    else
      match dec(v[|SEALED_PREFIX|..])
      case None => ""
      case Some(plain) => plain
  }

  function OpenHeaders(dec: Dec, headers: map<string, string>): map<string, string> {
    map n | n in headers :: Opened(dec, headers[n])
  }

  /** Ciphertexts the cipher may have produced for these values. */
  predicate Encrypts(dec: Dec, headers: map<string, string>, ciphertexts: map<string, string>) {
    ciphertexts.Keys == headers.Keys && forall n | n in headers :: dec(ciphertexts[n]) == Some(headers[n])
  }

  function SealedConfig(headers: map<string, string>, ciphertexts: map<string, string>): map<string, string>
    requires ciphertexts.Keys == headers.Keys
  {
    map n | n in headers :: SEALED_PREFIX + ciphertexts[n]
  }

  predicate HasPlaintext(headers: map<string, string>) {
    exists n :: n in headers && !IsSealed(headers[n])
  }

  /** What is sealed reads back as it was, whatever it looked like, and leaves no plaintext. */
  lemma OpenAfterSeal(dec: Dec, headers: map<string, string>, ciphertexts: map<string, string>)
    requires Encrypts(dec, headers, ciphertexts)
    ensures OpenHeaders(dec, SealedConfig(headers, ciphertexts)) == headers
    ensures !HasPlaintext(SealedConfig(headers, ciphertexts))
  {
    forall n | n in headers
      ensures Opened(dec, SealedConfig(headers, ciphertexts)[n]) == headers[n] && IsSealed(SealedConfig(headers, ciphertexts)[n])
    {
      var v := SEALED_PREFIX + ciphertexts[n];
      assert v[..|SEALED_PREFIX|] == SEALED_PREFIX && v[|SEALED_PREFIX|..] == ciphertexts[n];
    }
  }

  // ---- replicas and users ----

  /** A migration pass: the rows it read and has not dealt with yet, and how many it rewrote. */
  datatype Pass = Pass(todo: seq<(Id, Row)>, sealed: nat)

  datatype World = World(rows: map<Id, Row>, passes: seq<Pass>)

  /** A pass reads all rows at once, in some order; then each row is handled by one compare-and-set.
      A pass that errs or whose replica dies just stops taking steps. Touching a row changes columns
      outside the document, such as the status. */
  datatype Action =
    | Begin(order: seq<Id>)
    | Advance(pass: nat, ciphertexts: map<string, string>)
    | Save(id: Id, row: Row, ciphertexts: map<string, string>)
    | Touch(id: Id, columns: nat)
    | Remove(id: Id)

  /** What the cipher could have given and the query could have returned. */
  ghost predicate Possible(dec: Dec, w: World, a: Action) {
    match a
    case Begin(order) => (forall id :: id in order <==> id in w.rows)
    case Advance(p, cts) =>
      p < |w.passes| && w.passes[p].todo != [] && Encrypts(dec, OpenHeaders(dec, w.passes[p].todo[0].1.headers), cts)
    case Save(_, row, cts) => Encrypts(dec, row.headers, cts)
    case _ => true
  }

  function Snapshot(rows: map<Id, Row>, order: seq<Id>): (todo: seq<(Id, Row)>)
    requires forall id | id in order :: id in rows
    ensures |todo| == |order| && forall i | 0 <= i < |order| :: todo[i] == (order[i], rows[order[i]])
  {
    seq(|order|, i requires 0 <= i < |order| => (order[i], rows[order[i]]))
  }

  /** The document is rewritten only if it held plaintext and is still as it was read. */
  function SealRow(dec: Dec, rows: map<Id, Row>, id: Id, read: Row, cts: map<string, string>): map<Id, Row>
    requires cts.Keys == read.headers.Keys
  {
    if HasPlaintext(read.headers) && id in rows && SameDocument(rows[id], read)
    then rows[id := rows[id].(headers := SealedConfig(OpenHeaders(dec, read.headers), cts), settings := read.settings)]
    else rows
  }

  function Step(dec: Dec, w: World, a: Action): World
    requires Possible(dec, w, a)
  {
    match a
    case Begin(order) => w.(passes := w.passes + [Pass(Snapshot(w.rows, order), 0)])
    case Advance(p, cts) =>
      var pass := w.passes[p];
      var (id, read) := pass.todo[0];
      var rows := SealRow(dec, w.rows, id, read, cts);
      World(rows, w.passes[p := Pass(pass.todo[1..], pass.sealed + if rows == w.rows then 0 else 1)])
    case Save(id, row, cts) => w.(rows := w.rows[id := row.(headers := SealedConfig(row.headers, cts))])
    case Touch(id, columns) => if id in w.rows then w.(rows := w.rows[id := w.rows[id].(columns := columns)]) else w
    case Remove(id) => w.(rows := w.rows - {id})
  }

  ghost predicate PossibleRun(dec: Dec, w: World, run: seq<Action>)
    decreases |run|
  {
    run == [] || (Possible(dec, w, run[0]) && PossibleRun(dec, Step(dec, w, run[0]), run[1..]))
  }

  function After(dec: Dec, w: World, run: seq<Action>): World
    requires PossibleRun(dec, w, run)
    decreases |run|
  {
    if run == [] then w else After(dec, Step(dec, w, run[0]), run[1..])
  }

  // ---- what users see ----

  /** The rows as everything but the database sees them. */
  function View(dec: Dec, rows: map<Id, Row>): map<Id, Row> {
    map id | id in rows :: rows[id].(headers := OpenHeaders(dec, rows[id].headers))
  }

  /** The same history with the migration left out. */
  function UserView(view: map<Id, Row>, run: seq<Action>): map<Id, Row>
    decreases |run|
  {
    if run == [] then view
    else UserView(match run[0]
                  case Save(id, row, _) => view[id := row]
                  case Touch(id, columns) => if id in view then view[id := view[id].(columns := columns)] else view
                  case Remove(id) => view - {id}
                  case _ => view,
                  run[1..])
  }

  lemma SealRowKeepsView(dec: Dec, rows: map<Id, Row>, id: Id, read: Row, cts: map<string, string>)
    requires Encrypts(dec, OpenHeaders(dec, read.headers), cts)
    ensures View(dec, SealRow(dec, rows, id, read, cts)) == View(dec, rows)
  {
    OpenAfterSeal(dec, OpenHeaders(dec, read.headers), cts);
  }

  lemma StepView(dec: Dec, w: World, a: Action)
    requires Possible(dec, w, a)
    ensures View(dec, Step(dec, w, a).rows) == UserView(View(dec, w.rows), [a])
  {
    assert [a][1..] == [];
    match a
    case Begin(_) =>
    case Advance(p, cts) => SealRowKeepsView(dec, w.rows, w.passes[p].todo[0].0, w.passes[p].todo[0].1, cts);
    case Save(_, row, cts) => OpenAfterSeal(dec, row.headers, cts);
    case Touch(_, _) =>
    case Remove(_) =>
  }

  /** However many passes run in between, what is read is exactly what the users last saved: the
      migration loses no update and changes no value. */
  lemma {:induction false} MigrationIsInvisible(dec: Dec, w: World, run: seq<Action>)
    requires PossibleRun(dec, w, run)
    ensures View(dec, After(dec, w, run).rows) == UserView(View(dec, w.rows), run)
    decreases |run|
  {
    if run != [] {
      StepView(dec, w, run[0]);
      assert [run[0]][1..] == [];
      MigrationIsInvisible(dec, Step(dec, w, run[0]), run[1..]);
    }
  }

  // ---- what the passes count ----

  function SealedTotal(passes: seq<Pass>): nat {
    if passes == [] then 0 else SealedTotal(passes[..|passes| - 1]) + passes[|passes| - 1].sealed
  }

  lemma {:induction false} OnePassCounts(passes: seq<Pass>, p: nat, pass: Pass)
    requires p < |passes|
    ensures SealedTotal(passes[p := pass]) == SealedTotal(passes) - passes[p].sealed + pass.sealed
  {
    var n := |passes| - 1;
    if p == n {
      assert passes[p := pass][..n] == passes[..n];
    } else {
      assert passes[p := pass][..n] == passes[..n][p := pass];
      OnePassCounts(passes[..n], p, pass);
    }
  }

  /** A user saves or removes a row that held plaintext. */
  predicate TakesPlaintext(w: World, a: Action) {
    (a.Save? || a.Remove?) && a.id in w.rows && HasPlaintext(w.rows[a.id].headers)
  }

  function TakenByUsers(dec: Dec, w: World, run: seq<Action>): nat
    requires PossibleRun(dec, w, run)
    decreases |run|
  {
    if run == [] then 0
    else (if TakesPlaintext(w, run[0]) then 1 else 0) + TakenByUsers(dec, Step(dec, w, run[0]), run[1..])
  }

  lemma RewriteCounts(dec: Dec, rows: map<Id, Row>, id: Id, read: Row, cts: map<string, string>)
    requires Encrypts(dec, OpenHeaders(dec, read.headers), cts)
    ensures var rows' := SealRow(dec, rows, id, read, cts);
            |Unsealed(rows')| + (if rows' == rows then 0 else 1) == |Unsealed(rows)|
  {
    var rows' := SealRow(dec, rows, id, read, cts);
    OpenAfterSeal(dec, OpenHeaders(dec, read.headers), cts);
    if HasPlaintext(read.headers) && id in rows && SameDocument(rows[id], read) {
      assert Unsealed(rows') == Unsealed(rows) - {id} && id in Unsealed(rows);
    }
  }

  /** A pass's step: one count for one row. */
  lemma AdvanceCounts(dec: Dec, w: World, p: nat, cts: map<string, string>)
    requires Possible(dec, w, Advance(p, cts))
    ensures var w' := Step(dec, w, Advance(p, cts));
            SealedTotal(w'.passes) + |Unsealed(w'.rows)| == SealedTotal(w.passes) + |Unsealed(w.rows)|
  {
    RewriteCounts(dec, w.rows, w.passes[p].todo[0].0, w.passes[p].todo[0].1, cts);
    OnePassCounts(w.passes, p, Step(dec, w, Advance(p, cts)).passes[p]);
  }

  lemma SaveCounts(dec: Dec, w: World, id: Id, row: Row, cts: map<string, string>)
    requires Possible(dec, w, Save(id, row, cts))
    ensures Unsealed(Step(dec, w, Save(id, row, cts)).rows) == Unsealed(w.rows) - {id}
  {
    OpenAfterSeal(dec, row.headers, cts);
  }

  lemma CountingStep(dec: Dec, w: World, a: Action)
    requires Possible(dec, w, a)
    ensures var (w', taken) := (Step(dec, w, a), if TakesPlaintext(w, a) then 1 else 0);
            SealedTotal(w'.passes) + |Unsealed(w'.rows)| + taken == SealedTotal(w.passes) + |Unsealed(w.rows)|
  {
    match a
    case Begin(_) => assert Step(dec, w, a).passes[..|w.passes|] == w.passes;
    case Advance(p, cts) => AdvanceCounts(dec, w, p, cts);
    case Save(id, row, cts) => SaveCounts(dec, w, id, row, cts);
    case Touch(_, _) => assert Unsealed(Step(dec, w, a).rows) == Unsealed(w.rows);
    case Remove(id) => assert Unsealed(Step(dec, w, a).rows) == Unsealed(w.rows) - {id};
  }

  /** However passes and users interleave, each row that held plaintext is counted by one pass, was saved
      or removed by a user, or holds plaintext still. */
  lemma {:induction false} EachRewriteIsCountedOnce(dec: Dec, w: World, run: seq<Action>)
    requires PossibleRun(dec, w, run)
    ensures var w' := After(dec, w, run);
            SealedTotal(w'.passes) + |Unsealed(w'.rows)| + TakenByUsers(dec, w, run) == SealedTotal(w.passes) + |Unsealed(w.rows)|
    decreases |run|
  {
    if run != [] {
      CountingStep(dec, w, run[0]);
      EachRewriteIsCountedOnce(dec, Step(dec, w, run[0]), run[1..]);
    }
  }

  // ---- several keys ----

  /** A value as the first key that opens it reads it; nothing if none does. */
  function Read(ring: seq<Dec>, v: string): Option<string> {
    if !IsSealed(v) then Some(v) else Deciphered(ring, v[|SEALED_PREFIX|..])
  }

  function Deciphered(ring: seq<Dec>, ct: string): Option<string> {
    if ring == [] then None
    else if ring[0](ct).Some? then ring[0](ct)
    else Deciphered(ring[1..], ct)
  }

  /** Keys that open the same ciphertext read the same in it. */
  ghost predicate Agree(ring: seq<Dec>) {
    forall ct: string, i, j | 0 <= i < |ring| && 0 <= j < |ring| && ring[i](ct).Some? && ring[j](ct).Some? :: ring[i](ct) == ring[j](ct)
  }

  lemma {:induction false} DecipheredBy(ring: seq<Dec>, k: nat, ct: string)
    requires Agree(ring) && k < |ring| && ring[k](ct).Some?
    ensures Deciphered(ring, ct) == ring[k](ct)
  {
    if ring[0](ct).None? {
      assert forall i | 0 <= i < |ring[1..]| :: ring[1..][i] == ring[i + 1];
      DecipheredBy(ring[1..], k - 1, ct);
    }
  }

  /** A row as whoever has all the keys could read it. */
  datatype Seen = Seen(headers: map<string, Option<string>>, settings: nat, columns: nat)

  function SeenHeaders(ring: seq<Dec>, headers: map<string, string>): map<string, Option<string>> {
    map n | n in headers :: Read(ring, headers[n])
  }

  function RingView(ring: seq<Dec>, rows: map<Id, Row>): map<Id, Seen> {
    map id | id in rows :: Seen(SeenHeaders(ring, rows[id].headers), rows[id].settings, rows[id].columns)
  }

  function Plain(headers: map<string, string>): map<string, Option<string>> {
    map n | n in headers :: Some(headers[n])
  }

  function UserRingView(view: map<Id, Seen>, run: seq<Action>): map<Id, Seen>
    decreases |run|
  {
    if run == [] then view
    else UserRingView(match run[0]
                      case Save(id, row, _) => view[id := Seen(Plain(row.headers), row.settings, row.columns)]
                      case Touch(id, columns) => if id in view then view[id := view[id].(columns := columns)] else view
                      case Remove(id) => view - {id}
                      case _ => view,
                      run[1..])
  }

  /** Where there is plaintext, the key in use opens all that is sealed beside it. */
  ghost predicate Legible(dec: Dec, rows: map<Id, Row>) {
    forall id | id in rows && HasPlaintext(rows[id].headers) :: LegibleHeaders(dec, rows[id].headers)
  }

  ghost predicate LegibleHeaders(dec: Dec, headers: map<string, string>) {
    forall n | n in headers && IsSealed(headers[n]) :: dec(headers[n][|SEALED_PREFIX|..]).Some?
  }

  lemma SealedIsSeen(ring: seq<Dec>, k: nat, headers: map<string, string>, cts: map<string, string>)
    requires Agree(ring) && k < |ring| && Encrypts(ring[k], headers, cts)
    ensures SeenHeaders(ring, SealedConfig(headers, cts)) == Plain(headers)
  {
    forall n | n in headers ensures Read(ring, SealedConfig(headers, cts)[n]) == Some(headers[n]) {
      var v := SEALED_PREFIX + cts[n];
      assert v[..|SEALED_PREFIX|] == SEALED_PREFIX && v[|SEALED_PREFIX|..] == cts[n];
      DecipheredBy(ring, k, cts[n]);
    }
  }

  lemma LegibleIsSeen(ring: seq<Dec>, k: nat, headers: map<string, string>)
    requires Agree(ring) && k < |ring| && LegibleHeaders(ring[k], headers)
    ensures SeenHeaders(ring, headers) == Plain(OpenHeaders(ring[k], headers))
  {
    forall n | n in headers ensures Read(ring, headers[n]) == Some(Opened(ring[k], headers[n])) {
      if IsSealed(headers[n]) {
        DecipheredBy(ring, k, headers[n][|SEALED_PREFIX|..]);
      }
    }
  }

  lemma SealRowKeepsRingView(ring: seq<Dec>, k: nat, rows: map<Id, Row>, id: Id, read: Row, cts: map<string, string>)
    requires Agree(ring) && k < |ring| && Legible(ring[k], rows) && Encrypts(ring[k], OpenHeaders(ring[k], read.headers), cts)
    ensures RingView(ring, SealRow(ring[k], rows, id, read, cts)) == RingView(ring, rows)
  {
    if HasPlaintext(read.headers) && id in rows && SameDocument(rows[id], read) {
      SealedIsSeen(ring, k, OpenHeaders(ring[k], read.headers), cts);
      LegibleIsSeen(ring, k, read.headers);
    }
  }

  lemma StepRingView(ring: seq<Dec>, k: nat, w: World, a: Action)
    requires Agree(ring) && k < |ring| && Legible(ring[k], w.rows) && Possible(ring[k], w, a)
    ensures RingView(ring, Step(ring[k], w, a).rows) == UserRingView(RingView(ring, w.rows), [a])
  {
    assert [a][1..] == [];
    match a
    case Begin(_) =>
    case Advance(p, cts) => SealRowKeepsRingView(ring, k, w.rows, w.passes[p].todo[0].0, w.passes[p].todo[0].1, cts);
    case Save(_, row, cts) => SealedIsSeen(ring, k, row.headers, cts);
    case Touch(_, _) =>
    case Remove(_) =>
  }

  lemma StaysLegible(dec: Dec, w: World, a: Action)
    requires Legible(dec, w.rows) && Possible(dec, w, a)
    ensures Legible(dec, Step(dec, w, a).rows)
  {
    PlaintextOnlyDisappears(dec, w, a);
  }

  /** Under all keys together: where the key in use opens everything that is sealed beside plaintext,
      no pass loses anything that any key could read. */
  lemma {:induction false} NothingIsLostWhereLegible(ring: seq<Dec>, k: nat, w: World, run: seq<Action>)
    requires Agree(ring) && k < |ring| && Legible(ring[k], w.rows) && PossibleRun(ring[k], w, run)
    ensures RingView(ring, After(ring[k], w, run).rows) == UserRingView(RingView(ring, w.rows), run)
    decreases |run|
  {
    if run != [] {
      StepRingView(ring, k, w, run[0]);
      StaysLegible(ring[k], w, run[0]);
      assert [run[0]][1..] == [];
      NothingIsLostWhereLegible(ring, k, Step(ring[k], w, run[0]), run[1..]);
    }
  }

  /** And nowhere else: beside plaintext, a value that only another key reads is empty for good after
      one compare-and-set. */
  lemma IllegibleIsLost(ring: seq<Dec>, k: nat, rows: map<Id, Row>, id: Id, n: string, cts: map<string, string>)
    requires Agree(ring) && k < |ring| && id in rows && n in rows[id].headers && HasPlaintext(rows[id].headers)
    requires var v := rows[id].headers[n]; IsSealed(v) && ring[k](v[|SEALED_PREFIX|..]).None?
    requires Encrypts(ring[k], OpenHeaders(ring[k], rows[id].headers), cts)
    ensures var rows' := SealRow(ring[k], rows, id, rows[id], cts);
            && id in rows' && n in rows'[id].headers && Read(ring, rows'[id].headers[n]) == Some("")
            && (RingView(ring, rows') == RingView(ring, rows) ==> Read(ring, rows[id].headers[n]) == Some(""))
  {
    SealedIsSeen(ring, k, OpenHeaders(ring[k], rows[id].headers), cts);
    var rows' := SealRow(ring[k], rows, id, rows[id], cts);
    assert SeenHeaders(ring, rows'[id].headers)[n] == Some("");
    assert RingView(ring, rows')[id].headers[n] == Some("") && RingView(ring, rows)[id].headers[n] == Read(ring, rows[id].headers[n]);
  }

  // ---- what a complete pass achieves ----

  ghost predicate AllSealed(rows: map<Id, Row>) {
    forall id | id in rows :: !HasPlaintext(rows[id].headers)
  }

  /** Whatever still holds plaintext is on the pass's list with the document that was read. */
  ghost predicate Covers(pass: Pass, rows: map<Id, Row>) {
    forall id | id in rows && HasPlaintext(rows[id].headers) :: OnList(pass.todo, id, rows[id])
  }

  predicate OnList(todo: seq<(Id, Row)>, id: Id, row: Row) {
    exists i | 0 <= i < |todo| :: todo[i].0 == id && SameDocument(todo[i].1, row)
  }

  /** No step adds plaintext or changes a document that keeps some. */
  lemma PlaintextOnlyDisappears(dec: Dec, w: World, a: Action)
    requires Possible(dec, w, a)
    ensures forall id | id in Step(dec, w, a).rows && HasPlaintext(Step(dec, w, a).rows[id].headers) ::
              id in w.rows && SameDocument(w.rows[id], Step(dec, w, a).rows[id])
  {
    match a
    case Begin(_) =>
    case Advance(p, cts) => OpenAfterSeal(dec, OpenHeaders(dec, w.passes[p].todo[0].1.headers), cts);
    case Save(_, row, cts) => OpenAfterSeal(dec, row.headers, cts);
    case Touch(_, _) =>
    case Remove(_) =>
  }

  /** The first row of a list is dealt with: any other that holds plaintext is further down. */
  lemma OnRest(dec: Dec, rows: map<Id, Row>, todo: seq<(Id, Row)>, cts: map<string, string>, i: Id)
    requires todo != [] && Encrypts(dec, OpenHeaders(dec, todo[0].1.headers), cts)
    requires i in rows && HasPlaintext(rows[i].headers) && OnList(todo, i, rows[i])
    requires var rows' := SealRow(dec, rows, todo[0].0, todo[0].1, cts);
             i in rows' && HasPlaintext(rows'[i].headers) && SameDocument(rows'[i], rows[i])
    ensures OnList(todo[1..], i, rows[i])
  {
    var (id, read) := todo[0];
    OpenAfterSeal(dec, OpenHeaders(dec, read.headers), cts);
    var h :| 0 <= h < |todo| && todo[h].0 == i && SameDocument(todo[h].1, rows[i]);
    assert h > 0;
    assert todo[1..][h - 1] == todo[h];
  }

  lemma CoversStep(dec: Dec, w: World, a: Action, p: nat)
    requires Possible(dec, w, a) && p < |w.passes| && Covers(w.passes[p], w.rows)
    ensures p < |Step(dec, w, a).passes| && Covers(Step(dec, w, a).passes[p], Step(dec, w, a).rows)
  {
    PlaintextOnlyDisappears(dec, w, a);
    var w' := Step(dec, w, a);
    forall i | i in w'.rows && HasPlaintext(w'.rows[i].headers) ensures OnList(w'.passes[p].todo, i, w'.rows[i]) {
      if a.Advance? && a.pass == p {
        OnRest(dec, w.rows, w.passes[p].todo, a.ciphertexts, i);
      }
    }
  }

  lemma {:induction false} CoversRun(dec: Dec, w: World, run: seq<Action>, p: nat)
    requires PossibleRun(dec, w, run) && p < |w.passes| && Covers(w.passes[p], w.rows)
    ensures p < |After(dec, w, run).passes| && Covers(After(dec, w, run).passes[p], After(dec, w, run).rows)
    decreases |run|
  {
    if run != [] {
      CoversStep(dec, w, run[0], p);
      CoversRun(dec, Step(dec, w, run[0]), run[1..], p);
    }
  }

  /** Once a pass has dealt with every row it read, no row holds plaintext, whatever other passes and
      users did meanwhile. */
  lemma ACompletePassSealsEverything(dec: Dec, w: World, order: seq<Id>, run: seq<Action>)
    requires Possible(dec, w, Begin(order)) && PossibleRun(dec, Step(dec, w, Begin(order)), run)
    ensures |After(dec, Step(dec, w, Begin(order)), run).passes| > |w.passes|
    ensures var w' := After(dec, Step(dec, w, Begin(order)), run);
            w'.passes[|w.passes|].todo == [] ==> AllSealed(w'.rows)
  {
    var w1 := Step(dec, w, Begin(order));
    forall id | id in w.rows ensures OnList(w1.passes[|w.passes|].todo, id, w.rows[id]) {
      var i :| 0 <= i < |order| && order[i] == id;
      assert w1.passes[|w.passes|].todo[i] == (id, w.rows[id]);
    }
    CoversRun(dec, w1, run, |w.passes|);
  }

  /** From then on a pass that begins rewrites nothing. */
  ghost predicate NothingToSeal(pass: Pass) {
    forall i | 0 <= i < |pass.todo| :: !HasPlaintext(pass.todo[i].1.headers)
  }

  lemma {:induction false} LaterPassesRewriteNothing(dec: Dec, w: World, run: seq<Action>, p: nat)
    requires PossibleRun(dec, w, run) && p < |w.passes| && NothingToSeal(w.passes[p])
    ensures var w' := After(dec, w, run);
            p < |w'.passes| && NothingToSeal(w'.passes[p]) && w'.passes[p].sealed == w.passes[p].sealed
    decreases |run|
  {
    if run != [] {
      LaterPassesRewriteNothing(dec, Step(dec, w, run[0]), run[1..], p);
    }
  }

  lemma {:induction false} SealedStaysSealed(dec: Dec, w: World, run: seq<Action>)
    requires PossibleRun(dec, w, run) && AllSealed(w.rows)
    ensures AllSealed(After(dec, w, run).rows)
    decreases |run|
  {
    if run != [] {
      PlaintextOnlyDisappears(dec, w, run[0]);
      SealedStaysSealed(dec, Step(dec, w, run[0]), run[1..]);
    }
  }

  /** After one complete pass every later pass counts zero rewrites. */
  lemma TheNextPassRewritesNothing(dec: Dec, w: World, before: seq<Action>, order: seq<Id>, run: seq<Action>)
    requires AllSealed(w.rows) && PossibleRun(dec, w, before)
    requires var w1 := After(dec, w, before); Possible(dec, w1, Begin(order)) && PossibleRun(dec, Step(dec, w1, Begin(order)), run)
    ensures var w1 := After(dec, w, before);
            var w2 := After(dec, Step(dec, w1, Begin(order)), run);
            |w1.passes| < |w2.passes| && w2.passes[|w1.passes|].sealed == 0 && AllSealed(w2.rows)
  {
    var w1 := After(dec, w, before);
    SealedStaysSealed(dec, w, before);
    var begun := Step(dec, w1, Begin(order));
    assert NothingToSeal(begun.passes[|w1.passes|]) by {
      forall i | 0 <= i < |order| ensures order[i] in w1.rows {
        assert order[i] in order;
      }
    }
    LaterPassesRewriteNothing(dec, begun, run, |w1.passes|);
    SealedStaysSealed(dec, begun, run);
  }

  // ---- the code ----

  /** A header set that is opened in place. */
  class HeaderSet {
    var values: map<string, string>

    constructor (values: map<string, string>)
      ensures this.values == values
    {
      this.values := values;
    }

    method Open(dec: Dec)
      modifies this
      ensures values == OpenHeaders(dec, old(values))
    {
      var todo := values.Keys;
      while todo != {}
        invariant todo <= values.Keys == old(values).Keys
        invariant forall n | n in values :: values[n] == if n in todo then old(values)[n] else Opened(dec, old(values)[n])
        decreases todo
      {
        var n :| n in todo;
        todo := todo - {n};
        if IsSealed(values[n]) {
          var plain := dec(values[n][|SEALED_PREFIX|..]);
          values := values[n := if plain.Some? then plain.value else ""];
        }
      }
    }
  }

  /** How many rows still hold plaintext. */
  function Unsealed(rows: map<Id, Row>): set<Id> {
    set id | id in rows && HasPlaintext(rows[id].headers)
  }

  /** Exactly these rows were rewritten, and nobody could tell. */
  ghost predicate SealedSoFar(dec: Dec, before: map<Id, Row>, after: map<Id, Row>, rewritten: set<Id>) {
    && after.Keys == before.Keys && View(dec, after) == View(dec, before)
    && rewritten <= Unsealed(before) && Unsealed(after) == Unsealed(before) - rewritten
    && (forall id | id in after && id !in rewritten :: after[id] == before[id])
  }

  lemma OneMoreSealed(dec: Dec, before: map<Id, Row>, mid: map<Id, Row>, after: map<Id, Row>, rewritten: set<Id>, id: Id)
    requires SealedSoFar(dec, before, mid, rewritten) && id in Unsealed(mid)
    requires View(dec, after) == View(dec, mid) && after.Keys == mid.Keys && Unsealed(after) == Unsealed(mid) - {id}
    requires forall i | i in after && i != id :: after[i] == mid[i]
    ensures SealedSoFar(dec, before, after, rewritten + {id}) && |rewritten + {id}| == |rewritten| + 1
  {
  }

  class Repository {
    var rows: map<Id, Row>
    const dec: Dec
    const encrypt: string -> string

    constructor (rows: map<Id, Row>, dec: Dec, encrypt: string -> string)
      ensures this.rows == rows && this.dec == dec && this.encrypt == encrypt
    {
      this.rows, this.dec, this.encrypt := rows, dec, encrypt;
    }

    function Ciphertexts(headers: map<string, string>): map<string, string> {
      map n | n in headers :: encrypt(headers[n])
    }

    /** Rewrites one row, which nobody else has changed since it was read. */
    method SealOne(id: Id)
      requires id in rows && HasPlaintext(rows[id].headers) && forall v :: dec(encrypt(v)) == Some(v)
      modifies this
      ensures View(dec, rows) == View(dec, old(rows)) && rows.Keys == old(rows).Keys
      ensures Unsealed(rows) == Unsealed(old(rows)) - {id}
      ensures forall i | i in rows && i != id :: rows[i] == old(rows)[i]
    {
      var read := rows[id];
      var headers := new HeaderSet(read.headers);
      headers.Open(dec);
      var cts := Ciphertexts(headers.values);
      OpenAfterSeal(dec, headers.values, cts);
      SealRowKeepsView(dec, rows, id, read, cts);
      rows := rows[id := read.(headers := SealedConfig(headers.values, cts))];
    }

    /** One pass nobody interferes with; it stops at the first row in `broken`. */
    method SealLegacyHeaders(broken: set<Id>) returns (ok: bool, sealed: nat)
      requires forall v :: dec(encrypt(v)) == Some(v)
      modifies this
      ensures View(dec, rows) == View(dec, old(rows)) && rows.Keys == old(rows).Keys
      ensures Unsealed(rows) <= Unsealed(old(rows)) && sealed == |Unsealed(old(rows)) - Unsealed(rows)|
      ensures forall id | id in rows && id !in Unsealed(old(rows)) :: rows[id] == old(rows)[id]
      ensures ok ==> AllSealed(rows)
      ensures !ok ==> broken * Unsealed(old(rows)) != {}
    {
      var todo := rows.Keys;
      ghost var rewritten: set<Id> := {};
      sealed := 0;
      while todo != {}
        invariant todo <= rows.Keys && SealedSoFar(dec, old(rows), rows, rewritten) && sealed == |rewritten|
        invariant Unsealed(rows) <= todo
        decreases todo
      {
        var id :| id in todo;
        if HasPlaintext(rows[id].headers) {
          if id in broken {
            assert id in broken * Unsealed(old(rows));
            break;
          }
          ghost var mid := rows;
          SealOne(id);
          OneMoreSealed(dec, old(rows), mid, rows, rewritten, id);
          rewritten := rewritten + {id};
          sealed := sealed + 1;
        }
        todo := todo - {id};
      }
      ok := todo == {};
      PassOutcome(dec, old(rows), rows, rewritten);
    }
  }

  lemma PassOutcome(dec: Dec, before: map<Id, Row>, after: map<Id, Row>, rewritten: set<Id>)
    requires SealedSoFar(dec, before, after, rewritten)
    ensures Unsealed(after) <= Unsealed(before) && Unsealed(before) - Unsealed(after) == rewritten
    ensures forall id | id in after && id !in Unsealed(before) :: after[id] == before[id]
    ensures Unsealed(after) == {} ==> AllSealed(after)
  {
    forall id | id in after && Unsealed(after) == {} ensures !HasPlaintext(after[id].headers) {
      assert id !in Unsealed(after);
    }
  }
}
