/**
 Request headers on their way from the server to an edit form and back: the values are masked, the
 set is printed as one "Name: value" line each, edited, parsed, and the masks are replaced by what
 was saved. Text is a sequence of code points here; but the client takes a return and the newline
 after it for one character, which is not the newline it splits at.
 */
module Headers {
  import opened Text
  import opened Monitors
  import opened Sets
  import opened Wrappers

  function Redacted(headers: map<string, string>): map<string, string> {
    map n | n in headers :: HEADER_MASK
  }

  /** The client trims spaces and tabs only, but all of Unicode's. */
  predicate IsBlank(c: char) {
    c in {' ', '\t'} || c as int in {0xA0, 0x1680, 0x202F, 0x205F, 0x3000} || 0x2000 <= c as int <= 0x200A
  }

  // ---- printing ----

  function Line(name: string, value: string): string {
    name + ": " + value
  }

  ghost function LinesOf(headers: map<string, string>): (lines: seq<string>)
    ensures |lines| == |SortedNames(headers.Keys)|
    ensures forall i | 0 <= i < |lines| :: lines[i] == Line(SortedNames(headers.Keys)[i], headers[SortedNames(headers.Keys)[i]])
  {
    var names := SortedNames(headers.Keys);
    seq(|names|, i requires 0 <= i < |names| => assert names[i] in names; Line(names[i], headers[names[i]]))
  }

  ghost function HeaderLines(headers: map<string, string>): string {
    Join(LinesOf(headers), '\n')
  }

  // ---- parsing ----

  /** What a line says: a header, or nothing. */
  type Entry = Option<(string, string)>

  function ParseLine(line: string): Entry {
    if ':' !in line then None
    else
      var (before, after) := SplitFirst(line, ':');
      var name := TrimWhere(before, IsBlank);
      if name == "" then None else Some((name, TrimWhere(after, IsBlank)))
  }

  function EntriesOf(lines: seq<string>): (entries: seq<Entry>)
    ensures |entries| == |lines| && forall i | 0 <= i < |lines| :: entries[i] == ParseLine(lines[i])
  {
    seq(|lines|, i requires 0 <= i < |lines| => ParseLine(lines[i]))
  }

  /** Of several entries for one name the last counts. */
  function Folded(entries: seq<Entry>): map<string, string> {
    if entries == [] then map[]
    else
      var earlier := Folded(entries[..|entries| - 1]);
      match entries[|entries| - 1]
      case None => earlier
      case Some(header) => earlier[header.0 := header.1]
  }

  function NonEmpty(lines: seq<string>): seq<string> {
    if lines == [] then []
    else NonEmpty(lines[..|lines| - 1]) + if lines[|lines| - 1] == "" then [] else [lines[|lines| - 1]]
  }

  /** A newline ends a line unless a return precedes it. */
  predicate BreaksAt(text: string, i: nat) {
    i < |text| && text[i] == '\n' && (i == 0 || text[i - 1] != '\r')
  }

  /** A text that the client does not split, whatever it looks like. */
  predicate OneLine(text: string) {
    forall i | 0 <= i < |text| :: !BreaksAt(text, i)
  }

  predicate EndsInReturn(text: string) {
    text != "" && text[|text| - 1] == '\r'
  }

  function FirstBreak(text: string, from: nat): (b: nat)
    requires from <= |text|
    ensures from <= b <= |text| && (b < |text| ==> BreaksAt(text, b))
    ensures forall i | from <= i < b :: !BreaksAt(text, i)
    decreases |text| - from
  {
    if from == |text| || BreaksAt(text, from) then from else FirstBreak(text, from + 1)
  }

  function Lines(text: string): seq<string>
    decreases |text|
  {
    var b := FirstBreak(text, 0);
    if b == |text| then [text] else [text[..b]] + Lines(text[b + 1..])
  }

  lemma BreakAfter(line: string, rest: string)
    requires OneLine(line) && !EndsInReturn(line)
    ensures FirstBreak(line + "\n" + rest, 0) == |line|
  {
    var text := line + "\n" + rest;
    assert forall i | 0 <= i < |line| :: text[i] == line[i];
    forall i | 0 <= i < |line| ensures !BreaksAt(text, i) {
      assert !BreaksAt(line, i);
    }
    assert BreaksAt(text, |line|);
  }

  /** Lines that joining keeps apart. */
  predicate Apart(lines: seq<string>) {
    forall i | 0 <= i < |lines| :: OneLine(lines[i]) && (i < |lines| - 1 ==> !EndsInReturn(lines[i]))
  }

  lemma {:induction false} LinesOfJoined(lines: seq<string>)
    requires lines != [] && Apart(lines)
    ensures Lines(Join(lines, '\n')) == lines
  {
    if |lines| == 1 {
      assert Join(lines, '\n') == lines[0];
      assert FirstBreak(lines[0], 0) == |lines[0]|;
    } else {
      var rest := Join(lines[1..], '\n');
      BreakAfter(lines[0], rest);
      assert (lines[0] + "\n" + rest)[..|lines[0]|] == lines[0];
      assert (lines[0] + "\n" + rest)[|lines[0]| + 1..] == rest;
      LinesOfJoined(lines[1..]);
      assert lines == [lines[0]] + lines[1..];
    }
  }

  /** No headers at all is absence, not an empty set; the server reads both alike. */
  function FromLines(text: string): Option<map<string, string>> {
    var headers := Folded(EntriesOf(NonEmpty(Lines(text))));
    if headers == map[] then None else Some(headers)
  }

  function OrEmpty(headers: Option<map<string, string>>): map<string, string> {
    match headers case None => map[] case Some(h) => h
  }

  method HeadersFromLines(text: string) returns (headers: Option<map<string, string>>)
    ensures headers == FromLines(text)
  {
    var out: map<string, string> := map[];
    var lines := NonEmpty(Lines(text));
    for i := 0 to |lines|
      invariant out == Folded(EntriesOf(lines[..i]))
    {
      assert EntriesOf(lines[..i + 1])[..i] == EntriesOf(lines[..i]);
      if ':' in lines[i] {
        var parts := SplitFirst(lines[i], ':');
        var name := TrimWhere(parts.0, IsBlank);
        if name != "" {
          out := out[name := TrimWhere(parts.1, IsBlank)];
        }
      }
    }
    assert lines[..|lines|] == lines;
    return if out == map[] then None else Some(out);
  }

  lemma {:induction false} EmptyLinesDoNotMatter(lines: seq<string>)
    ensures Folded(EntriesOf(NonEmpty(lines))) == Folded(EntriesOf(lines))
  {
    if lines != [] {
      var rest, last := lines[..|lines| - 1], lines[|lines| - 1];
      EmptyLinesDoNotMatter(rest);
      assert EntriesOf(lines)[..|rest|] == EntriesOf(rest);
      if last != "" {
        assert EntriesOf(NonEmpty(lines))[..|NonEmpty(rest)|] == EntriesOf(NonEmpty(rest));
      } else {
        assert NonEmpty(lines) == NonEmpty(rest);
      }
    }
  }

  lemma JoinedLinesParse(lines: seq<string>)
    requires Apart(lines)
    ensures OrEmpty(FromLines(Join(lines, '\n'))) == Folded(EntriesOf(lines))
  {
    if lines == [] {
      assert Lines("") == [""];
      EmptyLinesDoNotMatter([""]);
      assert Folded(EntriesOf([""])) == map[] by {
        assert EntriesOf([""])[..0] == [];
      }
    } else {
      LinesOfJoined(lines);
      EmptyLinesDoNotMatter(lines);
    }
  }

  predicate Names(e: Entry, n: string) {
    e.Some? && e.value.0 == n
  }

  lemma {:induction false} FoldedName(entries: seq<Entry>, n: string)
    requires forall i | 0 <= i < |entries| :: !Names(entries[i], n)
    ensures n !in Folded(entries)
  {
    if entries != [] {
      FoldedName(entries[..|entries| - 1], n);
    }
  }

  lemma {:induction false} FoldedValue(entries: seq<Entry>, i: nat, n: string)
    requires i < |entries| && Names(entries[i], n) && forall j | i < j < |entries| :: !Names(entries[j], n)
    ensures n in Folded(entries) && Folded(entries)[n] == entries[i].value.1
  {
    if i < |entries| - 1 {
      FoldedValue(entries[..|entries| - 1], i, n);
      assert !Names(entries[|entries| - 1], n);
    }
  }

  // ---- printing, then parsing ----

  lemma TokenCharIsPlain(c: char)
    requires TokenChar(c)
    ensures c != ':' && c != '\n' && !IsBlank(c)
  {
  }

  lemma TokenIsPlain(name: string)
    requires IsToken(name)
    ensures ':' !in name && '\n' !in name && TightWhere(name, IsBlank)
  {
    forall i | 0 <= i < |name| ensures name[i] != ':' && name[i] != '\n' && !IsBlank(name[i]) {
      TokenCharIsPlain(name[i]);
    }
  }

  lemma LineParses(name: string, value: string)
    requires IsToken(name) && TightWhere(value, IsBlank)
    ensures ParseLine(Line(name, value)) == Some((name, value))
  {
    TokenIsPlain(name);
    var after := " " + value;
    assert Line(name, value) == name + ":" + after;
    assert Line(name, value)[|name|] == ':';
    SplitFirstOfPair(name, after, ':');
    TrimIsTight(name, IsBlank);
    assert after[1..] == value && TrimLeft(after, IsBlank) == TrimLeft(value, IsBlank);
    TrimIsTight(value, IsBlank);
  }

  predicate Printable(headers: map<string, string>) {
    forall n | n in headers :: IsToken(n) && '\n' !in headers[n] && TightWhere(headers[n], IsBlank) && !EndsInReturn(headers[n])
  }

  /** The entries stand for the headers one by one, in the order of the names. */
  ghost predicate Shows(entries: seq<Entry>, names: seq<string>, headers: map<string, string>) {
    && |entries| == |names| && Ascending(names)
    && (forall n :: n in names <==> n in headers)
    && (forall i | 0 <= i < |names| :: names[i] in headers && entries[i] == Some((names[i], headers[names[i]])))
  }

  lemma LineIsApart(name: string, value: string)
    requires IsToken(name) && '\n' !in value && !EndsInReturn(value)
    ensures OneLine(Line(name, value)) && !EndsInReturn(Line(name, value))
  {
    TokenIsPlain(name);
    var line := Line(name, value);
    assert '\n' !in ": ";
    assert forall i | 0 <= i < |line| :: line[i] in name || line[i] in ": " || line[i] in value;
    assert line[|name| + 1] == ' ';
  }

  lemma LinesShowHeaders(headers: map<string, string>)
    requires Printable(headers)
    ensures Shows(EntriesOf(LinesOf(headers)), SortedNames(headers.Keys), headers)
    ensures forall i | 0 <= i < |LinesOf(headers)| :: OneLine(LinesOf(headers)[i]) && !EndsInReturn(LinesOf(headers)[i])
  {
    var names, lines := SortedNames(headers.Keys), LinesOf(headers);
    forall i | 0 <= i < |names|
      ensures names[i] in headers && ParseLine(lines[i]) == Some((names[i], headers[names[i]]))
      ensures OneLine(lines[i]) && !EndsInReturn(lines[i])
    {
      assert names[i] in names;
      LineParses(names[i], headers[names[i]]);
      LineIsApart(names[i], headers[names[i]]);
    }
  }

  // ---- one entry replaced ----

  /** Replacing the entry of one name: the others stand, and the new one counts unless a later one has
      its name. Replacing an entry by itself changes nothing. */
  function Applied(headers: map<string, string>, name: string, e: Entry): map<string, string> {
    var left := headers - {name};
    if e.None? || (e.value.0 in left && Less(name, e.value.0)) then left else left[e.value.0 := e.value.1]
  }

  lemma PlacesFollowNames(names: seq<string>, k: nat, j: nat)
    requires Ascending(names) && k < |names| && j < |names| && k != j
    ensures k < j <==> Less(names[k], names[j])
  {
    if j < k && Less(names[k], names[j]) {
      LessTransitive(names[j], names[k], names[j]);
      LessIrreflexive(names[j]);
    }
  }

  lemma FoldedEditAt(entries: seq<Entry>, names: seq<string>, headers: map<string, string>, k: nat, e: Entry, n: string)
    requires Shows(entries, names, headers) && k < |names|
    ensures var (folded, applied) := (Folded(entries[k := e]), Applied(headers, names[k], e));
            (n in folded <==> n in applied) && (n in folded ==> folded[n] == applied[n])
  {
    LessIrreflexive(n);
    if n in headers && n != names[k] {
      var j :| 0 <= j < |names| && names[j] == n;
      PlacesFollowNames(names, k, j);
      FoldedEditAtAnother(entries, names, headers, k, e, j);
    } else {
      FoldedEditAtItself(entries, names, headers, k, e, n);
    }
  }

  lemma FoldedEditAtAnother(entries: seq<Entry>, names: seq<string>, headers: map<string, string>, k: nat, e: Entry, j: nat)
    requires Shows(entries, names, headers) && k < |names| && j < |names| && j != k
    ensures var folded := Folded(entries[k := e]);
            names[j] in folded && folded[names[j]] == if Names(e, names[j]) && j < k then e.value.1 else headers[names[j]]
  {
    var last := if Names(e, names[j]) && j < k then k else j;
    LessIrreflexive(names[j]);
    FoldedValue(entries[k := e], last, names[j]);
  }

  lemma FoldedEditAtItself(entries: seq<Entry>, names: seq<string>, headers: map<string, string>, k: nat, e: Entry, n: string)
    requires Shows(entries, names, headers) && k < |names| && (n in headers ==> n == names[k])
    ensures var folded := Folded(entries[k := e]);
            (n in folded <==> Names(e, n)) && (n in folded ==> folded[n] == e.value.1)
  {
    LessIrreflexive(n);
    if Names(e, n) {
      FoldedValue(entries[k := e], k, n);
    } else {
      FoldedName(entries[k := e], n);
    }
  }

  lemma FoldedEdit(entries: seq<Entry>, names: seq<string>, headers: map<string, string>, k: nat, e: Entry)
    requires Shows(entries, names, headers) && k < |names|
    ensures Folded(entries[k := e]) == Applied(headers, names[k], e)
  {
    var folded, applied := Folded(entries[k := e]), Applied(headers, names[k], e);
    forall n ensures (n in folded <==> n in applied) && (n in folded ==> folded[n] == applied[n]) {
      FoldedEditAt(entries, names, headers, k, e, n);
    }
  }

  lemma ShownFold(entries: seq<Entry>, names: seq<string>, headers: map<string, string>)
    requires Shows(entries, names, headers)
    ensures Folded(entries) == headers
  {
    if names == [] {
      assert headers.Keys == {};
    } else {
      FoldedEdit(entries, names, headers, 0, entries[0]);
      LessIrreflexive(names[0]);
      assert entries[0 := entries[0]] == entries;
    }
  }

  /** What the form would send if nothing were masked: parsing undoes printing. */
  lemma ParsingUndoesPrinting(headers: map<string, string>)
    requires Printable(headers)
    ensures OrEmpty(FromLines(HeaderLines(headers))) == headers
  {
    LinesShowHeaders(headers);
    JoinedLinesParse(LinesOf(headers));
    ShownFold(EntriesOf(LinesOf(headers)), SortedNames(headers.Keys), headers);
  }

  // ---- the round trip through the form ----

  predicate TokenNames(headers: map<string, string>) {
    forall n | n in headers :: IsToken(n)
  }

  lemma RedactedIsPrintable(headers: map<string, string>)
    requires TokenNames(headers)
    ensures Printable(Redacted(headers))
  {
    assert HEADER_MASK[0] == '*' && HEADER_MASK[|HEADER_MASK| - 1] == '*';
  }

  lemma MasksAreRestored(saved: map<string, string>)
    ensures KeepMasked(Redacted(saved), saved) == Some(saved)
  {
    assert saved == map n | n in Redacted(saved) :: Unmasked(saved, n, Redacted(saved)[n]);
  }

  /** Saved headers survive being shown and sent back unedited. */
  lemma UneditedFormKeepsHeaders(s: Settings)
    requires ValidRequest(s)
    ensures KeepMasked(OrEmpty(FromLines(HeaderLines(Redacted(s.headers)))), s.headers) == Some(s.headers)
  {
    RedactedIsPrintable(s.headers);
    ParsingUndoesPrinting(Redacted(s.headers));
    MasksAreRestored(s.headers);
  }

  /** So do those of every web monitor of every reachable store. */
  lemma StoredHeadersSurviveTheForm(projects: set<(nat, nat)>, calls: seq<Call>, id: Uuid)
    requires id in PerformedAll(projects, calls).monitors
    requires PerformedAll(projects, calls).monitors[id].kind in {HTTP, HTTPS, SSL}
    ensures var saved := PerformedAll(projects, calls).monitors[id].settings.headers;
            KeepMasked(OrEmpty(FromLines(HeaderLines(Redacted(saved)))), saved) == Some(saved)
  {
    ReachableStoresAreSane(projects, calls);
    var m := PerformedAll(projects, calls).monitors[id];
    assert Sane(m);
    UneditedFormKeepsHeaders(m.settings);
  }

  /** What replacing the line of one header comes to. A line that names another saved header gives that
      one up too if it comes after that header's own line, and is itself ignored if it comes before;
      lines are in the order of the names. */
  function Edited(saved: map<string, string>, name: string, e: Entry): Option<map<string, string>> {
    match e
    case None => Some(saved - {name})
    case Some(header) =>
      if header.0 in saved && header.0 != name && Less(name, header.0) then Some(saved - {name})
      else if header.1 != HEADER_MASK then Some((saved - {name})[header.0 := header.1])
      else if header.0 == name then Some(saved)
      else if header.0 in saved then Some(saved - {name})
      else None
  }

  lemma RestoresEdit(saved: map<string, string>, name: string, e: Entry)
    requires name in saved
    ensures KeepMasked(Applied(Redacted(saved), name, e), saved) == Edited(saved, name, e)
  {
    var sent := Applied(Redacted(saved), name, e);
    var restored := map n | n in sent :: Unmasked(saved, n, sent[n]);
    match Edited(saved, name, e)
    case Some(h) => RestoresAll(saved, sent, restored, h);
    case None => assert sent[e.value.0] == HEADER_MASK && e.value.0 !in saved;
  }

  lemma RestoresAll(saved: map<string, string>, sent: map<string, string>, restored: map<string, string>, h: map<string, string>)
    requires restored == map n | n in sent :: Unmasked(saved, n, sent[n])
    requires sent.Keys == h.Keys && forall n | n in sent :: (sent[n] == HEADER_MASK ==> n in saved) && Unmasked(saved, n, sent[n]) == h[n]
    ensures KeepMasked(sent, saved) == Some(h)
  {
    assert restored == h;
  }

  lemma FormShows(s: Settings)
    requires ValidRequest(s)
    ensures var lines := LinesOf(Redacted(s.headers));
            && Shows(EntriesOf(lines), SortedNames(s.headers.Keys), Redacted(s.headers))
            && (forall i | 0 <= i < |lines| :: OneLine(lines[i]) && !EndsInReturn(lines[i]))
  {
    assert Redacted(s.headers).Keys == s.headers.Keys;
    RedactedIsPrintable(s.headers);
    LinesShowHeaders(Redacted(s.headers));
  }

  lemma EditedForm(lines: seq<string>, names: seq<string>, saved: map<string, string>, k: nat, line: string)
    requires Shows(EntriesOf(lines), names, Redacted(saved)) && k < |lines| && OneLine(line) && (EndsInReturn(line) ==> k == |lines| - 1)
    requires forall i | 0 <= i < |lines| :: OneLine(lines[i]) && !EndsInReturn(lines[i])
    ensures OrEmpty(FromLines(Join(lines[k := line], '\n'))) == Applied(Redacted(saved), names[k], ParseLine(line))
    ensures KeepMasked(OrEmpty(FromLines(Join(lines[k := line], '\n'))), saved) == Edited(saved, names[k], ParseLine(line))
  {
    JoinedLinesParse(lines[k := line]);
    assert EntriesOf(lines[k := line]) == EntriesOf(lines)[k := ParseLine(line)];
    FoldedEdit(EntriesOf(lines), names, Redacted(saved), k, ParseLine(line));
    assert names[k] in names;
    RestoresEdit(saved, names[k], ParseLine(line));
  }

  // ---- a line that ends in a return ----

  function Without<T>(xs: seq<T>, i: nat): seq<T>
    requires i < |xs|
  {
    xs[..i] + xs[i + 1..]
  }

  /** Such a line and the next one are one line to the client. */
  function Glued(lines: seq<string>, k: nat, line: string): seq<string>
    requires k + 1 < |lines|
  {
    Without(lines, k + 1)[k := line + "\n" + lines[k + 1]]
  }

  lemma JoinTwo(x: string, y: string, b: seq<string>)
    ensures Join([x, y] + b, '\n') == Join([x + "\n" + y] + b, '\n')
  {
    assert ([x, y] + b)[1..] == [y] + b;
    assert ([x + "\n" + y] + b)[1..] == b;
    assert b != [] ==> ([y] + b)[1..] == b;
  }

  lemma {:induction false} JoinSplits(a: seq<string>, x: string, y: string, b: seq<string>)
    ensures Join(a + [x, y] + b, '\n') == Join(a + [x + "\n" + y] + b, '\n')
  {
    if a == [] {
      JoinTwo(x, y, b);
      assert a + [x, y] + b == [x, y] + b && a + [x + "\n" + y] + b == [x + "\n" + y] + b;
    } else {
      JoinSplits(a[1..], x, y, b);
      assert (a + [x, y] + b)[1..] == a[1..] + [x, y] + b;
      assert (a + [x + "\n" + y] + b)[1..] == a[1..] + [x + "\n" + y] + b;
    }
  }

  lemma GluedJoins(lines: seq<string>, k: nat, line: string)
    requires k + 1 < |lines|
    ensures Join(lines[k := line], '\n') == Join(Glued(lines, k, line), '\n')
  {
    JoinSplits(lines[..k], line, lines[k + 1], lines[k + 2..]);
    assert lines[k := line] == lines[..k] + [line, lines[k + 1]] + lines[k + 2..];
    assert Glued(lines, k, line) == lines[..k] + [line + "\n" + lines[k + 1]] + lines[k + 2..];
  }

  lemma GluedIsOneLine(line: string, next: string)
    requires OneLine(line) && EndsInReturn(line) && OneLine(next) && !EndsInReturn(next)
    ensures OneLine(line + "\n" + next) && !EndsInReturn(line + "\n" + next)
  {
    var both, n := line + "\n" + next, |line|;
    forall i | 0 <= i < |both| ensures !BreaksAt(both, i) {
      if i < n {
        assert !BreaksAt(line, i);
        assert both[i] == line[i] && (i > 0 ==> both[i - 1] == line[i - 1]);
      } else if i == n {
        assert both[n - 1] == line[n - 1];
      } else {
        assert !BreaksAt(next, i - n - 1);
        assert both[i] == next[i - n - 1] && (i > n + 1 ==> both[i - 1] == next[i - n - 2]);
      }
    }
  }

  lemma ShowsWithout(entries: seq<Entry>, names: seq<string>, saved: map<string, string>, j: nat)
    requires Shows(entries, names, Redacted(saved)) && j < |names|
    ensures Shows(Without(entries, j), Without(names, j), Redacted(saved - {names[j]}))
  {
    var rest := Without(names, j);
    forall n ensures n in rest <==> n in names && n != names[j] {
      WithoutMembers(names, j, n);
    }
  }

  lemma WithoutMembers(names: seq<string>, j: nat, n: string)
    requires Ascending(names) && j < |names|
    ensures n in Without(names, j) <==> n in names && n != names[j]
  {
    if n in names && n != names[j] {
      var i :| 0 <= i < |names| && names[i] == n;
      assert Without(names, j)[if i < j then i else i - 1] == n;
    }
    LessIrreflexive(names[j]);
  }

  lemma {:induction false} TrimLeftKeeps(s: string, blank: char -> bool, c: char)
    requires c in s && !blank(c)
    ensures c in TrimLeft(s, blank)
  {
    if blank(s[0]) {
      assert s == [s[0]] + s[1..];
      TrimLeftKeeps(s[1..], blank, c);
    }
  }

  lemma {:induction false} TrimRightKeeps(s: string, blank: char -> bool, c: char)
    requires c in s && !blank(c)
    ensures c in TrimRight(s, blank)
  {
    if blank(s[|s| - 1]) {
      assert s == s[..|s| - 1] + [s[|s| - 1]];
      TrimRightKeeps(s[..|s| - 1], blank, c);
    }
  }

  lemma TrimKeeps(s: string, blank: char -> bool, c: char)
    requires c in s && !blank(c)
    ensures c in TrimWhere(s, blank)
  {
    TrimLeftKeeps(s, blank, c);
    TrimRightKeeps(TrimLeft(s, blank), blank, c);
  }

  lemma SplitFirstAgain(a: string, b: string, sep: char)
    requires sep !in a
    ensures SplitFirst(a + [sep] + b, sep) == (a, b) && sep in a + [sep] + b
  {
    SplitFirstOfPair(a, b, sep);
    assert (a + [sep] + b)[|a|] == sep;
  }

  /** A name in the line stays the name; all that follows becomes its value, with the newline in it. */
  lemma GluedAfterColon(line: string, next: string)
    requires ':' in line
    ensures var both := ParseLine(line + "\n" + next);
            && (both.None? <==> ParseLine(line).None?)
            && (both.Some? ==> both.value.0 == ParseLine(line).value.0 && '\n' in both.value.1)
  {
    var (before, after) := SplitFirst(line, ':');
    var value := after + "\n" + next;
    assert line + "\n" + next == before + ":" + value;
    SplitFirstAgain(before, value, ':');
    assert value[|after|] == '\n';
    TrimKeeps(value, IsBlank, '\n');
  }

  /** Without one the newline gets into the name of the next header. */
  lemma GluedBeforeColon(line: string, name: string, value: string)
    requires ':' !in line && IsToken(name) && TightWhere(value, IsBlank)
    ensures var both := ParseLine(line + "\n" + Line(name, value));
            both.Some? && '\n' in both.value.0 && both.value.1 == value
  {
    TokenIsPlain(name);
    var before, after := line + "\n" + name, " " + value;
    assert line + "\n" + Line(name, value) == before + ":" + after;
    SplitFirstAgain(before, after, ':');
    assert before[|line|] == '\n';
    TrimKeeps(before, IsBlank, '\n');
    TrimIsTight(value, IsBlank);
    assert after[1..] == value && TrimLeft(after, IsBlank) == TrimLeft(value, IsBlank);
  }

  /** What the server stores of a header set that is sent, if it accepts it. */
  function Accepted(s: Settings, sent: map<string, string>): Option<map<string, string>> {
    var kept := KeepMasked(sent, s.headers);
    if kept.Some? && ValidRequest(s.(headers := kept.value)) then kept else None
  }

  /** A line that ends in a return, but is not the last, takes the next one with it. Without a colon
      the set is refused, and with one too, unless there is nothing before the colon or a header whose
      line comes later; then both headers are removed. */
  function EditedWithReturn(saved: map<string, string>, name: string, next: string, line: string): Option<map<string, string>> {
    if ':' !in line then None
    else
      match ParseLine(line)
      case None => Some(saved - {name, next})
      case Some(header) => if header.0 in saved && Less(next, header.0) then Some(saved - {name, next}) else None
  }

  /** A mask says the same without a header it is not under. */
  lemma KeepsWithout(sent: map<string, string>, saved: map<string, string>, name: string)
    requires name in sent ==> sent[name] != HEADER_MASK
    ensures KeepMasked(sent, saved) == KeepMasked(sent, saved - {name})
  {
    var rest := saved - {name};
    assert (map n | n in sent :: Unmasked(saved, n, sent[n])) == map n | n in sent :: Unmasked(rest, n, sent[n]);
    if n :| n in sent && sent[n] == HEADER_MASK && n !in rest {
      assert n !in saved;
    }
  }

  lemma FewerIsValid(s: Settings, names: set<string>)
    requires ValidRequest(s)
    ensures ValidRequest(s.(headers := s.headers - names))
  {
    SubsetSize((s.headers - names).Keys, s.headers.Keys);
  }

  lemma NextName(names: seq<string>, k: nat, n: string)
    requires Ascending(names) && k + 1 < |names| && n in names
    ensures Less(names[k + 1], n) <==> n != names[k + 1] && n != names[k] && Less(names[k], n)
  {
    var j :| 0 <= j < |names| && names[j] == n;
    LessIrreflexive(n);
    if j != k {
      PlacesFollowNames(names, k, j);
    }
    if j != k + 1 {
      PlacesFollowNames(names, k + 1, j);
    }
  }

  lemma OthersStand(lines: seq<string>, j: nat)
    requires j < |lines| && forall i | 0 <= i < |lines| :: OneLine(lines[i]) && !EndsInReturn(lines[i])
    ensures EntriesOf(Without(lines, j)) == Without(EntriesOf(lines), j)
    ensures forall i | 0 <= i < |Without(lines, j)| :: OneLine(Without(lines, j)[i]) && !EndsInReturn(Without(lines, j)[i])
  {
    var others := Without(lines, j);
    forall i | 0 <= i < |others| ensures others[i] == lines[if i < j then i else i + 1] {
    }
  }

  lemma GluedForm(lines: seq<string>, names: seq<string>, saved: map<string, string>, k: nat, line: string, sent: map<string, string>)
    requires Shows(EntriesOf(lines), names, Redacted(saved)) && k + 1 < |lines| && OneLine(line) && EndsInReturn(line)
    requires forall i | 0 <= i < |lines| :: OneLine(lines[i]) && !EndsInReturn(lines[i])
    requires sent == OrEmpty(FromLines(Join(lines[k := line], '\n')))
    ensures var (rest, e) := (saved - {names[k + 1]}, ParseLine(line + "\n" + lines[k + 1]));
            sent == Applied(Redacted(rest), names[k], e) && KeepMasked(sent, rest) == Edited(rest, names[k], e)
  {
    var others, fewer, both := Without(lines, k + 1), Without(names, k + 1), line + "\n" + lines[k + 1];
    GluedJoins(lines, k, line);
    ShowsWithout(EntriesOf(lines), names, saved, k + 1);
    GluedIsOneLine(line, lines[k + 1]);
    OthersStand(lines, k + 1);
    EditedForm(others, fewer, saved - {names[k + 1]}, k, both);
  }

  lemma MaskIsTight()
    ensures TightWhere(HEADER_MASK, IsBlank) && '\n' !in HEADER_MASK
  {
    assert HEADER_MASK[0] == '*' && HEADER_MASK[|HEADER_MASK| - 1] == '*';
  }

  lemma NewlineIsNoName(s: Settings, n: string)
    requires ValidRequest(s) && '\n' in n
    ensures n !in s.headers
  {
    if n in s.headers {
      TokenIsPlain(n);
    }
  }

  /** The two lines as one entry: nothing, a header with a newline in its value, or a mask under a name
      with a newline in it. */
  lemma GluedOutcome(s: Settings, names: seq<string>, k: nat, e: Entry, sent: map<string, string>)
    requires ValidRequest(s) && names == SortedNames(s.headers.Keys) && k + 1 < |names|
    requires sent == Applied(Redacted(s.headers - {names[k + 1]}), names[k], e)
    requires KeepMasked(sent, s.headers - {names[k + 1]}) == Edited(s.headers - {names[k + 1]}, names[k], e)
    requires e.Some? ==> '\n' in e.value.1 || ('\n' in e.value.0 && e.value.1 == HEADER_MASK)
    ensures Accepted(s, sent) ==
              if e.None? || (e.value.0 in s.headers && Less(names[k + 1], e.value.0)) then Some(s.headers - {names[k], names[k + 1]})
              else None
  {
    var name, next := names[k], names[k + 1];
    assert name in names && next in names;
    LessIrreflexive(name);
    MaskIsTight();
    if e.Some? && '\n' in e.value.0 {
      NewlineIsNoName(s, e.value.0);
    }
    NextIsNotMasked(s, name, next, e, sent);
    KeepsWithout(sent, s.headers, next);
    if e.Some? && e.value.0 in s.headers {
      assert e.value.0 in names;
      NextName(names, k, e.value.0);
    }
    EditedOutcome(s, name, next, e);
  }

  lemma NextIsNotMasked(s: Settings, name: string, next: string, e: Entry, sent: map<string, string>)
    requires sent == Applied(Redacted(s.headers - {next}), name, e) && next in s.headers
    requires e.Some? ==> '\n' in e.value.1 || (e.value.0 !in s.headers && e.value.1 == HEADER_MASK)
    ensures next in sent ==> sent[next] != HEADER_MASK
  {
    MaskIsTight();
  }

  lemma EditedOutcome(s: Settings, name: string, next: string, e: Entry)
    requires ValidRequest(s) && name in s.headers && next in s.headers && name != next
    requires e.Some? ==> '\n' in e.value.1 || (e.value.0 !in s.headers && e.value.1 == HEADER_MASK)
    requires e.Some? && e.value.0 in s.headers ==>
               (Less(next, e.value.0) <==> e.value.0 != next && e.value.0 != name && Less(name, e.value.0))
    ensures var (gone, kept) := (s.headers - {name, next}, Edited(s.headers - {next}, name, e));
            if e.None? || (e.value.0 in s.headers && Less(next, e.value.0))
            then kept == Some(gone) && ValidRequest(s.(headers := gone))
            else kept.Some? ==> !ValidRequest(s.(headers := kept.value))
  {
    var rest := s.headers - {next};
    MaskIsTight();
    if e.None? || (e.value.0 in s.headers && Less(next, e.value.0)) {
      assert rest - {name} == s.headers - {name, next};
      FewerIsValid(s, {name, next});
    } else if e.value.1 != HEADER_MASK {
      var kept := (rest - {name})[e.value.0 := e.value.1];
      assert Edited(rest, name, e) == Some(kept);
      ValueIsRefused(s, kept, e.value.0);
    }
  }

  lemma ValueIsRefused(s: Settings, headers: map<string, string>, n: string)
    requires n in headers && '\n' in headers[n]
    ensures !ValidRequest(s.(headers := headers))
  {
  }

  lemma GluedEntry(line: string, name: string, e: Entry)
    requires IsToken(name) && e == ParseLine(line + "\n" + Line(name, HEADER_MASK))
    ensures e.Some? ==> '\n' in e.value.1 || ('\n' in e.value.0 && e.value.1 == HEADER_MASK)
    ensures if ':' in line then (e.None? <==> ParseLine(line).None?) && (e.Some? ==> e.value.0 == ParseLine(line).value.0)
            else e.Some? && '\n' in e.value.0
  {
    MaskIsTight();
    if ':' in line {
      GluedAfterColon(line, Line(name, HEADER_MASK));
    } else {
      GluedBeforeColon(line, name, HEADER_MASK);
    }
  }

  /** What is sent: the two lines as one entry under the first of the two names. */
  lemma GluedSent(s: Settings, names: seq<string>, lines: seq<string>, k: nat, line: string, sent: map<string, string>)
    requires ValidRequest(s) && names == SortedNames(s.headers.Keys) && lines == LinesOf(Redacted(s.headers))
    requires |lines| == |names| && k + 1 < |names| && OneLine(line) && EndsInReturn(line)
    requires sent == OrEmpty(FromLines(Join(lines[k := line], '\n')))
    ensures var (rest, e) := (s.headers - {names[k + 1]}, ParseLine(line + "\n" + Line(names[k + 1], HEADER_MASK)));
            sent == Applied(Redacted(rest), names[k], e) && KeepMasked(sent, rest) == Edited(rest, names[k], e)
    ensures names[k + 1] in s.headers
  {
    ShownLine(s, names, lines, k + 1);
    FormShows(s);
    GluedForm(lines, names, s.headers, k, line, sent);
  }

  lemma EditingWithReturn(s: Settings, names: seq<string>, k: nat, line: string)
    requires ValidRequest(s) && names == SortedNames(s.headers.Keys) && |LinesOf(Redacted(s.headers))| == |names|
    requires k + 1 < |names| && OneLine(line) && EndsInReturn(line)
    ensures var sent := OrEmpty(FromLines(Join(LinesOf(Redacted(s.headers))[k := line], '\n')));
            Accepted(s, sent) == EditedWithReturn(s.headers, names[k], names[k + 1], line)
  {
    var lines := LinesOf(Redacted(s.headers));
    var sent := OrEmpty(FromLines(Join(lines[k := line], '\n')));
    GluedSent(s, names, lines, k, line, sent);
    GluedAccepted(s, names, k, line, sent);
  }

  lemma GluedAccepted(s: Settings, names: seq<string>, k: nat, line: string, sent: map<string, string>)
    requires ValidRequest(s) && names == SortedNames(s.headers.Keys) && k + 1 < |names| && names[k + 1] in s.headers
    requires var (rest, e) := (s.headers - {names[k + 1]}, ParseLine(line + "\n" + Line(names[k + 1], HEADER_MASK)));
             sent == Applied(Redacted(rest), names[k], e) && KeepMasked(sent, rest) == Edited(rest, names[k], e)
    ensures Accepted(s, sent) == EditedWithReturn(s.headers, names[k], names[k + 1], line)
  {
    var e := ParseLine(line + "\n" + Line(names[k + 1], HEADER_MASK));
    GluedEntry(line, names[k + 1], e);
    GluedOutcome(s, names, k, e, sent);
    GluedMeans(s, names[k], names[k + 1], line, e);
  }

  lemma ShownLine(s: Settings, names: seq<string>, lines: seq<string>, i: nat)
    requires names == SortedNames(s.headers.Keys) && lines == LinesOf(Redacted(s.headers)) && i < |names|
    ensures |lines| == |names| && names[i] in s.headers && lines[i] == Line(names[i], HEADER_MASK)
  {
    assert Redacted(s.headers).Keys == s.headers.Keys;
    assert names[i] in names;
  }

  lemma GluedMeans(s: Settings, name: string, next: string, line: string, e: Entry)
    requires ValidRequest(s)
    requires if ':' in line then (e.None? <==> ParseLine(line).None?) && (e.Some? ==> e.value.0 == ParseLine(line).value.0)
             else e.Some? && '\n' in e.value.0
    ensures EditedWithReturn(s.headers, name, next, line)
         == if e.None? || (e.value.0 in s.headers && Less(next, e.value.0)) then Some(s.headers - {name, next}) else None
  {
    if ':' !in line {
      NewlineIsNoName(s, e.value.0);
    }
  }

  /** What the server makes of the form with one line replaced by any other: the header of that line is
      set anew, kept or removed, a mask under a new name is refused, and a line that names another
      saved header takes effect only if it comes later. A line that ends in a return is a case of its
      own. */
  lemma EditingOneLine(s: Settings, names: seq<string>, k: nat, line: string)
    requires ValidRequest(s) && names == SortedNames(s.headers.Keys) && k < |names| && OneLine(line)
    ensures |LinesOf(Redacted(s.headers))| == |names|
    ensures var sent := OrEmpty(FromLines(Join(LinesOf(Redacted(s.headers))[k := line], '\n')));
            if EndsInReturn(line) && k + 1 < |names|
            then Accepted(s, sent) == EditedWithReturn(s.headers, names[k], names[k + 1], line)
            else KeepMasked(sent, s.headers) == Edited(s.headers, names[k], ParseLine(line))
  {
    ShownLine(s, names, LinesOf(Redacted(s.headers)), k);
    if EndsInReturn(line) && k + 1 < |names| {
      EditingWithReturn(s, names, k, line);
    } else {
      EditingWithoutReturn(s, names, k, line);
    }
  }

  lemma EditingWithoutReturn(s: Settings, names: seq<string>, k: nat, line: string)
    requires ValidRequest(s) && names == SortedNames(s.headers.Keys) && |LinesOf(Redacted(s.headers))| == |names|
    requires k < |names| && OneLine(line) && (EndsInReturn(line) ==> k == |names| - 1)
    ensures KeepMasked(OrEmpty(FromLines(Join(LinesOf(Redacted(s.headers))[k := line], '\n'))), s.headers)
         == Edited(s.headers, names[k], ParseLine(line))
  {
    FormShows(s);
    EditedForm(LinesOf(Redacted(s.headers)), names, s.headers, k, line);
  }

  // ---- restoring masks in place ----

  /** A header set that its methods rewrite. */
  class HeaderSet {
    var values: map<string, string>

    constructor (values: map<string, string>)
      ensures this.values == values
    {
      this.values := values;
    }

    /** Visits the names in any order; on failure some masks may have been replaced already. */
    method KeepMaskedHeaders(saved: map<string, string>) returns (ok: bool)
      modifies this
      ensures ok <==> KeepMasked(old(values), saved).Some?
      ensures ok ==> Some(values) == KeepMasked(old(values), saved)
      ensures values.Keys == old(values).Keys
      ensures forall n | n in values :: values[n] == old(values)[n] || values[n] == Unmasked(saved, n, old(values)[n])
    {
      var todo := values.Keys;
      while todo != {}
        invariant todo <= values.Keys == old(values).Keys
        invariant forall n | n in todo :: values[n] == old(values)[n]
        invariant forall n | n in values.Keys - todo ::
                    values[n] == Unmasked(saved, n, old(values)[n]) && (old(values)[n] == HEADER_MASK ==> n in saved)
        decreases todo
      {
        var n :| n in todo;
        if values[n] == HEADER_MASK {
          if n !in saved {
            return false;
          }
          values := values[n := saved[n]];
        }
        todo := todo - {n};
      }
      assert values == map n | n in old(values) :: Unmasked(saved, n, old(values)[n]);
      return true;
    }
  }
}
