/**
 The string operations the components share, on sequences of code points. Letter case is the
 ASCII one.
 */
module Text {
  function LowerChar(c: char): char {
    if 'A' <= c <= 'Z' then (c as int + 32) as char else c
  }

  function UpperChar(c: char): char {
    if 'a' <= c <= 'z' then (c as int - 32) as char else c
  }

  function Lower(s: string): (r: string)
    ensures |r| == |s| && forall i | 0 <= i < |s| :: r[i] == LowerChar(s[i])
  {
    seq(|s|, i requires 0 <= i < |s| => LowerChar(s[i]))
  }

  function Upper(s: string): (r: string)
    ensures |r| == |s| && forall i | 0 <= i < |s| :: r[i] == UpperChar(s[i])
  {
    seq(|s|, i requires 0 <= i < |s| => UpperChar(s[i]))
  }

  predicate EqualFold(a: string, b: string) {
    Lower(a) == Lower(b)
  }

  lemma UpperTwice(s: string)
    ensures Upper(Upper(s)) == Upper(s)
  {
  }

  predicate IsSpace(c: char) {
    c in {' ', '\t', '\n', '\r'} || c as int in {0x0B, 0x0C, 0x85, 0xA0}
  }

  function TrimLeft(s: string, blank: char -> bool): string {
    if s != [] && blank(s[0]) then TrimLeft(s[1..], blank) else s
  }

  function TrimRight(s: string, blank: char -> bool): string {
    if s != [] && blank(s[|s| - 1]) then TrimRight(s[..|s| - 1], blank) else s
  }

  function TrimWhere(s: string, blank: char -> bool): string {
    TrimRight(TrimLeft(s, blank), blank)
  }

  function Trim(s: string): string {
    TrimWhere(s, IsSpace)
  }

  /** Neither end is blank; such a text is left alone by trimming. */
  predicate TightWhere(s: string, blank: char -> bool) {
    s == [] || (!blank(s[0]) && !blank(s[|s| - 1]))
  }

  predicate Tight(s: string) {
    TightWhere(s, IsSpace)
  }

  lemma {:induction false} TrimLeftStart(s: string, blank: char -> bool)
    ensures TrimLeft(s, blank) != [] ==> !blank(TrimLeft(s, blank)[0])
  {
    if s != [] && blank(s[0]) {
      TrimLeftStart(s[1..], blank);
    }
  }

  lemma {:induction false} TrimRightEnds(s: string, blank: char -> bool)
    requires s != [] ==> !blank(s[0])
    ensures TightWhere(TrimRight(s, blank), blank)
  {
    if s != [] && blank(s[|s| - 1]) {
      TrimRightEnds(s[..|s| - 1], blank);
    }
  }

  /** Trimming yields a text with no blank ends, and changes nothing exactly when there was none. */
  lemma TrimIsTight(s: string, blank: char -> bool)
    ensures TightWhere(TrimWhere(s, blank), blank)
    ensures TrimWhere(s, blank) == s <==> TightWhere(s, blank)
  {
    TrimLeftStart(s, blank);
    TrimRightEnds(TrimLeft(s, blank), blank);
  }

  function HasPrefix(s: string, p: string): bool {
    |p| <= |s| && s[..|p|] == p
  }

  function HasSuffix(s: string, p: string): bool {
    |p| <= |s| && s[|s| - |p|..] == p
  }

  predicate Contains(s: string, p: string) {
    exists i | 0 <= i <= |s| :: HasPrefix(s[i..], p)
  }

  // ---- splitting and joining ----

  function SplitFirst(s: string, sep: char): (r: (string, string))
    ensures sep !in r.0 && (sep in s ==> s == r.0 + [sep] + r.1) && (sep !in s ==> r == (s, []))
  {
    if s == [] then ([], [])
    else if s[0] == sep then ([], s[1..])
    else
      assert s == [s[0]] + s[1..];
      var rest := SplitFirst(s[1..], sep);
      ([s[0]] + rest.0, rest.1)
  }

  /** The pieces between separators; always at least one. */
  function Split(s: string, sep: char): (parts: seq<string>)
    ensures |parts| >= 1
    ensures forall p | p in parts :: sep !in p
    decreases |s|
  {
    if sep !in s then [s] else [SplitFirst(s, sep).0] + Split(SplitFirst(s, sep).1, sep)
  }

  function Join(parts: seq<string>, sep: char): string {
    if parts == [] then []
    else if |parts| == 1 then parts[0]
    else parts[0] + [sep] + Join(parts[1..], sep)
  }

  lemma {:induction false} SplitFirstOfPair(a: string, b: string, sep: char)
    requires sep !in a
    ensures SplitFirst(a + [sep] + b, sep) == (a, b)
  {
    var s := a + [sep] + b;
    if a != [] {
      assert s[1..] == a[1..] + [sep] + b;
      SplitFirstOfPair(a[1..], b, sep);
      assert a == [a[0]] + a[1..];
    } else {
      assert s[1..] == b;
    }
  }

  // ---- the order of strings ----

  predicate Less(a: string, b: string) {
    if b == [] then false
    else if a == [] then true
    else a[0] < b[0] || (a[0] == b[0] && Less(a[1..], b[1..]))
  }

  lemma {:induction false} LessTransitive(a: string, b: string, c: string)
    requires Less(a, b) && Less(b, c)
    ensures Less(a, c)
  {
    if a != [] && a[0] == b[0] && b[0] == c[0] {
      LessTransitive(a[1..], b[1..], c[1..]);
    }
  }

  lemma {:induction false} LessTotal(a: string, b: string)
    ensures a == b || Less(a, b) || Less(b, a)
  {
    if a != [] && b != [] && a[0] == b[0] {
      LessTotal(a[1..], b[1..]);
      if a[1..] == b[1..] {
        assert a == [a[0]] + a[1..] && b == [b[0]] + b[1..];
      }
    }
  }

  lemma {:induction false} LessIrreflexive(a: string)
    ensures !Less(a, a)
  {
    if a != [] {
      LessIrreflexive(a[1..]);
    }
  }

  ghost predicate IsLeast(names: set<string>, least: string) {
    least in names && forall n | n in names :: n == least || Less(least, n)
  }

  lemma {:induction false} LeastExists(names: set<string>) returns (least: string)
    requires names != {}
    ensures IsLeast(names, least)
  {
    least :| least in names;
    if names != {least} {
      var other := LeastExists(names - {least});
      LessTotal(least, other);
      if Less(other, least) {
        least := other;
      } else {
        forall n | n in names - {least, other} ensures Less(least, n) {
          LessTransitive(least, other, n);
        }
      }
    }
  }

  ghost function Least(names: set<string>): (least: string)
    requires names != {}
    ensures IsLeast(names, least)
  {
    assert exists n :: IsLeast(names, n) by {
      var n := LeastExists(names);
    }
    var n :| IsLeast(names, n);
    n
  }

  ghost predicate Ascending(names: seq<string>) {
    forall i, j | 0 <= i < j < |names| :: Less(names[i], names[j])
  }

  /** The names in ascending order. */
  ghost function SortedNames(names: set<string>): (sorted: seq<string>)
    ensures forall n :: n in sorted <==> n in names
    ensures Ascending(sorted) && |sorted| == |names|
  {
    if names == {} then [] else [Least(names)] + SortedNames(names - {Least(names)})
  }
}
