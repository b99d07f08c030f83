/**
 Monitors: what they are, how user input is normalized, and the operations that create, change and
 list them. URL parsing and the vetting of addresses belong to other systems and are parameters.
 */
module Monitors {
  import opened Text
  import opened Sets
  import opened Wrappers

  datatype Error = Forbidden | Validation | QuotaExceeded | NotFound | Internal

  /** A 128-bit id, as its 32 hexadecimal digits. */
  type Uuid = d: seq<nat> | |d| == 32 && forall i | 0 <= i < 32 :: d[i] < 16 witness seq(32, _ => 0)

  datatype Type = HTTP | HTTPS | SSL | TCP | ICMP | DNS | Heartbeat | GitHubActions | Unsupported(name: string)

  datatype Status = Up | Down | Degraded | Unknown | Paused

  datatype Settings = Settings(
    httpMethod: string, validStatusCodes: seq<int>, bodyKeyword: string, bodyNotKeyword: string, followRedirects: bool,
    headers: map<string, string>, skipTlsVerify: bool, body: string, sslExpiryWarningDays: int, responseTimeWarningMs: int,
    alertSensitivity: string, dnsQueryName: string, dnsQueryType: string, dnsExpectedIps: seq<string>,
    githubWorkflow: string, githubNotifyOnSuccess: bool)

  datatype Monitor = Monitor(
    id: Uuid, org: nat, project: nat, name: string, kind: Type, target: string, enabled: bool, public: bool,
    interval: int, timeout: int, grace: int, settings: Settings, lastStatus: Status, createdAt: nat)

  const HEADER_MASK := "********"
  const HEARTBEAT_TARGET := "(heartbeat)"

  datatype Url = Url(scheme: string, host: string)

  /** The outside world as the rules see it. */
  datatype Net = Net(parseUrl: string -> Option<Url>, splitHostPort: string -> Option<(string, string)>, blocked: string -> bool)

  // ---- normalization ----

  const MAX_HEADERS := 20
  const MAX_HEADER_VALUE := 8192
  const MAX_BODY := 8192
  const HTTP_METHODS := {"GET", "POST", "HEAD", "PUT", "DELETE", "PATCH"}
  const DNS_TYPES := {"A", "AAAA", "CNAME", "MX", "TXT", "NS", "SOA", "CAA"}
  const SENSITIVITIES := {"immediate", "balanced", "relaxed"}
  const DEFAULT_CODES := [200, 201, 202, 203, 204, 206, 300, 301, 302, 303, 304, 307, 308]

  predicate TokenChar(c: char) {
    'a' <= c <= 'z' || 'A' <= c <= 'Z' || '0' <= c <= '9' || c in "!#$%&'*+.^_`|~-"
  }

  /** They are the visible ASCII characters that delimit nothing. */
  lemma TokensAreVisible(c: char)
    ensures TokenChar(c) <==> 0x21 <= c as int <= 0x7E && c !in "\"(),/:;<=>?@[\\]{}"
  {
  }

  predicate IsToken(name: string) {
    name != [] && forall i | 0 <= i < |name| :: TokenChar(name[i])
  }

  predicate ValidRequest(s: Settings) {
    && |s.headers| <= MAX_HEADERS
    && (forall n | n in s.headers :: IsToken(n) && |s.headers[n]| <= MAX_HEADER_VALUE && '\n' !in s.headers[n] && '\r' !in s.headers[n])
    && |s.body| <= MAX_BODY
  }

  predicate ValidCodes(codes: seq<int>) {
    forall i | 0 <= i < |codes| :: 100 <= codes[i] <= 599
  }

  function ValidateHttp(net: Net, t: Type, target0: string, s: Settings): Result<(string, Settings), Error> {
    var target := if Contains(target0, "://") then target0 else (if t == HTTP then "http://" else "https://") + target0;
    var url := net.parseUrl(target);
    var verb := Upper(if s.httpMethod == "" then "GET" else s.httpMethod);
    var codes := if s.validStatusCodes == [] then DEFAULT_CODES else s.validStatusCodes;
    if url.None? || url.value.host == "" || url.value.scheme !in {"http", "https"} then Err(Validation)
    else if verb !in HTTP_METHODS || !ValidRequest(s) then Err(Validation)
    else if !ValidCodes(codes) then Err(Validation)
    else
      var days := if (t == SSL || url.value.scheme == "https") && s.sslExpiryWarningDays == 0 then 30 else s.sslExpiryWarningDays;
      Ok((target, s.(httpMethod := verb, validStatusCodes := codes, sslExpiryWarningDays := days)))
  }

  function ValidateTcp(net: Net, target: string, s: Settings): Result<(string, Settings), Error> {
    var hp := net.splitHostPort(target);
    if hp.None? || hp.value.0 == "" || hp.value.1 == "" then Err(Validation) else Ok((target, s))
  }

  function ValidateIcmp(target: string, s: Settings): Result<(string, Settings), Error> {
    if Contains(target, "://") || Contains(target, "/") then Err(Validation) else Ok((target, s))
  }

  function ValidateDns(target: string, s: Settings): Result<(string, Settings), Error> {
    var name := if s.dnsQueryName == "" then target else s.dnsQueryName;
    var record := Upper(if s.dnsQueryType == "" then "A" else s.dnsQueryType);
    if record !in DNS_TYPES then Err(Validation) else Ok((target, s.(dnsQueryName := name, dnsQueryType := record)))
  }

  const REPO_PREFIXES := ["https://github.com/", "http://github.com/", "github.com/", "git@github.com:"]

  function StripPrefix(repo: string, prefixes: seq<string>): string {
    if prefixes == [] then repo
    else if HasPrefix(Lower(repo), prefixes[0]) then repo[|prefixes[0]|..]
    else StripPrefix(repo, prefixes[1..])
  }

  function StripGit(repo: string): string {
    if HasSuffix(repo, ".git") then repo[..|repo| - 4] else repo
  }

  predicate IsSlash(c: char) {
    c == '/'
  }

  /** The parts of a target between slashes, once host, surrounding slashes and one suffix are gone. */
  function Segments(target: string): seq<string> {
    Split(StripGit(TrimWhere(StripPrefix(Trim(target), REPO_PREFIXES), IsSlash)), '/')
  }

  function RepositoryOf(target: string): Option<string> {
    var parts := Segments(target);
    if |parts| < 2 || parts[0] == "" || parts[1] == "" then None else Some(parts[0] + "/" + parts[1])
  }

  function ValidateGitHub(target: string, s: Settings): Result<(string, Settings), Error> {
    var repo := RepositoryOf(target);
    if repo.None? then Err(Validation) else Ok((repo.value, s.(githubWorkflow := Trim(s.githubWorkflow))))
  }

  function Normalize(net: Net, t: Type, rawTarget: string, raw: Settings): Result<(string, Settings), Error> {
    if t.Unsupported? then Err(Validation)
    else
      var s := raw.(alertSensitivity := if raw.alertSensitivity == "" then "balanced" else raw.alertSensitivity);
      if s.alertSensitivity !in SENSITIVITIES then Err(Validation)
      else if t == Heartbeat then Ok((HEARTBEAT_TARGET, s))
      else
        var target := Trim(rawTarget);
        if target == "" then Err(Validation)
        else
          match t
          case HTTP => ValidateHttp(net, t, target, s)
          case HTTPS => ValidateHttp(net, t, target, s)
          case SSL => ValidateHttp(net, t, target, s)
          case TCP => ValidateTcp(net, target, s)
          case ICMP => ValidateIcmp(target, s)
          case DNS => ValidateDns(target, s)
          case GitHubActions => ValidateGitHub(target, s)
  }

  lemma SchemeKeepsTight(scheme: string, target: string)
    requires scheme in {"http://", "https://"} && target != "" && Tight(target)
    ensures Tight(scheme + target) && Contains(scheme + target, "://")
  {
    var full := scheme + target;
    assert full[0] == 'h' && full[|full| - 1] == target[|target| - 1];
    var i := if scheme == "http://" then 4 else 5;
    assert scheme[i..] == "://";
    assert full[i..] == "://" + target;
    assert HasPrefix(full[i..], "://");
  }

  lemma HttpIsStable(net: Net, t: Type, target: string, s: Settings)
    requires t in {HTTP, HTTPS, SSL} && target != "" && Tight(target)
    requires ValidateHttp(net, t, target, s).Ok?
    ensures var (target', s') := ValidateHttp(net, t, target, s).value;
            ValidateHttp(net, t, target', s') == Ok((target', s')) && Tight(target') && target' != ""
  {
    var (target', s') := ValidateHttp(net, t, target, s).value;
    if !Contains(target, "://") {
      SchemeKeepsTight(if t == HTTP then "http://" else "https://", target);
    }
    UpperTwice(if s.httpMethod == "" then "GET" else s.httpMethod);
    assert "" !in HTTP_METHODS;
    assert ValidRequest(s');
  }

  lemma DnsIsStable(target: string, s: Settings)
    requires ValidateDns(target, s).Ok?
    ensures var (target', s') := ValidateDns(target, s).value; target' == target && ValidateDns(target, s') == Ok((target, s'))
  {
    UpperTwice(if s.dnsQueryType == "" then "A" else s.dnsQueryType);
    assert "" !in DNS_TYPES;
  }

  /** Normalizing twice is normalizing once, for every type but repositories. */
  lemma NormalizeIsStable(net: Net, t: Type, target: string, s: Settings)
    requires t != GitHubActions && Normalize(net, t, target, s).Ok?
    ensures var (target', s') := Normalize(net, t, target, s).value;
            Normalize(net, t, target', s') == Ok((target', s'))
  {
    if t in {HTTP, HTTPS, SSL} {
      WebIsStable(net, t, target, s);
    } else {
      OtherIsStable(net, t, target, s);
    }
  }

  lemma WebIsStable(net: Net, t: Type, target: string, s: Settings)
    requires t in {HTTP, HTTPS, SSL} && Normalize(net, t, target, s).Ok?
    ensures var (target', s') := Normalize(net, t, target, s).value;
            Normalize(net, t, target', s') == Ok((target', s'))
  {
    var s1 := s.(alertSensitivity := if s.alertSensitivity == "" then "balanced" else s.alertSensitivity);
    TrimIsTight(target, IsSpace);
    HttpIsStable(net, t, Trim(target), s1);
    var (target', s') := ValidateHttp(net, t, Trim(target), s1).value;
    assert s'.alertSensitivity == s1.alertSensitivity;
    TightIsNormalizedOnce(net, t, target', s');
  }

  /** On a trimmed target with a sensitivity normalization is the validation of the type. */
  lemma TightIsNormalizedOnce(net: Net, t: Type, target: string, s: Settings)
    requires t in {HTTP, HTTPS, SSL} && target != "" && Tight(target) && s.alertSensitivity in SENSITIVITIES
    ensures Normalize(net, t, target, s) == ValidateHttp(net, t, target, s)
  {
    TrimIsTight(target, IsSpace);
    assert s.(alertSensitivity := s.alertSensitivity) == s;
  }

  lemma OtherIsStable(net: Net, t: Type, target: string, s: Settings)
    requires t !in {HTTP, HTTPS, SSL, GitHubActions} && Normalize(net, t, target, s).Ok?
    ensures var (target', s') := Normalize(net, t, target, s).value;
            Normalize(net, t, target', s') == Ok((target', s'))
  {
    TrimIsTight(target, IsSpace);
    TrimIsTight(Trim(target), IsSpace);
    if t == DNS {
      DnsIsStable(Trim(target), s.(alertSensitivity := if s.alertSensitivity == "" then "balanced" else s.alertSensitivity));
    }
  }

  // ---- when a repository target is stable ----

  lemma {:induction false} TrimLeftLength(s: string, blank: char -> bool)
    ensures |TrimLeft(s, blank)| <= |s|
  {
    if s != [] && blank(s[0]) {
      TrimLeftLength(s[1..], blank);
    }
  }

  lemma {:induction false} TrimRightLength(s: string, blank: char -> bool)
    ensures |TrimRight(s, blank)| <= |s|
  {
    if s != [] && blank(s[|s| - 1]) {
      TrimRightLength(s[..|s| - 1], blank);
    }
  }

  lemma {:induction false} StripPrefixLength(repo: string, prefixes: seq<string>)
    requires forall p | p in prefixes :: p != ""
    ensures |StripPrefix(repo, prefixes)| <= |repo|
    ensures StripPrefix(repo, prefixes) == repo <==> forall p | p in prefixes :: !HasPrefix(Lower(repo), p)
    ensures StripPrefix(repo, prefixes) != repo ==> |StripPrefix(repo, prefixes)| < |repo|
  {
    if prefixes != [] {
      assert prefixes[0] in prefixes && forall p | p in prefixes[1..] :: p in prefixes;
      StripPrefixLength(repo, prefixes[1..]);
      assert forall p | p in prefixes :: p == prefixes[0] || p in prefixes[1..];
    }
  }

  lemma FirstTwoParts(path: string)
    requires |Split(path, '/')| >= 2
    ensures var parts := Split(path, '/');
            |parts[0]| + 1 + |parts[1]| <= |path| && (parts[0] + "/" + parts[1] == path || |parts[0]| + 1 + |parts[1]| < |path|)
  {
    var first := SplitFirst(path, '/');
    assert path == first.0 + "/" + first.1;
    var second := SplitFirst(first.1, '/');
  }

  /** Nothing in the name would be taken for a host, a suffix or surrounding blanks. */
  predicate CleanRepository(repo: string) {
    Tight(repo) && (forall p | p in REPO_PREFIXES :: !HasPrefix(Lower(repo), p)) && !HasSuffix(repo, ".git")
  }

  lemma PairIsClean(a: string, b: string)
    requires a != "" && b != "" && '/' !in a && '/' !in b
    ensures Split(a + "/" + b, '/') == [a, b]
    ensures TrimWhere(a + "/" + b, IsSlash) == a + "/" + b
  {
    var r := a + "/" + b;
    SplitFirstOfPair(a, b, '/');
    assert r[|a|] == '/';
    assert Split(b, '/') == [b];
    assert r[0] == a[0] && r[|r| - 1] == b[|b| - 1];
    TrimIsTight(r, IsSlash);
  }

  /** A stored repository name is left alone by normalization exactly when it is clean. */
  lemma RepositoryIsStableWhenClean(target: string)
    requires RepositoryOf(target).Some?
    ensures var repo := RepositoryOf(target).value;
            RepositoryOf(repo) == Some(repo) <==> CleanRepository(repo)
  {
    var parts := Segments(target);
    PairIsStable(parts[0], parts[1]);
  }

  lemma PairIsStable(a: string, b: string)
    requires a != "" && b != "" && '/' !in a && '/' !in b
    ensures RepositoryOf(a + "/" + b) == Some(a + "/" + b) <==> CleanRepository(a + "/" + b)
  {
    var repo := a + "/" + b;
    PairIsClean(a, b);
    TrimIsTight(repo, IsSpace);
    StripPrefixLength(Trim(repo), REPO_PREFIXES);
    if RepositoryOf(repo) == Some(repo) {
      var stripped := StripPrefix(Trim(repo), REPO_PREFIXES);
      StableLosesNothing(repo, stripped, TrimWhere(stripped, IsSlash));
    }
  }

  lemma TrimmedLength(s: string, blank: char -> bool)
    ensures |TrimWhere(s, blank)| <= |s|
  {
    TrimLeftLength(s, blank);
    TrimRightLength(TrimLeft(s, blank), blank);
  }

  lemma StepsShorten(repo: string)
    requires RepositoryOf(repo) == Some(repo)
    ensures var trimmed := TrimWhere(StripPrefix(Trim(repo), REPO_PREFIXES), IsSlash);
            |repo| <= |StripGit(trimmed)| <= |trimmed| <= |StripPrefix(Trim(repo), REPO_PREFIXES)|
  {
    var stripped := StripPrefix(Trim(repo), REPO_PREFIXES);
    TrimmedLength(stripped, IsSlash);
    FirstTwoParts(StripGit(TrimWhere(stripped, IsSlash)));
  }

  lemma StableLosesNothing(repo: string, stripped: string, trimmed: string)
    requires RepositoryOf(repo) == Some(repo)
    requires stripped == StripPrefix(Trim(repo), REPO_PREFIXES) && trimmed == TrimWhere(stripped, IsSlash)
    ensures Trim(repo) == stripped == repo && |trimmed| <= |StripGit(trimmed)|
  {
    StepsShorten(repo);
    NothingLeftOff(repo, Trim(repo), stripped, REPO_PREFIXES);
  }

  lemma NothingLeftOff(repo: string, t: string, stripped: string, prefixes: seq<string>)
    requires t == Trim(repo) && stripped == StripPrefix(t, prefixes) && |repo| <= |stripped|
    requires forall p | p in prefixes :: p != ""
    ensures stripped == t == repo
  {
    TrimmedLength(repo, IsSpace);
    StripPrefixLength(t, prefixes);
    TrimShortens(repo);
  }

  /** An owner and a name that are only that. */
  predicate PlainPair(owner: string, name: string)
    requires owner != "" && name != ""
  {
    && !IsSpace(owner[0]) && !IsSpace(name[|name| - 1]) && !HasSuffix(name, ".git")
    && Lower(owner) != "github.com" && !HasPrefix(Lower(owner), "git@github.com:")
  }

  lemma PrefixesOfAPair(owner: string, name: string)
    requires owner != "" && name != "" && '/' !in owner && '/' !in name
    ensures var low := Lower(owner + "/" + name);
            && !HasPrefix(low, REPO_PREFIXES[0]) && !HasPrefix(low, REPO_PREFIXES[1])
            && (HasPrefix(low, REPO_PREFIXES[2]) <==> Lower(owner) == "github.com")
            && (HasPrefix(low, REPO_PREFIXES[3]) <==> HasPrefix(Lower(owner), "git@github.com:"))
  {
    var repo, n := owner + "/" + name, |owner|;
    var low := Lower(repo);
    assert forall i | 0 <= i < |repo| && repo[i] == '/' :: i == n;
    assert forall i | 0 <= i < |low| && low[i] == '/' :: i == n;
    assert low[..n] == Lower(owner) && low[n] == '/';
    NoTwoSlashes(low, n, REPO_PREFIXES[0], 6);
    NoTwoSlashes(low, n, REPO_PREFIXES[1], 5);
    OneSlash(low, n, "github.com");
    NoSlash(low, n, "git@github.com:");
  }

  lemma NoTwoSlashes(low: string, n: nat, p: string, i: nat)
    requires forall j | 0 <= j < |low| && low[j] == '/' :: j == n
    requires i + 1 < |p| && p[i] == p[i + 1] == '/'
    ensures !HasPrefix(low, p)
  {
  }

  lemma OneSlash(low: string, n: nat, host: string)
    requires n < |low| && low[n] == '/' && (forall j | 0 <= j < |low| && low[j] == '/' :: j == n) && '/' !in host
    ensures HasPrefix(low, host + "/") <==> low[..n] == host
  {
    var h := |host|;
    assert (host + "/")[h] == '/' && (host + "/")[..h] == host;
    if HasPrefix(low, host + "/") {
      assert low[h] == low[..h + 1][h];
      assert low[..h] == low[..h + 1][..h];
    }
    assert low[..n + 1] == low[..n] + [low[n]];
  }

  lemma NoSlash(low: string, n: nat, p: string)
    requires n < |low| && low[n] == '/' && '/' !in p
    ensures HasPrefix(low, p) <==> HasPrefix(low[..n], p)
  {
    if n < |p| {
      assert p[n] in p;
    } else {
      assert low[..n][..|p|] == low[..|p|];
    }
  }

  lemma SuffixOfAPair(owner: string, name: string)
    ensures HasSuffix(owner + "/" + name, ".git") <==> HasSuffix(name, ".git")
  {
    var repo := owner + "/" + name;
    assert repo[|owner| + 1..] == name && repo[|owner|] == '/';
    if |name| >= 4 {
      assert repo[|repo| - 4..] == name[|name| - 4..];
    }
  }

  lemma CleanPairIsPlain(owner: string, name: string)
    requires owner != "" && name != "" && '/' !in owner && '/' !in name
    ensures CleanRepository(owner + "/" + name) <==> PlainPair(owner, name)
  {
    var repo := owner + "/" + name;
    PrefixesOfAPair(owner, name);
    SuffixOfAPair(owner, name);
    assert repo[0] == owner[0] && repo[|repo| - 1] == name[|name| - 1];
  }

  /** An accepted target is stored under a name that normalization leaves alone exactly if the first
      two of its segments are an owner and a name and nothing else. */
  lemma RepositoryIsStableForPlainPairs(target: string)
    requires RepositoryOf(target).Some?
    ensures var (repo, parts) := (RepositoryOf(target).value, Segments(target));
            && |parts| >= 2 && parts[0] != "" && parts[1] != ""
            && (RepositoryOf(repo) == Some(repo) <==> PlainPair(parts[0], parts[1]))
  {
    RepositoryIsStableWhenClean(target);
    CleanPairIsPlain(Segments(target)[0], Segments(target)[1]);
  }

  lemma TrimShortens(s: string)
    requires |Trim(s)| >= |s|
    ensures Trim(s) == s
  {
    TrimLeftLength(s, IsSpace);
    TrimRightLength(TrimLeft(s, IsSpace), IsSpace);
    if s != [] && IsSpace(s[0]) {
      TrimLeftLength(s[1..], IsSpace);
    } else if s != [] && IsSpace(s[|s| - 1]) {
      TrimRightLength(s[..|s| - 1], IsSpace);
    }
  }

  lemma NoHostPrefix(s: string)
    requires s != "" && LowerChar(s[0]) !in {'h', 'g'}
    ensures StripPrefix(s, REPO_PREFIXES) == s
  {
    forall p | p in REPO_PREFIXES ensures p != "" && !HasPrefix(Lower(s), p) {
      assert p[0] in {'h', 'g'};
      assert Lower(s)[0] == LowerChar(s[0]);
    }
    StripPrefixLength(s, REPO_PREFIXES);
  }

  /** Nothing is stripped from a text without host prefix, suffix and surrounding blanks. */
  lemma NothingStripped(x: string)
    requires x != "" && !IsSpace(x[0]) && x[0] != '/' && LowerChar(x[0]) !in {'h', 'g'}
    requires !IsSpace(x[|x| - 1]) && x[|x| - 1] !in {'/', 't'}
    ensures StripGit(TrimWhere(StripPrefix(Trim(x), REPO_PREFIXES), IsSlash)) == x
  {
    TrimIsTight(x, IsSpace);
    TrimIsTight(x, IsSlash);
    NoHostPrefix(x);
    NoGitSuffix(x);
  }

  lemma PathBelowGit(owner: string, name: string, path: string)
    requires owner != "" && name != "" && path != "" && '/' !in owner && '/' !in name && '/' !in path
    requires !IsSpace(owner[0]) && LowerChar(owner[0]) !in {'h', 'g'}
    requires !IsSpace(path[|path| - 1]) && path[|path| - 1] != 't'
    ensures var repo := owner + "/" + (name + ".git");
            RepositoryOf(repo + "/" + path) == Some(repo) && !CleanRepository(repo)
  {
    var second := name + ".git";
    SegmentsBelow(owner, second, path);
    SuffixOfAPair(owner, second);
    assert second[|second| - 4..] == ".git";
  }

  lemma SegmentsBelow(owner: string, second: string, path: string)
    requires owner != "" && second != "" && path != "" && '/' !in owner && '/' !in second && '/' !in path
    requires !IsSpace(owner[0]) && LowerChar(owner[0]) !in {'h', 'g'}
    requires !IsSpace(path[|path| - 1]) && path[|path| - 1] != 't'
    ensures var parts := Segments(owner + "/" + second + "/" + path); |parts| >= 2 && parts[0] == owner && parts[1] == second
  {
    var x := owner + "/" + second + "/" + path;
    ThreeParts(owner, second, path);
    assert x[0] == owner[0] && x[|x| - 1] == path[|path| - 1];
    NothingStripped(x);
  }

  lemma Spelled(owner: string, name: string, path: string)
    requires owner == "octo" && name == "site" && path == "issues"
    ensures owner + "/" + (name + ".git") == "octo/site.git" && "octo/site.git" + "/" + path == "octo/site.git/issues"
  {
  }

  /** An accepted target that is not stable: a path below `owner/name.git`. */
  lemma PastedPathIsNotStable() returns (target: string, repo: string)
    ensures target == "octo/site.git/issues" && repo == "octo/site.git"
    ensures RepositoryOf(target) == Some(repo) && RepositoryOf(repo) != Some(repo)
  {
    var owner, name, path := "octo", "site", "issues";
    Spelled(owner, name, path);
    repo := owner + "/" + (name + ".git");
    target := repo + "/" + path;
    PathBelowGit(owner, name, path);
    RepositoryIsStableWhenClean(target);
  }

  lemma ThreeParts(a: string, b: string, c: string)
    requires '/' !in a && '/' !in b
    ensures var parts := Split(a + "/" + b + "/" + c, '/'); |parts| >= 2 && parts[0] == a && parts[1] == b
  {
    var x := a + "/" + b + "/" + c;
    assert x == a + "/" + (b + "/" + c);
    assert x[|a|] == '/' && (b + "/" + c)[|b|] == '/';
    SplitFirstOfPair(a, b + "/" + c, '/');
    SplitFirstOfPair(b, c, '/');
  }

  lemma NoGitSuffix(s: string)
    requires s != "" && s[|s| - 1] != 't'
    ensures StripGit(s) == s
  {
    assert |s| >= 4 ==> s[|s| - 4..][3] == s[|s| - 1];
    assert ".git"[3] == 't';
  }

  // ---- masked headers ----

  /** A masked value stands for the one already saved under that name; a mask with nothing saved
      behind it is an error. */
  function KeepMasked(next: map<string, string>, saved: map<string, string>): Option<map<string, string>> {
    if exists n | n in next :: next[n] == HEADER_MASK && n !in saved then None
    else Some(map n | n in next :: Unmasked(saved, n, next[n]))
  }

  function Unmasked(saved: map<string, string>, name: string, value: string): string {
    if value == HEADER_MASK && name in saved then saved[name] else value
  }

  predicate NoMasks(headers: map<string, string>) {
    forall n | n in headers :: headers[n] != HEADER_MASK
  }

  lemma NoMasksKept(next: map<string, string>, saved: map<string, string>)
    requires NoMasks(next)
    ensures KeepMasked(next, saved) == Some(next)
  {
    assert next == map n | n in next :: Unmasked(saved, n, next[n]);
  }

  // ---- the operations ----

  datatype Limits = Limits(maxMonitors: int, minInterval: int)

  datatype Actor = Actor(org: nat, canWrite: bool)

  datatype CreateInput = CreateInput(project: nat, name: string, kind: Type, target: string, enabled: Option<bool>,
                                     public: Option<bool>, interval: int, timeout: int, settings: Settings, grace: int)

  datatype UpdateInput = UpdateInput(name: Option<string>, target: Option<string>, enabled: Option<bool>, public: Option<bool>,
                                     interval: Option<int>, timeout: Option<int>, settings: Option<Settings>)

  /** The live monitors by id, and the projects each organization has. */
  datatype Store = Store(monitors: map<Uuid, Monitor>, projects: set<(nat, nat)>)

  /** Fixed circumstances of a call. */
  datatype Context = Context(net: Net, limits: nat -> Limits)

  predicate ValidSchedule(interval: int, timeout: int) {
    10 <= interval <= 86400 && 1 <= timeout <= 300 && timeout <= interval
  }

  function GraceOrDefault(requested: int, interval: int): int {
    var g := if requested <= 0 then interval else requested;
    if g < 30 then 30 else g
  }

  predicate VetTarget(net: Net, t: Type, target: string) {
    target == "" || t == Heartbeat || t == GitHubActions || !net.blocked(target)
  }

  function OrDefault(v: int, def: int): int {
    if v == 0 then def else v
  }

  function OfOrg(store: Store, org: nat): set<Uuid> {
    set id | id in store.monitors && store.monitors[id].org == org
  }

  /** The monitor a creation would store. */
  function Built(ctx: Context, store: Store, actor: Actor, inp: CreateInput, id: Uuid, now: nat): Result<Monitor, Error> {
    var interval, timeout := OrDefault(inp.interval, 60), OrDefault(inp.timeout, 10);
    if !actor.canWrite then Err(Forbidden)
    else if (actor.org, inp.project) !in store.projects then Err(Validation)
    else if |OfOrg(store, actor.org)| >= ctx.limits(actor.org).maxMonitors then Err(QuotaExceeded)
    else if !VetTarget(ctx.net, inp.kind, inp.target) then Err(Validation)
    else if !ValidSchedule(interval, timeout) then Err(Validation)
    else if interval < ctx.limits(actor.org).minInterval then Err(QuotaExceeded)
    else if KeepMasked(inp.settings.headers, map[]).None? then Err(Validation)
    else
      var n := Normalize(ctx.net, inp.kind, inp.target, inp.settings);
      if n.Err? then Err(n.error)
      else
        Ok(Monitor(id, actor.org, inp.project, Trim(inp.name), inp.kind, n.value.0,
                   inp.enabled.None? || inp.enabled.value, inp.public.Some? && inp.public.value,
                   interval, timeout, if inp.kind == Heartbeat then GraceOrDefault(inp.grace, interval) else 0,
                   n.value.1, Unknown, now))
  }

  function Created(ctx: Context, store: Store, actor: Actor, inp: CreateInput, id: Uuid, now: nat, fault: bool): (Store, Result<Monitor, Error>) {
    var m := Built(ctx, store, actor, inp, id, now);
    if m.Err? then (store, m)
    else if fault then (store, Err(Internal))
    else (store.(monitors := store.monitors[id := m.value]), m)
  }

  predicate Visible(store: Store, actor: Actor, id: Uuid) {
    id in store.monitors && store.monitors[id].org == actor.org
  }

  /** The target and settings after an update, re-validated together. */
  function Revised(net: Net, m: Monitor, inp: UpdateInput): Result<(string, Settings), Error> {
    if inp.target.None? && inp.settings.None? then Ok((m.target, m.settings))
    else
      var target := if inp.target.Some? then inp.target.value else m.target;
      var kept := if inp.settings.Some? then KeepMasked(inp.settings.value.headers, m.settings.headers) else Some(m.settings.headers);
      if kept.None? then Err(Validation)
      else Normalize(net, m.kind, target, (if inp.settings.Some? then inp.settings.value else m.settings).(headers := kept.value))
  }

  function Amended(ctx: Context, m: Monitor, inp: UpdateInput): Result<Monitor, Error> {
    var interval := if inp.interval.Some? then inp.interval.value else m.interval;
    var timeout := if inp.timeout.Some? then inp.timeout.value else m.timeout;
    if inp.target.Some? && !VetTarget(ctx.net, m.kind, inp.target.value) then Err(Validation)
    else if inp.name.Some? && Trim(inp.name.value) == "" then Err(Validation)
    else if !ValidSchedule(interval, timeout) then Err(Validation)
    else if inp.interval.Some? && interval < ctx.limits(m.org).minInterval then Err(QuotaExceeded)
    else
      var r := Revised(ctx.net, m, inp);
      if r.Err? then Err(r.error)
      else
        Ok(m.(name := if inp.name.Some? then Trim(inp.name.value) else m.name, interval := interval, timeout := timeout,
              enabled := if inp.enabled.Some? then inp.enabled.value else m.enabled,
              public := if inp.public.Some? then inp.public.value else m.public,
              target := r.value.0, settings := r.value.1))
  }

  function Updated(ctx: Context, store: Store, actor: Actor, id: Uuid, inp: UpdateInput, fault: bool): (Store, Result<Monitor, Error>) {
    if !actor.canWrite then (store, Err(Forbidden))
    else if !Visible(store, actor, id) then (store, Err(NotFound))
    else
      var m := Amended(ctx, store.monitors[id], inp);
      if m.Err? then (store, m)
      else if fault then (store, Err(Internal))
      else (store.(monitors := store.monitors[id := m.value]), m)
  }

  function EnabledSet(store: Store, actor: Actor, id: Uuid, enabled: bool): (Store, Result<Monitor, Error>) {
    if !actor.canWrite then (store, Err(Forbidden))
    else if !Visible(store, actor, id) then (store, Err(NotFound))
    else
      var m := store.monitors[id].(enabled := enabled, lastStatus := if enabled then Unknown else Paused);
      (store.(monitors := store.monitors[id := m]), Ok(m))
  }

  function Deleted(store: Store, actor: Actor, id: Uuid, fault: bool): (Store, Result<(), Error>) {
    if !actor.canWrite then (store, Err(Forbidden))
    else if !Visible(store, actor, id) then (store, Err(NotFound))
    else if fault then (store, Err(Internal))
    else (store.(monitors := store.monitors - {id}), Ok(()))
  }

  // ---- what every reachable store satisfies ----

  /** A target in the form its type stores. */
  predicate ReadyTarget(t: Type, target: string) {
    match t
    case HTTP | HTTPS | SSL => target != "" && Tight(target) && Contains(target, "://")
    case TCP | DNS => target != "" && Tight(target)
    case ICMP => target != "" && Tight(target) && !Contains(target, "/")
    case Heartbeat => target == HEARTBEAT_TARGET
    case GitHubActions => var parts := Split(target, '/'); |parts| == 2 && parts[0] != "" && parts[1] != ""
    case Unsupported(_) => false
  }

  /** Settings a probe can be built from without defaults. */
  predicate ReadySettings(t: Type, s: Settings) {
    && s.alertSensitivity in SENSITIVITIES
    && (t in {HTTP, HTTPS, SSL} ==>
          s.httpMethod in HTTP_METHODS && s.validStatusCodes != [] && ValidCodes(s.validStatusCodes) && ValidRequest(s))
    && (t == DNS ==> s.dnsQueryType in DNS_TYPES && s.dnsQueryName != "")
  }

  predicate Sane(m: Monitor) {
    && ValidSchedule(m.interval, m.timeout) && !m.kind.Unsupported? && Tight(m.name)
    && ReadyTarget(m.kind, m.target) && ReadySettings(m.kind, m.settings)
    && (m.kind == Heartbeat ==> m.grace >= 30)
  }

  ghost predicate SaneStore(store: Store) {
    forall id | id in store.monitors :: store.monitors[id].id == id && Sane(store.monitors[id])
  }

  datatype Operation =
    | Create(inp: CreateInput, id: Uuid, now: nat, fault: bool)
    | Update(id: Uuid, change: UpdateInput, fault: bool)
    | SetEnabled(id: Uuid, enabled: bool)
    | Delete(id: Uuid, fault: bool)

  /** A freshly drawn id is not in use. */
  function Performed(ctx: Context, store: Store, actor: Actor, op: Operation): Store {
    match op
    case Create(inp, id, now, fault) => if id in store.monitors then store else Created(ctx, store, actor, inp, id, now, fault).0
    case Update(id, change, fault) => Updated(ctx, store, actor, id, change, fault).0
    case SetEnabled(id, enabled) => EnabledSet(store, actor, id, enabled).0
    case Delete(id, fault) => Deleted(store, actor, id, fault).0
  }

  /** One operation, who asked for it, and the limits and the network of the moment. */
  datatype Call = Call(ctx: Context, actor: Actor, op: Operation)

  function PerformedAll(projects: set<(nat, nat)>, calls: seq<Call>): Store {
    if calls == [] then Store(map[], projects)
    else
      var last := calls[|calls| - 1];
      Performed(last.ctx, PerformedAll(projects, calls[..|calls| - 1]), last.actor, last.op)
  }

  lemma HttpIsReady(net: Net, t: Type, target: string, s: Settings)
    requires t in {HTTP, HTTPS, SSL} && target != "" && Tight(target) && s.alertSensitivity in SENSITIVITIES
    requires ValidateHttp(net, t, target, s).Ok?
    ensures var (target', s') := ValidateHttp(net, t, target, s).value; ReadyTarget(t, target') && ReadySettings(t, s')
  {
    if !Contains(target, "://") {
      SchemeKeepsTight(if t == HTTP then "http://" else "https://", target);
    }
    assert ValidRequest(ValidateHttp(net, t, target, s).value.1);
  }

  lemma RepositoryIsReady(target: string, s: Settings)
    requires ValidateGitHub(target, s).Ok?
    ensures ReadyTarget(GitHubActions, ValidateGitHub(target, s).value.0)
  {
    var parts := Segments(target);
    PairIsClean(parts[0], parts[1]);
  }

  /** What normalization lets through is in the form the probes are built from. */
  lemma NormalizedIsReady(net: Net, t: Type, target: string, s: Settings)
    requires Normalize(net, t, target, s).Ok?
    ensures !t.Unsupported?
    ensures var (target', s') := Normalize(net, t, target, s).value; ReadyTarget(t, target') && ReadySettings(t, s')
  {
    TrimIsTight(target, IsSpace);
    var s1 := s.(alertSensitivity := if s.alertSensitivity == "" then "balanced" else s.alertSensitivity);
    if t in {HTTP, HTTPS, SSL} {
      HttpIsReady(net, t, Trim(target), s1);
    } else if t == GitHubActions {
      RepositoryIsReady(Trim(target), s1);
    }
  }

  /** How a target is stored: without blanks around it, with a scheme if it is a web address, as owner and
      name if it is a repository, and not at all for a heartbeat. */
  predicate StoredTarget(t: Type, given: string, stored: string) {
    match t
    case HTTP | HTTPS | SSL =>
      Trim(given) != ""
      && stored == if Contains(Trim(given), "://") then Trim(given) else (if t == HTTP then "http://" else "https://") + Trim(given)
    case TCP | ICMP | DNS => Trim(given) != "" && stored == Trim(given)
    case GitHubActions => Trim(given) != "" && RepositoryOf(Trim(given)) == Some(stored)
    case Heartbeat => stored == HEARTBEAT_TARGET
    case Unsupported(_) => false
  }

  /** What the network libraries must make of it. */
  predicate Reachable(net: Net, t: Type, target: string) {
    match t
    case HTTP | HTTPS | SSL =>
      var url := net.parseUrl(target); url.Some? && url.value.host != "" && url.value.scheme in {"http", "https"}
    case TCP => var hp := net.splitHostPort(target); hp.Some? && hp.value.0 != "" && hp.value.1 != ""
    case _ => true
  }

  function OrElse(given: string, def: string): string {
    if given == "" then def else given
  }

  /** What is left out is filled in, and no other setting is touched. */
  predicate FilledIn(net: Net, t: Type, target: string, given: Settings, filled: Settings) {
    var s := given.(alertSensitivity := OrElse(given.alertSensitivity, "balanced"));
    match t
    case HTTP | HTTPS | SSL =>
      var secure := t == SSL || (net.parseUrl(target).Some? && net.parseUrl(target).value.scheme == "https");
      filled == s.(httpMethod := Upper(OrElse(given.httpMethod, "GET")),
                   validStatusCodes := if given.validStatusCodes == [] then DEFAULT_CODES else given.validStatusCodes,
                   sslExpiryWarningDays := if secure && given.sslExpiryWarningDays == 0 then 30 else given.sslExpiryWarningDays)
    case DNS => filled == s.(dnsQueryName := OrElse(given.dnsQueryName, target), dnsQueryType := Upper(OrElse(given.dnsQueryType, "A")))
    case GitHubActions => filled == s.(githubWorkflow := Trim(given.githubWorkflow))
    case _ => filled == s
  }

  /** The stored form of an input: in the form of its type, and reachable. */
  predicate InForm(net: Net, t: Type, target: string, s: Settings, target': string, s': Settings) {
    && StoredTarget(t, target, target') && FilledIn(net, t, target', s, s')
    && ReadyTarget(t, target') && ReadySettings(t, s') && Reachable(net, t, target')
  }

  lemma SameRequest(a: Settings, b: Settings)
    requires a.headers == b.headers && a.body == b.body
    ensures ValidRequest(a) == ValidRequest(b)
  {
  }

  lemma HttpInForm(net: Net, t: Type, target: string, s: Settings, target': string, s': Settings)
    requires t in {HTTP, HTTPS, SSL} && Reachable(net, t, target')
    requires target' == if Contains(target, "://") then target else (if t == HTTP then "http://" else "https://") + target
    requires s'.httpMethod == Upper(OrElse(s.httpMethod, "GET")) && s'.httpMethod in HTTP_METHODS && ValidRequest(s)
    requires s'.validStatusCodes == (if s.validStatusCodes == [] then DEFAULT_CODES else s.validStatusCodes) && ValidCodes(s'.validStatusCodes)
    requires s' == s.(httpMethod := s'.httpMethod, validStatusCodes := s'.validStatusCodes, sslExpiryWarningDays :=
                 if (t == SSL || net.parseUrl(target').value.scheme == "https") && s.sslExpiryWarningDays == 0 then 30 else s.sslExpiryWarningDays)
    ensures ValidateHttp(net, t, target, s) == Ok((target', s'))
  {
  }

  lemma WebInForm(net: Net, t: Type, target: string, s: Settings, target': string, s': Settings)
    requires t in {HTTP, HTTPS, SSL} && InForm(net, t, target, s, target', s')
    ensures Normalize(net, t, target, s) == Ok((target', s'))
  {
    var s1 := s.(alertSensitivity := OrElse(s.alertSensitivity, "balanced"));
    SameRequest(s1, s');
    HttpInForm(net, t, Trim(target), s1, target', s');
  }

  lemma OthersInForm(net: Net, t: Type, target: string, s: Settings, target': string, s': Settings)
    requires t !in {HTTP, HTTPS, SSL} && InForm(net, t, target, s, target', s')
    ensures Normalize(net, t, target, s) == Ok((target', s'))
  {
    if t == ICMP {
      NoSchemeWithoutSlash(target');
    }
  }

  lemma NoSchemeWithoutSlash(target: string)
    requires !Contains(target, "/")
    ensures !Contains(target, "://")
  {
    if Contains(target, "://") {
      var i :| 0 <= i <= |target| && HasPrefix(target[i..], "://");
      assert target[i + 1..] == target[i..][1..] && HasPrefix(target[i + 1..], "/");
      assert false;
    }
  }

  lemma FormOfNormal(net: Net, t: Type, target: string, s: Settings)
    requires Normalize(net, t, target, s).Ok?
    ensures var (target', s') := Normalize(net, t, target, s).value;
            StoredTarget(t, target, target') && FilledIn(net, t, target', s, s') && Reachable(net, t, target')
  {
    assert OrElse(s.alertSensitivity, "balanced") in SENSITIVITIES;
    assert t == Heartbeat || Trim(target) != "";
  }

  /** An input is accepted exactly if it has a stored form, and that is what is stored. */
  lemma AcceptedIffInForm(net: Net, t: Type, target: string, s: Settings, target': string, s': Settings)
    ensures Normalize(net, t, target, s) == Ok((target', s')) <==> InForm(net, t, target, s, target', s')
  {
    if Normalize(net, t, target, s).Ok? {
      NormalizedIsReady(net, t, target, s);
      FormOfNormal(net, t, target, s);
    }
    if InForm(net, t, target, s, target', s') {
      if t in {HTTP, HTTPS, SSL} {
        WebInForm(net, t, target, s, target', s');
      } else {
        OthersInForm(net, t, target, s, target', s');
      }
    }
  }

  lemma BuiltIsSane(ctx: Context, store: Store, actor: Actor, inp: CreateInput, id: Uuid, now: nat)
    requires Built(ctx, store, actor, inp, id, now).Ok?
    ensures Sane(Built(ctx, store, actor, inp, id, now).value)
  {
    NormalizedIsReady(ctx.net, inp.kind, inp.target, inp.settings);
    TrimIsTight(inp.name, IsSpace);
  }

  lemma AmendedIsSane(ctx: Context, m: Monitor, change: UpdateInput)
    requires Sane(m) && Amended(ctx, m, change).Ok?
    ensures Sane(Amended(ctx, m, change).value)
  {
    if change.name.Some? {
      TrimIsTight(change.name.value, IsSpace);
    }
    if change.target.Some? || change.settings.Some? {
      var kept := if change.settings.Some? then KeepMasked(change.settings.value.headers, m.settings.headers) else Some(m.settings.headers);
      NormalizedIsReady(ctx.net, m.kind, if change.target.Some? then change.target.value else m.target,
                        (if change.settings.Some? then change.settings.value else m.settings).(headers := kept.value));
    }
  }

  lemma StoredIsSane(store: Store, m: Monitor)
    requires SaneStore(store) && Sane(m)
    ensures SaneStore(store.(monitors := store.monitors[m.id := m]))
  {
  }

  lemma CreationIsSane(ctx: Context, store: Store, actor: Actor, inp: CreateInput, id: Uuid, now: nat, fault: bool)
    requires SaneStore(store)
    ensures SaneStore(Created(ctx, store, actor, inp, id, now, fault).0)
  {
    var m := Built(ctx, store, actor, inp, id, now);
    if m.Ok? {
      BuiltIsSane(ctx, store, actor, inp, id, now);
      StoredIsSane(store, m.value);
    }
  }

  lemma UpdateIsSane(ctx: Context, store: Store, actor: Actor, id: Uuid, change: UpdateInput, fault: bool)
    requires SaneStore(store)
    ensures SaneStore(Updated(ctx, store, actor, id, change, fault).0)
  {
    if Visible(store, actor, id) && Amended(ctx, store.monitors[id], change).Ok? {
      AmendedIsSane(ctx, store.monitors[id], change);
      StoredIsSane(store, Amended(ctx, store.monitors[id], change).value);
    }
  }

  lemma PerformedIsSane(ctx: Context, store: Store, actor: Actor, op: Operation)
    requires SaneStore(store)
    ensures SaneStore(Performed(ctx, store, actor, op))
  {
    match op
    case Create(inp, id, now, fault) => CreationIsSane(ctx, store, actor, inp, id, now, fault);
    case Update(id, change, fault) => UpdateIsSane(ctx, store, actor, id, change, fault);
    case SetEnabled(_, _) =>
    case Delete(_, _) =>
  }

  /** Whatever is created, changed, paused and deleted, and however plans and addresses change
      meanwhile, every stored monitor has a supported type, a valid schedule and a trimmed name. */
  lemma {:induction false} ReachableStoresAreSane(projects: set<(nat, nat)>, calls: seq<Call>)
    ensures SaneStore(PerformedAll(projects, calls))
  {
    if calls != [] {
      var last := calls[|calls| - 1];
      ReachableStoresAreSane(projects, calls[..|calls| - 1]);
      PerformedIsSane(last.ctx, PerformedAll(projects, calls[..|calls| - 1]), last.actor, last.op);
    }
  }

  // ---- what an operation does, field by field ----

  /** Nothing but, at most, this monitor differs. */
  ghost predicate OnlyAt(store: Store, store': Store, id: Uuid) {
    && store'.projects == store.projects
    && forall other | other != id ::
         (other in store'.monitors <==> other in store.monitors)
         && (other in store.monitors ==> store'.monitors[other] == store.monitors[other])
  }

  /** A pause or a resumption sets the flag and the status that goes with it, and nothing else. */
  lemma SetEnabledSetsTheFlag(store: Store, actor: Actor, id: Uuid, enabled: bool)
    ensures var (store', r) := EnabledSet(store, actor, id, enabled);
            && OnlyAt(store, store', id)
            && (r.Ok? <==> actor.canWrite && id in store.monitors && store.monitors[id].org == actor.org)
            && (r.Err? ==> store' == store)
            && (r.Ok? ==>
                  && id in store'.monitors && store'.monitors[id].enabled == enabled
                  && store'.monitors[id].lastStatus == (if enabled then Unknown else Paused)
                  && store'.monitors[id] == store.monitors[id].(enabled := enabled, lastStatus := store'.monitors[id].lastStatus))
  {
  }

  lemma DeleteRemoves(store: Store, actor: Actor, id: Uuid, fault: bool)
    ensures var (store', r) := Deleted(store, actor, id, fault);
            && OnlyAt(store, store', id)
            && (r.Ok? <==> actor.canWrite && id in store.monitors && store.monitors[id].org == actor.org && !fault)
            && (r.Err? ==> store' == store) && (r.Ok? ==> id !in store'.monitors)
  {
  }

  /** The settings asked for, their masked headers read as what was saved, are normalized together with
      the target. */
  predicate NormalOf(net: Net, t: Type, target: string, settings: Settings, saved: map<string, string>, m: Monitor) {
    var kept := KeepMasked(settings.headers, saved);
    kept.Some? && Normalize(net, t, target, settings.(headers := kept.value)) == Ok((m.target, m.settings))
  }

  /** Every ten seconds to once a day, with up to five minutes to answer, and never longer than the time
      between two probes. */
  predicate InTime(interval: int, timeout: int) {
    interval >= 10 && interval <= 86400 && timeout >= 1 && timeout <= 300 && interval >= timeout
  }

  /** A probe is never pointed at a blocked address; what is not probed has none. */
  predicate Harmless(net: Net, t: Type, target: string) {
    net.blocked(target) ==> target == "" || t in {Heartbeat, GitHubActions}
  }

  predicate HasNormalForm(net: Net, t: Type, target: string, settings: Settings, saved: map<string, string>) {
    var kept := KeepMasked(settings.headers, saved);
    kept.Some? && Normalize(net, t, target, settings.(headers := kept.value)).Ok?
  }

  predicate MayUpdate(ctx: Context, m: Monitor, inp: UpdateInput) {
    && (inp.target.Some? ==> Harmless(ctx.net, m.kind, inp.target.value))
    && (inp.name.Some? ==> Trim(inp.name.value) != "")
    && InTime(inp.interval.Or(m.interval), inp.timeout.Or(m.timeout))
    && (inp.interval.Some? ==> inp.interval.value >= ctx.limits(m.org).minInterval)
    && (inp.target.Some? || inp.settings.Some? ==>
          HasNormalForm(ctx.net, m.kind, inp.target.Or(m.target), inp.settings.Or(m.settings), m.settings.headers))
  }

  predicate MayCreate(ctx: Context, store: Store, actor: Actor, inp: CreateInput) {
    var interval, timeout := if inp.interval == 0 then 60 else inp.interval, if inp.timeout == 0 then 10 else inp.timeout;
    && actor.canWrite && (actor.org, inp.project) in store.projects
    && |OfOrg(store, actor.org)| < ctx.limits(actor.org).maxMonitors
    && Harmless(ctx.net, inp.kind, inp.target)
    && InTime(interval, timeout) && interval >= ctx.limits(actor.org).minInterval
    && HasNormalForm(ctx.net, inp.kind, inp.target, inp.settings, map[])
  }

  lemma AmendedIffAllowed(ctx: Context, m: Monitor, inp: UpdateInput)
    ensures Amended(ctx, m, inp).Ok? <==> MayUpdate(ctx, m, inp)
  {
    if inp.settings.None? {
      SavedHeadersStand(m.settings.headers);
    }
  }

  /** An update or a creation goes through exactly when it may, and the write does not fail. */
  lemma UpdatedIffAllowed(ctx: Context, store: Store, actor: Actor, id: Uuid, inp: UpdateInput, fault: bool)
    ensures Updated(ctx, store, actor, id, inp, fault).1.Ok? <==>
              && actor.canWrite && id in store.monitors && store.monitors[id].org == actor.org
              && MayUpdate(ctx, store.monitors[id], inp) && !fault
  {
    if id in store.monitors {
      AmendedIffAllowed(ctx, store.monitors[id], inp);
    }
  }

  lemma CreatedIffAllowed(ctx: Context, store: Store, actor: Actor, inp: CreateInput, id: Uuid, now: nat, fault: bool)
    ensures Created(ctx, store, actor, inp, id, now, fault).1.Ok? <==> MayCreate(ctx, store, actor, inp) && !fault
  {
    BuiltIffAllowed(ctx, store, actor, inp, id, now);
  }

  lemma BuiltIffAllowed(ctx: Context, store: Store, actor: Actor, inp: CreateInput, id: Uuid, now: nat)
    ensures Built(ctx, store, actor, inp, id, now).Ok? <==> MayCreate(ctx, store, actor, inp)
  {
    NormalWithoutMasks(ctx.net, inp.kind, inp.target, inp.settings);
  }

  /** Where nothing is saved there is nothing a mask could stand for. */
  lemma NormalWithoutMasks(net: Net, t: Type, target: string, settings: Settings)
    ensures HasNormalForm(net, t, target, settings, map[]) <==>
              KeepMasked(settings.headers, map[]).Some? && Normalize(net, t, target, settings).Ok?
  {
    if KeepMasked(settings.headers, map[]).Some? {
      NoMasksKept(settings.headers, map[]);
      assert settings.(headers := settings.headers) == settings;
    }
  }

  /** An update gives the fields it names the values it names and leaves the rest; an organization's plan
      limits the interval, and only one that is asked for. */
  lemma UpdateChangesWhatItNames(ctx: Context, store: Store, actor: Actor, id: Uuid, inp: UpdateInput, fault: bool)
    ensures var (store', r) := Updated(ctx, store, actor, id, inp, fault);
            && OnlyAt(store, store', id)
            && (r.Err? ==> store' == store)
            && (r.Ok? ==>
                  && actor.canWrite && id in store.monitors && store.monitors[id].org == actor.org
                  && id in store'.monitors
                  && var (m, m') := (store.monitors[id], store'.monitors[id]);
                  && r.value == m'
                  && m' == m.(name := m'.name, interval := m'.interval, timeout := m'.timeout, enabled := m'.enabled,
                              public := m'.public, target := m'.target, settings := m'.settings)
                  && m'.name == (if inp.name.Some? then Trim(inp.name.value) else m.name)
                  && m'.interval == inp.interval.Or(m.interval) && m'.timeout == inp.timeout.Or(m.timeout)
                  && m'.enabled == inp.enabled.Or(m.enabled) && m'.public == inp.public.Or(m.public)
                  && (inp.name.Some? ==> m'.name != "")
                  && (inp.interval.Some? ==> m'.interval >= ctx.limits(m.org).minInterval)
                  && if inp.target.None? && inp.settings.None? then m'.target == m.target && m'.settings == m.settings
                     else NormalOf(ctx.net, m.kind, inp.target.Or(m.target), inp.settings.Or(m.settings), m.settings.headers, m'))
  {
    if actor.canWrite && Visible(store, actor, id) && Amended(ctx, store.monitors[id], inp).Ok? {
      RevisedIsNormal(ctx.net, store.monitors[id], inp);
    }
  }

  lemma RevisedIsNormal(net: Net, m: Monitor, inp: UpdateInput)
    requires Revised(net, m, inp).Ok?
    ensures var (target, settings) := Revised(net, m, inp).value;
            if inp.target.None? && inp.settings.None? then target == m.target && settings == m.settings
            else NormalOf(net, m.kind, inp.target.Or(m.target), inp.settings.Or(m.settings), m.settings.headers,
                          m.(target := target, settings := settings))
  {
    if inp.settings.None? {
      SavedHeadersStand(m.settings.headers);
    }
  }

  lemma SavedHeadersStand(headers: map<string, string>)
    ensures KeepMasked(headers, headers) == Some(headers)
  {
    assert (map n | n in headers :: Unmasked(headers, n, headers[n])) == headers;
  }

  /** What Create stores: as asked, enabled and private unless said otherwise, every minute with ten
      seconds to answer unless said otherwise; within the plan, in a project of the organization. */
  lemma CreateStoresWhatIsAsked(ctx: Context, store: Store, actor: Actor, inp: CreateInput, id: Uuid, now: nat, fault: bool)
    ensures var (store', r) := Created(ctx, store, actor, inp, id, now, fault);
            && OnlyAt(store, store', id) && (r.Err? ==> store' == store)
            && (r.Ok? ==>
                  && actor.canWrite && (actor.org, inp.project) in store.projects
                  && |OfOrg(store, actor.org)| < ctx.limits(actor.org).maxMonitors
                  && id in store'.monitors
                  && var m := store'.monitors[id];
                  && r.value == m
                  && m.id == id && m.org == actor.org && m.project == inp.project && m.createdAt == now && m.lastStatus == Unknown
                  && m.name == Trim(inp.name) && m.kind == inp.kind
                  && m.enabled == inp.enabled.Or(true) && m.public == inp.public.Or(false)
                  && m.interval == (if inp.interval == 0 then 60 else inp.interval)
                  && m.timeout == (if inp.timeout == 0 then 10 else inp.timeout)
                  && m.interval >= ctx.limits(actor.org).minInterval
                  && (m.kind == Heartbeat ==>
                        var grace := if inp.grace > 0 then inp.grace else m.interval;
                        m.grace >= 30 && m.grace >= grace && (m.grace == grace || m.grace == 30))
                  && NormalOf(ctx.net, inp.kind, inp.target, inp.settings, map[], m))
  {
    if KeepMasked(inp.settings.headers, map[]).Some? {
      NoMasksKept(inp.settings.headers, map[]);
      assert inp.settings.(headers := inp.settings.headers) == inp.settings;
    }
  }

  // ---- plans over all runs ----

  /** No call touches another organization's monitors, a reader's call touches none, and a call of any
      kind touches at most the one it names. */
  lemma CallsStayWithinTheirOrganization(call: Call, store: Store)
    ensures var store' := Performed(call.ctx, store, call.actor, call.op);
            && OnlyAt(store, store', call.op.id) && (!call.actor.canWrite ==> store' == store)
            && (forall id | id in store.monitors && store.monitors[id].org != call.actor.org ::
                  id in store'.monitors && store'.monitors[id] == store.monitors[id])
            && (forall id | id in store'.monitors && store'.monitors[id].org != call.actor.org :: id in store.monitors)
  {
    match call.op
    case Create(inp, id, now, fault) => CreateStoresWhatIsAsked(call.ctx, store, call.actor, inp, id, now, fault);
    case Update(id, change, fault) => UpdateChangesWhatItNames(call.ctx, store, call.actor, id, change, fault);
    case SetEnabled(id, enabled) => SetEnabledSetsTheFlag(store, call.actor, id, enabled);
    case Delete(id, fault) => DeleteRemoves(store, call.actor, id, fault);
  }

  lemma QuotaStep(call: Call, store: Store, org: nat, most: nat)
    requires call.ctx.limits(org).maxMonitors <= most && |OfOrg(store, org)| <= most
    ensures |OfOrg(Performed(call.ctx, store, call.actor, call.op), org)| <= most
  {
    var store' := Performed(call.ctx, store, call.actor, call.op);
    CallsStayWithinTheirOrganization(call, store);
    var before, after := OfOrg(store, org), OfOrg(store', org);
    if call.op.Create? && call.actor.org == org && store' != store {
      CreateStoresWhatIsAsked(call.ctx, store, call.actor, call.op.inp, call.op.id, call.op.now, call.op.fault);
      assert after <= before + {call.op.id};
      SubsetSize(after, before + {call.op.id});
    } else {
      assert after <= before by {
        OthersAddNothing(call, store, org);
      }
      SubsetSize(after, before);
    }
  }

  lemma OthersAddNothing(call: Call, store: Store, org: nat)
    requires !(call.op.Create? && call.actor.org == org && Performed(call.ctx, store, call.actor, call.op) != store)
    ensures OfOrg(Performed(call.ctx, store, call.actor, call.op), org) <= OfOrg(store, org)
  {
  }

  /** If no plan ever allowed an organization more than so many monitors, it never has more. */
  lemma {:induction false} TheQuotaHolds(projects: set<(nat, nat)>, calls: seq<Call>, org: nat, most: nat)
    requires forall c | c in calls :: c.ctx.limits(org).maxMonitors <= most
    ensures |OfOrg(PerformedAll(projects, calls), org)| <= most
  {
    if calls == [] {
      assert OfOrg(PerformedAll(projects, calls), org) == {};
    } else {
      var earlier, last := calls[..|calls| - 1], calls[|calls| - 1];
      assert last in calls && forall c | c in earlier :: c in calls;
      TheQuotaHolds(projects, earlier, org, most);
      QuotaStep(last, PerformedAll(projects, earlier), org, most);
    }
  }

  ghost predicate NoFasterThan(store: Store, org: nat, least: int) {
    forall id | id in store.monitors && store.monitors[id].org == org :: store.monitors[id].interval >= least
  }

  lemma PaceStep(call: Call, store: Store, org: nat, least: int)
    requires call.ctx.limits(org).minInterval >= least && NoFasterThan(store, org, least)
    ensures NoFasterThan(Performed(call.ctx, store, call.actor, call.op), org, least)
  {
    CallsStayWithinTheirOrganization(call, store);
    match call.op
    case Create(inp, id, now, fault) => CreateStoresWhatIsAsked(call.ctx, store, call.actor, inp, id, now, fault);
    case Update(id, change, fault) => UpdateChangesWhatItNames(call.ctx, store, call.actor, id, change, fault);
    case SetEnabled(_, _) =>
    case Delete(_, _) =>
  }

  /** If its plan always asked for at least so many seconds between probes, it has none more often. */
  lemma {:induction false} TheFloorHolds(projects: set<(nat, nat)>, calls: seq<Call>, org: nat, least: int)
    requires forall c | c in calls :: c.ctx.limits(org).minInterval >= least
    ensures NoFasterThan(PerformedAll(projects, calls), org, least)
  {
    if calls != [] {
      var earlier, last := calls[..|calls| - 1], calls[|calls| - 1];
      assert last in calls && forall c | c in earlier :: c in calls;
      TheFloorHolds(projects, earlier, org, least);
      PaceStep(last, PerformedAll(projects, earlier), org, least);
    }
  }

  // ---- listing ----

  /** Any limit outside 1..200 becomes 50. */
  function NormalizedLimit(limit: int): nat {
    if limit <= 0 || limit > 200 then 50 else limit
  }

  function InProject(store: Store, org: nat, project: nat): set<Uuid> {
    set id | id in store.monitors && store.monitors[id].org == org && store.monitors[id].project == project
  }

  /** A first page of a project's monitors: the newest ones, newest first; how creation times that
      tie are ordered is the database's choice. */
  ghost predicate IsPage(store: Store, org: nat, project: nat, limit: nat, page: seq<Monitor>) {
    && (forall i | 0 <= i < |page| :: page[i].id in InProject(store, org, project) && store.monitors[page[i].id] == page[i])
    && (forall i, j | 0 <= i < j < |page| :: page[i].id != page[j].id && page[i].createdAt >= page[j].createdAt)
    && |page| <= limit
    && (|page| < limit ==> forall id | id in InProject(store, org, project) :: OnPage(page, id))
    && (forall id, i | id in InProject(store, org, project) && !OnPage(page, id) && 0 <= i < |page| ::
          store.monitors[id].createdAt <= page[i].createdAt)
  }

  predicate OnPage(page: seq<Monitor>, id: Uuid) {
    exists i | 0 <= i < |page| :: page[i].id == id
  }

  lemma OnPageSnoc(page: seq<Monitor>, m: Monitor, id: Uuid)
    ensures OnPage(page + [m], id) <==> OnPage(page, id) || id == m.id
  {
    if OnPage(page, id) {
      var i :| 0 <= i < |page| && page[i].id == id;
      assert (page + [m])[i].id == id;
    }
    assert (page + [m])[|page|] == m;
  }

  /** The newest monitors come first; `rest` are those of the project that are not on the page yet. */
  ghost predicate IsPageBut(store: Store, org: nat, project: nat, rest: set<Uuid>, page: seq<Monitor>) {
    && rest <= InProject(store, org, project)
    && (forall i | 0 <= i < |page| ::
          page[i].id in InProject(store, org, project) && page[i].id !in rest && store.monitors[page[i].id] == page[i])
    && (forall i, j | 0 <= i < j < |page| :: page[i].id != page[j].id && page[i].createdAt >= page[j].createdAt)
    && (forall id | id in InProject(store, org, project) :: id in rest || OnPage(page, id))
    && (forall id, i | id in rest && 0 <= i < |page| :: store.monitors[id].createdAt <= page[i].createdAt)
  }

  lemma NewestComesNext(store: Store, org: nat, project: nat, rest: set<Uuid>, page: seq<Monitor>, newest: Uuid)
    requires IsPageBut(store, org, project, rest, page) && newest in rest && store.monitors[newest].id == newest
    requires forall id | id in rest :: store.monitors[id].createdAt <= store.monitors[newest].createdAt
    ensures IsPageBut(store, org, project, rest - {newest}, page + [store.monitors[newest]])
  {
    forall id | id in InProject(store, org, project)
      ensures id in rest - {newest} || OnPage(page + [store.monitors[newest]], id)
    {
      OnPageSnoc(page, store.monitors[newest], id);
    }
  }

  function IdsOf(page: seq<Monitor>): set<Uuid> {
    set m | m in page :: m.id
  }

  lemma {:induction false} IdsCount(page: seq<Monitor>)
    requires forall i, j | 0 <= i < j < |page| :: page[i].id != page[j].id
    ensures |IdsOf(page)| == |page|
  {
    if page != [] {
      var rest, last := page[..|page| - 1], page[|page| - 1];
      IdsCount(rest);
      assert page == rest + [last];
      assert IdsOf(page) == IdsOf(rest) + {last.id};
      assert last.id !in IdsOf(rest);
    }
  }

  /** A page of what was asked for: monitors of that project of that organization as they are stored, as
      many as asked for up to 200 and otherwise 50, and left out only where the page is full of others
      that are no older. */
  lemma PageIsOfTheProject(store: Store, org: nat, project: nat, requested: int, page: seq<Monitor>, id: Uuid)
    requires IsPage(store, org, project, NormalizedLimit(requested), page)
    ensures forall i | 0 <= i < |page| ::
              && page[i].id in store.monitors && store.monitors[page[i].id] == page[i]
              && store.monitors[page[i].id].org == org && store.monitors[page[i].id].project == project
    ensures var most := if 1 <= requested <= 200 then requested else 50;
            && |page| <= most
            && (id in store.monitors && store.monitors[id].org == org && store.monitors[id].project == project && !OnPage(page, id) ==>
                  |page| == most && forall i | 0 <= i < |page| :: page[i].createdAt >= store.monitors[id].createdAt)
  {
    if id in store.monitors && store.monitors[id].org == org && store.monitors[id].project == project {
      assert id in InProject(store, org, project);
    }
  }

  /** A project that fits on the page is listed completely. */
  lemma SmallProjectIsListedWhole(store: Store, org: nat, project: nat, limit: nat, page: seq<Monitor>)
    requires IsPage(store, org, project, limit, page)
    requires |InProject(store, org, project)| <= limit
    ensures forall id | id in InProject(store, org, project) :: OnPage(page, id)
  {
    IdsCount(page);
    forall id | id in InProject(store, org, project) ensures OnPage(page, id) {
      if !OnPage(page, id) {
        assert id !in IdsOf(page);
        assert IdsOf(page) <= InProject(store, org, project) - {id};
        SubsetSize(IdsOf(page), InProject(store, org, project) - {id});
      }
    }
  }

  // ---- the service ----

  class Service {
    const ctx: Context
    var monitors: map<Uuid, Monitor>
    var projects: set<(nat, nat)>

    function State(): Store
      reads this
    {
      Store(monitors, projects)
    }

    constructor (ctx: Context, store: Store)
      ensures State() == store && this.ctx == ctx
    {
      this.ctx := ctx;
      monitors, projects := store.monitors, store.projects;
    }

    method CountByOrg(org: nat) returns (n: nat)
      ensures n == |OfOrg(State(), org)|
    {
      var counted: set<Uuid> := {};
      var todo := monitors.Keys;
      n := 0;
      while todo != {}
        invariant todo <= monitors.Keys && counted == OfOrg(State(), org) - todo && n == |counted|
        decreases todo
      {
        var id :| id in todo;
        todo := todo - {id};
        if monitors[id].org == org {
          counted := counted + {id};
          n := n + 1;
        }
      }
    }

    method Create(actor: Actor, inp: CreateInput, id: Uuid, now: nat, fault: bool) returns (r: Result<Monitor, Error>)
      requires id !in monitors
      modifies this
      ensures (State(), r) == Created(ctx, old(State()), actor, inp, id, now, fault)
    {
      if !actor.canWrite {
        return Err(Forbidden);
      }
      if (actor.org, inp.project) !in projects {
        return Err(Validation);
      }
      var count := CountByOrg(actor.org);
      if count >= ctx.limits(actor.org).maxMonitors {
        return Err(QuotaExceeded);
      }
      if !VetTarget(ctx.net, inp.kind, inp.target) {
        return Err(Validation);
      }
      var interval := OrDefault(inp.interval, 60);
      var timeout := OrDefault(inp.timeout, 10);
      if !ValidSchedule(interval, timeout) {
        return Err(Validation);
      }
      if interval < ctx.limits(actor.org).minInterval {
        return Err(QuotaExceeded);
      }
      if KeepMasked(inp.settings.headers, map[]).None? {
        return Err(Validation);
      }
      var n := Normalize(ctx.net, inp.kind, inp.target, inp.settings);
      if n.Err? {
        return Err(n.error);
      }
      var enabled := true;
      if inp.enabled.Some? {
        enabled := inp.enabled.value;
      }
      var public := false;
      if inp.public.Some? {
        public := inp.public.value;
      }
      var m := Monitor(id, actor.org, inp.project, Trim(inp.name), inp.kind, n.value.0, enabled, public, interval, timeout, 0,
                       n.value.1, Unknown, now);
      if inp.kind == Heartbeat {
        m := m.(grace := GraceOrDefault(inp.grace, interval));
      }
      if fault {
        return Err(Internal);
      }
      monitors := monitors[id := m];
      return Ok(m);
    }

    /** The given fields are merged into what is stored, and the whole is validated again. */
    method Amend(stored: Monitor, inp: UpdateInput) returns (r: Result<Monitor, Error>)
      ensures r == Amended(ctx, stored, inp)
    {
      var name, interval, timeout := stored.name, stored.interval, stored.timeout;
      var enabled, public := stored.enabled, stored.public;
      if inp.target.Some? && !VetTarget(ctx.net, stored.kind, inp.target.value) {
        return Err(Validation);
      }
      if inp.name.Some? {
        if Trim(inp.name.value) == "" {
          return Err(Validation);
        }
        name := Trim(inp.name.value);
      }
      if inp.interval.Some? {
        interval := inp.interval.value;
      }
      if inp.timeout.Some? {
        timeout := inp.timeout.value;
      }
      if !ValidSchedule(interval, timeout) {
        return Err(Validation);
      }
      if inp.interval.Some? && interval < ctx.limits(stored.org).minInterval {
        return Err(QuotaExceeded);
      }
      if inp.enabled.Some? {
        enabled := inp.enabled.value;
      }
      if inp.public.Some? {
        public := inp.public.value;
      }
      var revised := Revised(ctx.net, stored, inp);
      if revised.Err? {
        return Err(revised.error);
      }
      return Ok(stored.(name := name, interval := interval, timeout := timeout, enabled := enabled, public := public,
                        target := revised.value.0, settings := revised.value.1));
    }

    method Update(actor: Actor, id: Uuid, inp: UpdateInput, fault: bool) returns (r: Result<Monitor, Error>)
      modifies this
      ensures (State(), r) == Updated(ctx, old(State()), actor, id, inp, fault)
    {
      if !actor.canWrite {
        return Err(Forbidden);
      }
      if id !in monitors || monitors[id].org != actor.org {
        return Err(NotFound);
      }
      var amended := Amend(monitors[id], inp);
      if amended.Err? {
        return amended;
      }
      if fault {
        return Err(Internal);
      }
      monitors := monitors[id := amended.value];
      return amended;
    }

    method SetEnabled(actor: Actor, id: Uuid, enabled: bool) returns (r: Result<Monitor, Error>)
      modifies this
      ensures (State(), r) == EnabledSet(old(State()), actor, id, enabled)
    {
      if !actor.canWrite {
        return Err(Forbidden);
      }
      if id !in monitors || monitors[id].org != actor.org {
        return Err(NotFound);
      }
      monitors := monitors[id := monitors[id].(enabled := enabled, lastStatus := if enabled then Unknown else Paused)];
      return Ok(monitors[id]);
    }

    method Delete(actor: Actor, id: Uuid, fault: bool) returns (r: Result<(), Error>)
      modifies this
      ensures (State(), r) == Deleted(old(State()), actor, id, fault)
    {
      if !actor.canWrite {
        return Err(Forbidden);
      }
      if id !in monitors || monitors[id].org != actor.org {
        return Err(NotFound);
      }
      if fault {
        return Err(Internal);
      }
      monitors := monitors - {id};
      return Ok(());
    }

    method List(org: nat, project: nat, requested: int) returns (page: seq<Monitor>)
      requires forall id | id in monitors :: monitors[id].id == id
      ensures IsPage(State(), org, project, NormalizedLimit(requested), page)
    {
      var limit := NormalizedLimit(requested);
      var rest := InProject(State(), org, project);
      page := [];
      while |page| < limit && rest != {}
        invariant |page| <= limit && IsPageBut(State(), org, project, rest, page)
        decreases rest
      {
        var newest := Newest(rest);
        NewestComesNext(State(), org, project, rest, page, newest);
        page := page + [monitors[newest]];
        rest := rest - {newest};
      }
    }

    method Newest(ids: set<Uuid>) returns (newest: Uuid)
      requires ids != {} && ids <= monitors.Keys
      ensures newest in ids && forall id | id in ids :: monitors[id].createdAt <= monitors[newest].createdAt
    {
      newest :| newest in ids;
      var todo := ids - {newest};
      while todo != {}
        invariant todo <= ids && newest in ids
        invariant forall id | id in ids - todo :: monitors[id].createdAt <= monitors[newest].createdAt
        decreases todo
      {
        var id :| id in todo;
        todo := todo - {id};
        if monitors[id].createdAt > monitors[newest].createdAt {
          newest := id;
        }
      }
    }
  }
}
