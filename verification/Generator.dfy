/**
 From monitors to the configuration of the prober, the scraper and the alerting rules. The three
 documents are kept typed: how they are printed, the quoting of patterns and the text of queries
 and annotations are left to other packages.
 */
module Generator {
  import opened Text
  import opened Monitors
  import opened PlanCap
  import opened Sets
  import opened Wrappers

  datatype Config = Config(blackboxAddr: string, dnsResolver: string)

  datatype Probe =
    | Http(verb: string, codes: seq<int>, follow: bool, headers: map<string, string>, body: string,
           mustMatch: Option<string>, mustNotMatch: Option<string>, insecure: bool)
    | Tcp
    | Icmp
    | Dns(name: string, record: string)

  datatype Module = Module(timeout: int, probe: Probe)

  datatype Labels = Labels(org: nat, project: nat, monitor: string, kind: Type)

  datatype Scrape = Scrape(job: string, interval: int, timeout: int, moduleName: string, probeTarget: string, via: string,
                           labels: Labels, monitorName: string, instance: string)

  datatype Condition =
    | SilentLongerThan(seconds: int)
    | ProbeFails
    | CertificateExpiresWithin(days: int)
    | SlowerThan(ms: int)

  datatype Rule = Rule(alert: string, condition: Condition, dwell: int, severity: string, labels: Labels)

  datatype Artifacts = Artifacts(modules: map<string, Module>, scrapes: seq<Scrape>, rules: seq<Rule>)

  // ---- ids as text ----

  function HexDigit(n: nat): char
    requires n < 16
  {
    "0123456789abcdef"[n]
  }

  function Hex(ds: seq<nat>): (r: string)
    requires forall i | 0 <= i < |ds| :: ds[i] < 16
    ensures |r| == |ds| && forall i | 0 <= i < |ds| :: r[i] == HexDigit(ds[i])
  {
    seq(|ds|, i requires 0 <= i < |ds| => HexDigit(ds[i]))
  }

  /** The text form of section 4 of RFC 9562. */
  function UuidText(id: Uuid): string {
    Hex(id[..8]) + "-" + Hex(id[8..12]) + "-" + Hex(id[12..16]) + "-" + Hex(id[16..20]) + "-" + Hex(id[20..])
  }

  function SanitizeId(text: string): string {
    if text == "" then ""
    else if text[0] == '-' then SanitizeId(text[1..])
    else [text[0]] + SanitizeId(text[1..])
  }

  lemma {:induction false} SanitizeConcat(a: string, b: string)
    ensures SanitizeId(a + b) == SanitizeId(a) + SanitizeId(b)
  {
    if a == "" {
      assert a + b == b;
    } else {
      assert (a + b)[1..] == a[1..] + b;
      SanitizeConcat(a[1..], b);
    }
  }

  lemma {:induction false} SanitizeHex(ds: seq<nat>)
    requires forall i | 0 <= i < |ds| :: ds[i] < 16
    ensures SanitizeId(Hex(ds)) == Hex(ds)
  {
    if ds != [] {
      assert Hex(ds)[1..] == Hex(ds[1..]);
      SanitizeHex(ds[1..]);
      assert Hex(ds) == [HexDigit(ds[0])] + Hex(ds[1..]);
    }
  }

  lemma SanitizeGroup(ds: seq<nat>, rest: string)
    requires forall i | 0 <= i < |ds| :: ds[i] < 16
    ensures SanitizeId(Hex(ds) + "-" + rest) == Hex(ds) + SanitizeId(rest)
  {
    SanitizeHex(ds);
    SanitizeConcat(Hex(ds) + "-", rest);
    SanitizeConcat(Hex(ds), "-");
    SanitizeDash();
  }

  lemma SanitizeDash()
    ensures SanitizeId("-") == ""
  {
  }

  /** Dropping the dashes leaves the 32 digits. */
  lemma SanitizedUuid(id: Uuid)
    ensures SanitizeId(UuidText(id)) == Hex(id)
  {
    SanitizedGroups(id[..8], id[8..12], id[12..16], id[16..20], id[20..]);
    HexJoins(id[..8], id[8..12], id[12..16], id[16..20], id[20..]);
    assert id == id[..8] + id[8..12] + id[12..16] + id[16..20] + id[20..];
  }

  predicate AreDigits(ds: seq<nat>) {
    forall i | 0 <= i < |ds| :: ds[i] < 16
  }

  lemma HexJoins(a: seq<nat>, b: seq<nat>, c: seq<nat>, d: seq<nat>, e: seq<nat>)
    requires AreDigits(a) && AreDigits(b) && AreDigits(c) && AreDigits(d) && AreDigits(e)
    ensures AreDigits(a + b + c + d + e) && Hex(a) + (Hex(b) + (Hex(c) + (Hex(d) + Hex(e)))) == Hex(a + b + c + d + e)
  {
  }

  lemma SanitizedGroups(a: seq<nat>, b: seq<nat>, c: seq<nat>, d: seq<nat>, e: seq<nat>)
    requires AreDigits(a) && AreDigits(b) && AreDigits(c) && AreDigits(d) && AreDigits(e)
    ensures SanitizeId(Hex(a) + "-" + Hex(b) + "-" + Hex(c) + "-" + Hex(d) + "-" + Hex(e))
         == Hex(a) + (Hex(b) + (Hex(c) + (Hex(d) + Hex(e))))
  {
    var tail2 := Hex(c) + "-" + (Hex(d) + "-" + Hex(e));
    var tail1 := Hex(b) + "-" + tail2;
    SanitizedTail(c, d, e);
    SanitizeGroup(b, tail2);
    SanitizeGroup(a, tail1);
    Regrouped(Hex(a), Hex(b), Hex(c), Hex(d), Hex(e));
  }

  lemma Regrouped(a: string, b: string, c: string, d: string, e: string)
    ensures a + "-" + b + "-" + c + "-" + d + "-" + e == a + "-" + (b + "-" + (c + "-" + (d + "-" + e)))
  {
  }

  lemma SanitizedTail(c: seq<nat>, d: seq<nat>, e: seq<nat>)
    requires AreDigits(c) && AreDigits(d) && AreDigits(e)
    ensures SanitizeId(Hex(c) + "-" + (Hex(d) + "-" + Hex(e))) == Hex(c) + (Hex(d) + Hex(e))
  {
    SanitizeGroup(c, Hex(d) + "-" + Hex(e));
    SanitizeGroup(d, Hex(e));
    SanitizeHex(e);
  }

  lemma HexInjective(a: Uuid, b: Uuid)
    requires Hex(a) == Hex(b)
    ensures a == b
  {
    forall i | 0 <= i < 32 ensures a[i] == b[i] {
      assert Hex(a)[i] == Hex(b)[i];
      DigitInjective(a[i], b[i]);
    }
  }

  lemma DigitInjective(m: nat, n: nat)
    requires m < 16 && n < 16 && HexDigit(m) == HexDigit(n)
    ensures m == n
  {
    assert HexDigit(m) as int == if m < 10 then 48 + m else 87 + m;
    assert HexDigit(n) as int == if n < 10 then 48 + n else 87 + n;
  }

  /** Different monitors get different names, with the dashes and without. */
  lemma NamesAreInjective(prefix: string, a: Uuid, b: Uuid)
    ensures prefix + SanitizeId(UuidText(a)) == prefix + SanitizeId(UuidText(b)) ==> a == b
    ensures UuidText(a) == UuidText(b) ==> a == b
  {
    var x, y := SanitizeId(UuidText(a)), SanitizeId(UuidText(b));
    assert (prefix + x)[|prefix|..] == x && (prefix + y)[|prefix|..] == y;
    SanitizedUuid(a);
    SanitizedUuid(b);
    if Hex(a) == Hex(b) {
      HexInjective(a, b);
    }
  }

  // ---- one monitor ----

  function OrIfBlank(v: string, def: string): string {
    if Trim(v) == "" then def else v
  }

  function NonEmpty(v: string): Option<string> {
    if v == "" then None else Some(v)
  }

  function ModuleName(m: Monitor): string {
    "beacon_" + SanitizeId(UuidText(m.id))
  }

  function JobName(m: Monitor): string {
    "mon_" + SanitizeId(UuidText(m.id))
  }

  function BuildModule(cfg: Config, m: Monitor): Result<(Module, string), Error> {
    match m.kind
    case HTTP | HTTPS | SSL =>
      Ok((Module(m.timeout, Http(OrIfBlank(m.settings.httpMethod, "GET"), m.settings.validStatusCodes, m.settings.followRedirects,
                                 m.settings.headers, m.settings.body, NonEmpty(m.settings.bodyKeyword),
                                 NonEmpty(m.settings.bodyNotKeyword), m.settings.skipTlsVerify)), m.target))
    case TCP => Ok((Module(m.timeout, Tcp), m.target))
    case ICMP => Ok((Module(m.timeout, Icmp), m.target))
    case DNS =>
      Ok((Module(m.timeout, Dns(OrIfBlank(m.settings.dnsQueryName, m.target), OrIfBlank(m.settings.dnsQueryType, "A"))), cfg.dnsResolver))
    case _ => Err(Internal)
  }

  function LabelsOf(m: Monitor): Labels {
    Labels(m.org, m.project, UuidText(m.id), m.kind)
  }

  function BuildScrape(cfg: Config, m: Monitor, probeTarget: string): Scrape {
    Scrape(JobName(m), m.interval, m.timeout, ModuleName(m), probeTarget, cfg.blackboxAddr, LabelsOf(m), m.name, m.target)
  }

  function AvailabilityFor(interval: int): int {
    if interval * 2 < 60 then 60 else interval * 2
  }

  function AlertFor(sensitivity: string, interval: int): int {
    if sensitivity == "immediate" then 0
    else if sensitivity == "relaxed" then if interval * 4 < 300 then 300 else interval * 4
    else AvailabilityFor(interval)
  }

  predicate WatchesCertificate(m: Monitor) {
    (m.kind == HTTPS || m.kind == SSL || HasPrefix(m.target, "https://")) && m.settings.sslExpiryWarningDays > 0
  }

  function BuildRules(m: Monitor): seq<Rule> {
    if m.kind == Heartbeat then [Rule("HeartbeatMissed", SilentLongerThan(m.interval + m.grace), 0, "critical", LabelsOf(m))]
    else
      [Rule("MonitorDown", ProbeFails, AlertFor(m.settings.alertSensitivity, m.interval), "critical", LabelsOf(m))]
      + (if WatchesCertificate(m)
         then [Rule("SSLCertExpiringSoon", CertificateExpiresWithin(m.settings.sslExpiryWarningDays), 600, "warning", LabelsOf(m))]
         else [])
      + (if m.settings.responseTimeWarningMs > 0
         then [Rule("SlowResponse", SlowerThan(m.settings.responseTimeWarningMs), 300, "warning", LabelsOf(m))]
         else [])
  }

  /** Only an immediate monitor goes off on one missed probe, and the sensitivities are ordered. */
  lemma DwellOutlastsAProbe(sensitivity: string, interval: int)
    requires interval > 0
    ensures AlertFor("immediate", interval) <= AlertFor(sensitivity, interval) <= AlertFor("relaxed", interval)
    ensures sensitivity != "immediate" ==> AlertFor(sensitivity, interval) >= 2 * interval && AlertFor(sensitivity, interval) >= 60
  {
  }

  predicate IsProbed(m: Monitor) {
    m.kind != Heartbeat && m.kind != GitHubActions
  }

  // ---- all monitors ----

  /** Adding one monitor to what the earlier ones produced. */
  function Extended(cfg: Config, a: Artifacts, m: Monitor): Result<Artifacts, Error> {
    if m.kind == Heartbeat then Ok(a.(rules := a.rules + BuildRules(m)))
    else if m.kind == GitHubActions then Ok(a)
    else
      var b := BuildModule(cfg, m);
      if b.Err? then Err(b.error)
      else Ok(Artifacts(a.modules[ModuleName(m) := b.value.0], a.scrapes + [BuildScrape(cfg, m, b.value.1)], a.rules + BuildRules(m)))
  }

  function Generated(cfg: Config, ms: seq<Monitor>): Result<Artifacts, Error> {
    if ms == [] then Ok(Artifacts(map[], [], []))
    else
      var a := Generated(cfg, ms[..|ms| - 1]);
      if a.Err? then a else Extended(cfg, a.value, ms[|ms| - 1])
  }

  method Generate(cfg: Config, ms: seq<Monitor>) returns (r: Result<Artifacts, Error>)
    ensures r == Generated(cfg, ms)
  {
    var modules: map<string, Module> := map[];
    var scrapes: seq<Scrape> := [];
    var rules: seq<Rule> := [];
    for i := 0 to |ms|
      invariant Generated(cfg, ms[..i]) == Ok(Artifacts(modules, scrapes, rules))
    {
      assert ms[..i + 1][..i] == ms[..i];
      var m := ms[i];
      if m.kind == Heartbeat {
        rules := rules + BuildRules(m);
      } else if m.kind != GitHubActions {
        var b := BuildModule(cfg, m);
        if b.Err? {
          FirstFailureStands(cfg, ms, i);
          return Err(b.error);
        }
        modules := modules[ModuleName(m) := b.value.0];
        scrapes := scrapes + [BuildScrape(cfg, m, b.value.1)];
        rules := rules + BuildRules(m);
      }
    }
    assert ms[..|ms|] == ms;
    return Ok(Artifacts(modules, scrapes, rules));
  }

  lemma {:induction false} FirstFailureStands(cfg: Config, ms: seq<Monitor>, i: nat)
    requires i < |ms| && Generated(cfg, ms[..i + 1]).Err?
    ensures Generated(cfg, ms) == Generated(cfg, ms[..i + 1])
  {
    if i + 1 == |ms| {
      assert ms[..i + 1] == ms;
    } else {
      assert ms[..|ms| - 1][..i + 1] == ms[..i + 1];
      FirstFailureStands(cfg, ms[..|ms| - 1], i);
    }
  }

  // ---- the projection is well formed ----

  function Probed(ms: seq<Monitor>): seq<Monitor> {
    if ms == [] then [] else Probed(ms[..|ms| - 1]) + if IsProbed(ms[|ms| - 1]) then [ms[|ms| - 1]] else []
  }

  /** The rules that carry a monitor's label. */
  function RulesOf(rules: seq<Rule>, m: Monitor): seq<Rule> {
    if rules == [] then []
    else RulesOf(rules[..|rules| - 1], m)
         + if rules[|rules| - 1].labels.monitor == UuidText(m.id) then [rules[|rules| - 1]] else []
  }

  lemma {:induction false} RulesOfConcat(a: seq<Rule>, b: seq<Rule>, m: Monitor)
    ensures RulesOf(a + b, m) == RulesOf(a, m) + RulesOf(b, m)
  {
    if b == [] {
      assert a + b == a;
    } else {
      assert (a + b)[..|a + b| - 1] == a + b[..|b| - 1];
      RulesOfConcat(a, b[..|b| - 1], m);
    }
  }

  lemma {:induction false} RulesOfUniform(rules: seq<Rule>, m: Monitor)
    ensures (forall r | r in rules :: r.labels.monitor == UuidText(m.id)) ==> RulesOf(rules, m) == rules
    ensures (forall r | r in rules :: r.labels.monitor != UuidText(m.id)) ==> RulesOf(rules, m) == []
  {
    if rules != [] {
      assert forall r | r in rules[..|rules| - 1] :: r in rules;
      assert rules[|rules| - 1] in rules;
      assert rules == rules[..|rules| - 1] + [rules[|rules| - 1]];
      RulesOfUniform(rules[..|rules| - 1], m);
    }
  }

  lemma BuiltRulesLabels(m: Monitor)
    ensures forall r | r in BuildRules(m) :: r.labels == LabelsOf(m)
  {
  }

  lemma BuiltRulesOf(m: Monitor, other: Monitor)
    ensures RulesOf(BuildRules(m), other) == if other.id == m.id then BuildRules(m) else []
  {
    NamesAreInjective("", m.id, other.id);
    BuiltRulesLabels(m);
    RulesOfUniform(BuildRules(m), other);
  }

  ghost predicate Supported(ms: seq<Monitor>) {
    DistinctIds(ms) && forall i | 0 <= i < |ms| :: Sane(ms[i])
  }

  predicate HasModule(probed: seq<Monitor>, name: string) {
    exists i :: 0 <= i < |probed| && ModuleName(probed[i]) == name
  }

  /** The probe does what was stored for the monitor; no default ever stands in for it but the name
      of a DNS query that is blank. */
  predicate ProbesAsStored(cfg: Config, m: Monitor, mod: Module, probeTarget: string) {
    var s := m.settings;
    match m.kind
    case HTTP | HTTPS | SSL =>
      mod == Module(m.timeout, Http(s.httpMethod, s.validStatusCodes, s.followRedirects, s.headers, s.body,
                                    if s.bodyKeyword == "" then None else Some(s.bodyKeyword),
                                    if s.bodyNotKeyword == "" then None else Some(s.bodyNotKeyword), s.skipTlsVerify))
      && probeTarget == m.target
    case TCP => mod == Module(m.timeout, Tcp) && probeTarget == m.target
    case ICMP => mod == Module(m.timeout, Icmp) && probeTarget == m.target
    case DNS =>
      mod == Module(m.timeout, Dns(if Trim(s.dnsQueryName) == "" then m.target else s.dnsQueryName, s.dnsQueryType))
      && probeTarget == cfg.dnsResolver
    case _ => false
  }

  predicate IsScrapeOf(cfg: Config, modules: map<string, Module>, s: Scrape, m: Monitor) {
    && s.job == JobName(m) && s.moduleName == ModuleName(m) && s.labels == LabelsOf(m) && s.via == cfg.blackboxAddr
    && s.timeout == m.timeout && s.interval == m.interval
    && s.moduleName in modules && ProbesAsStored(cfg, m, modules[s.moduleName], s.probeTarget)
  }

  /** One scrape per probed monitor, in order, each with its own module. */
  ghost predicate ScrapesMatch(cfg: Config, a: Artifacts, probed: seq<Monitor>) {
    && |a.scrapes| == |probed|
    && (forall i | 0 <= i < |probed| :: IsScrapeOf(cfg, a.modules, a.scrapes[i], probed[i]))
    && (forall n | n in a.modules :: HasModule(probed, n))
  }

  lemma TightIsNotBlank(v: string, def: string)
    requires v != "" && Tight(v)
    ensures OrIfBlank(v, def) == v
  {
    TrimIsTight(v, IsSpace);
  }

  lemma MethodIsTight(v: string)
    requires v in HTTP_METHODS
    ensures v != "" && Tight(v)
  {
  }

  lemma RecordTypeIsTight(v: string)
    requires v in DNS_TYPES
    ensures v != "" && Tight(v)
  {
  }

  /** What was normalized is probed as it is. */
  lemma SaneModuleBuilds(cfg: Config, m: Monitor)
    requires Sane(m) && IsProbed(m)
    ensures BuildModule(cfg, m).Ok?
    ensures var (mod, probeTarget) := BuildModule(cfg, m).value; ProbesAsStored(cfg, m, mod, probeTarget)
  {
    if m.kind in {HTTP, HTTPS, SSL} {
      MethodIsTight(m.settings.httpMethod);
      TightIsNotBlank(m.settings.httpMethod, "GET");
    } else if m.kind == DNS {
      RecordTypeIsTight(m.settings.dnsQueryType);
      TightIsNotBlank(m.settings.dnsQueryType, "A");
    }
  }

  lemma {:induction false} ProbedFacts(ms: seq<Monitor>)
    ensures forall m :: m in Probed(ms) <==> m in ms && IsProbed(m)
    ensures DistinctIds(ms) ==> DistinctIds(Probed(ms))
  {
    if ms != [] {
      var rest := ms[..|ms| - 1];
      assert ms == rest + [ms[|ms| - 1]];
      ProbedFacts(rest);
      forall i | 0 <= i < |Probed(rest)| && DistinctIds(ms) ensures Probed(rest)[i].id != ms[|ms| - 1].id {
        assert Probed(rest)[i] in Probed(rest);
      }
    }
  }

  lemma HasModuleSnoc(probed: seq<Monitor>, m: Monitor, name: string)
    ensures HasModule(probed + [m], name) <==> HasModule(probed, name) || ModuleName(m) == name
  {
    if HasModule(probed, name) {
      var i :| 0 <= i < |probed| && ModuleName(probed[i]) == name;
      assert ModuleName((probed + [m])[i]) == name;
    }
    assert ModuleName((probed + [m])[|probed|]) == ModuleName(m);
  }

  lemma ScrapesExtend(cfg: Config, a: Artifacts, probed: seq<Monitor>, m: Monitor)
    requires ScrapesMatch(cfg, a, probed) && Sane(m) && IsProbed(m) && forall o | o in probed :: o.id != m.id
    ensures Extended(cfg, a, m).Ok? && ScrapesMatch(cfg, Extended(cfg, a, m).value, probed + [m])
  {
    SaneModuleBuilds(cfg, m);
    var (mod, probeTarget) := BuildModule(cfg, m).value;
    ScrapesMatchSnoc(cfg, a, probed, m, mod, BuildScrape(cfg, m, probeTarget), a.rules + BuildRules(m));
  }

  lemma ScrapesMatchSnoc(cfg: Config, a: Artifacts, probed: seq<Monitor>, m: Monitor, mod: Module, s: Scrape, rules: seq<Rule>)
    requires ScrapesMatch(cfg, a, probed) && IsScrapeOf(cfg, a.modules[ModuleName(m) := mod], s, m) && forall o | o in probed :: o.id != m.id
    ensures ScrapesMatch(cfg, Artifacts(a.modules[ModuleName(m) := mod], a.scrapes + [s], rules), probed + [m])
  {
    var modules' := a.modules[ModuleName(m) := mod];
    forall i | 0 <= i < |probed| ensures IsScrapeOf(cfg, modules', a.scrapes[i], probed[i]) {
      assert IsScrapeOf(cfg, a.modules, a.scrapes[i], probed[i]);
      ScrapeStands(cfg, a.modules, a.scrapes[i], probed[i], m, mod);
    }
    forall n | n in modules' ensures HasModule(probed + [m], n) {
      HasModuleSnoc(probed, m, n);
    }
  }

  lemma ScrapeStands(cfg: Config, modules: map<string, Module>, s: Scrape, o: Monitor, m: Monitor, mod: Module)
    requires IsScrapeOf(cfg, modules, s, o) && o.id != m.id
    ensures IsScrapeOf(cfg, modules[ModuleName(m) := mod], s, o)
  {
    NamesAreApart(o, m);
  }

  lemma OneFewer(ms: seq<Monitor>)
    requires Supported(ms) && ms != []
    ensures Supported(ms[..|ms| - 1]) && Sane(ms[|ms| - 1])
    ensures forall o | o in Probed(ms[..|ms| - 1]) :: o.id != ms[|ms| - 1].id
  {
    var rest, m := ms[..|ms| - 1], ms[|ms| - 1];
    assert m in ms;
    forall o | o in rest ensures o in ms && o.id != m.id {
      var i :| 0 <= i < |rest| && rest[i] == o;
      assert ms[i] == o;
    }
    ProbedAreOthers(rest, m);
  }

  lemma NextMatches(cfg: Config, a: Artifacts, probed: seq<Monitor>, m: Monitor)
    requires ScrapesMatch(cfg, a, probed) && Sane(m) && forall o | o in probed :: o.id != m.id
    ensures Extended(cfg, a, m).Ok?
    ensures ScrapesMatch(cfg, Extended(cfg, a, m).value, probed + if IsProbed(m) then [m] else [])
  {
    if IsProbed(m) {
      ScrapesExtend(cfg, a, probed, m);
    } else {
      assert probed + [] == probed;
    }
  }

  lemma {:induction false} GeneratedMatches(cfg: Config, ms: seq<Monitor>)
    requires Supported(ms)
    ensures Generated(cfg, ms).Ok? && ScrapesMatch(cfg, Generated(cfg, ms).value, Probed(ms))
  {
    if ms != [] {
      var rest := ms[..|ms| - 1];
      OneFewer(ms);
      GeneratedMatches(cfg, rest);
      NextMatches(cfg, Generated(cfg, rest).value, Probed(rest), ms[|ms| - 1]);
    }
  }

  lemma ProbedAreOthers(rest: seq<Monitor>, m: Monitor)
    requires DistinctIds(rest) && forall o | o in rest :: o.id != m.id
    ensures forall o | o in Probed(rest) :: o.id != m.id
  {
    ProbedFacts(rest);
  }

  lemma ExtendedRules(cfg: Config, a: Artifacts, last: Monitor)
    requires Extended(cfg, a, last).Ok?
    ensures Extended(cfg, a, last).value.rules == if last.kind == GitHubActions then a.rules else a.rules + BuildRules(last)
  {
  }

  /** What one more monitor adds to the rules of any. */
  lemma RulesExtend(cfg: Config, a: Artifacts, last: Monitor, m: Monitor)
    requires Extended(cfg, a, last).Ok?
    ensures RulesOf(Extended(cfg, a, last).value.rules, m)
         == if last.id == m.id && last.kind != GitHubActions then RulesOf(a.rules, m) + BuildRules(last) else RulesOf(a.rules, m)
  {
    ExtendedRules(cfg, a, last);
    var built := BuildRules(last);
    BuiltRulesOf(last, m);
    RulesOfConcat(a.rules, built, m);
  }

  /** A listed monitor's rules are those built for it, and there are none for any other. */
  ghost predicate RulesRight(ms: seq<Monitor>, rules: seq<Rule>, m: Monitor) {
    && (m in ms && m.kind != GitHubActions ==> RulesOf(rules, m) == BuildRules(m))
    && ((m in ms && m.kind == GitHubActions) || (forall o | o in ms :: o.id != m.id) ==> RulesOf(rules, m) == [])
  }

  lemma RulesRightSnoc(cfg: Config, a: Artifacts, ms: seq<Monitor>, m: Monitor)
    requires ms != [] && DistinctIds(ms) && Extended(cfg, a, ms[|ms| - 1]).Ok? && RulesRight(ms[..|ms| - 1], a.rules, m)
    ensures RulesRight(ms, Extended(cfg, a, ms[|ms| - 1]).value.rules, m)
  {
    var rest, last := ms[..|ms| - 1], ms[|ms| - 1];
    RulesExtend(cfg, a, last, m);
    forall o ensures o in ms <==> o in rest || o == last {
      MembersByLast(ms, o);
    }
    RulesRightMore(ms, rest, a.rules, last, m, Extended(cfg, a, last).value.rules);
  }

  lemma RulesRightMore(ms: seq<Monitor>, rest: seq<Monitor>, rules: seq<Rule>, last: Monitor, m: Monitor, more: seq<Rule>)
    requires (forall o :: o in ms <==> o in rest || o == last) && forall o | o in rest :: o.id != last.id
    requires RulesRight(rest, rules, m)
    requires RulesOf(more, m) == if last.id == m.id && last.kind != GitHubActions then RulesOf(rules, m) + BuildRules(last) else RulesOf(rules, m)
    ensures RulesRight(ms, more, m)
  {
    assert [] + BuildRules(last) == BuildRules(last);
  }

  lemma {:induction false} RulesMatch(cfg: Config, ms: seq<Monitor>, m: Monitor)
    requires Supported(ms)
    ensures Generated(cfg, ms).Ok? && RulesRight(ms, Generated(cfg, ms).value.rules, m)
  {
    GeneratedMatches(cfg, ms);
    if ms != [] {
      RulesMatch(cfg, ms[..|ms| - 1], m);
      RulesRightSnoc(cfg, Generated(cfg, ms[..|ms| - 1]).value, ms, m);
    }
  }

  /** The rules of a monitor are about it and nothing else. */
  predicate AreAbout(rules: seq<Rule>, m: Monitor) {
    forall r | r in rules ::
      r.labels.monitor == UuidText(m.id) && r.labels.org == m.org && r.labels.project == m.project && r.labels.kind == m.kind
  }

  /** A heartbeat goes off when no ping has come for its interval and its grace. */
  predicate WatchesHeartbeat(rules: seq<Rule>, m: Monitor) {
    && |rules| == 1 && rules[0].condition == SilentLongerThan(m.interval + m.grace) && rules[0].dwell == 0
    && rules[0].severity == "critical"
  }

  /** How long a failure must last before it alerts. */
  predicate IsPatience(sensitivity: string, interval: int, dwell: int) {
    if sensitivity == "immediate" then dwell == 0
    else if sensitivity == "relaxed" then dwell >= 300 && dwell >= 4 * interval && (dwell == 300 || dwell == 4 * interval)
    else dwell >= 60 && dwell >= 2 * interval && (dwell == 60 || dwell == 2 * interval)
  }

  /** The rule asks for this condition, this long and this urgently. */
  predicate Asks(r: Rule, condition: Condition, dwell: int, severity: string) {
    r.condition == condition && r.dwell == dwell && r.severity == severity
  }

  /** Any other monitor goes off when its probe fails for as long as its sensitivity says, and, where asked
      for, when it is slow for five minutes or the certificate of a secure target runs out; no two of its
      rules look at the same thing. */
  predicate WatchesProbes(rules: seq<Rule>, m: Monitor) {
    var slow, days := m.settings.responseTimeWarningMs, m.settings.sslExpiryWarningDays;
    var secure := m.kind in {HTTPS, SSL} || HasPrefix(m.target, "https://");
    && (forall i, j | 0 <= i < j < |rules| :: rules[i].condition != rules[j].condition)
    && (exists r | r in rules :: r.condition == ProbeFails && r.severity == "critical"
                                 && IsPatience(m.settings.alertSensitivity, m.interval, r.dwell))
    && (slow > 0 ==> exists r | r in rules :: Asks(r, SlowerThan(slow), 300, "warning"))
    && (secure && days > 0 ==> exists r | r in rules :: Asks(r, CertificateExpiresWithin(days), 600, "warning"))
    && (forall r | r in rules ::
          || r.condition == ProbeFails || (slow > 0 && r.condition == SlowerThan(slow))
          || (secure && days > 0 && r.condition == CertificateExpiresWithin(days)))
  }

  /** In the generated document every listed monitor is watched as it asks to be. */
  lemma EachMonitorIsWatched(cfg: Config, ms: seq<Monitor>, m: Monitor)
    requires Supported(ms) && m in ms && m.kind != GitHubActions
    ensures Generated(cfg, ms).Ok?
    ensures var rules := RulesOf(Generated(cfg, ms).value.rules, m);
            AreAbout(rules, m) && if m.kind == Heartbeat then WatchesHeartbeat(rules, m) else WatchesProbes(rules, m)
  {
    RulesMatch(cfg, ms, m);
    BuiltAreWatching(m);
  }

  lemma BuiltAreWatching(m: Monitor)
    ensures AreAbout(BuildRules(m), m)
    ensures if m.kind == Heartbeat then WatchesHeartbeat(BuildRules(m), m) else WatchesProbes(BuildRules(m), m)
  {
    var rules := BuildRules(m);
    if m.kind != Heartbeat {
      assert rules[0] in rules && rules[0].condition == ProbeFails;
      if m.settings.responseTimeWarningMs > 0 {
        var r := rules[|rules| - 1];
        assert r in rules && Asks(r, SlowerThan(m.settings.responseTimeWarningMs), 300, "warning");
      }
      if WatchesCertificate(m) {
        assert rules[1] in rules && Asks(rules[1], CertificateExpiresWithin(m.settings.sslExpiryWarningDays), 600, "warning");
      }
    }
  }

  lemma {:induction false} RulesHaveOwners(cfg: Config, ms: seq<Monitor>)
    requires Generated(cfg, ms).Ok?
    ensures forall r | r in Generated(cfg, ms).value.rules :: exists o :: o in ms && r.labels == LabelsOf(o)
  {
    if ms != [] {
      var rest, last := ms[..|ms| - 1], ms[|ms| - 1];
      RulesHaveOwners(cfg, rest);
      BuiltRulesLabels(last);
      assert last in ms && forall o | o in rest :: o in ms;
    }
  }

  /** What the documents promise their readers. */
  ghost predicate WellFormed(a: Artifacts) {
    && (forall i | 0 <= i < |a.scrapes| :: 1 <= a.scrapes[i].timeout <= a.scrapes[i].interval && a.scrapes[i].moduleName in a.modules)
    && (forall i, j | 0 <= i < j < |a.scrapes| :: a.scrapes[i].job != a.scrapes[j].job && a.scrapes[i].moduleName != a.scrapes[j].moduleName)
    && (forall n | n in a.modules :: exists i :: 0 <= i < |a.scrapes| && a.scrapes[i].moduleName == n)
  }

  lemma MatchingIsWellFormed(cfg: Config, a: Artifacts, probed: seq<Monitor>)
    requires ScrapesMatch(cfg, a, probed) && Supported(probed)
    ensures WellFormed(a)
  {
    forall i, j | 0 <= i < j < |a.scrapes| ensures a.scrapes[i].job != a.scrapes[j].job && a.scrapes[i].moduleName != a.scrapes[j].moduleName {
      assert IsScrapeOf(cfg, a.modules, a.scrapes[i], probed[i]) && IsScrapeOf(cfg, a.modules, a.scrapes[j], probed[j]);
      NamesAreApart(probed[i], probed[j]);
    }
    forall n | n in a.modules ensures exists i :: 0 <= i < |a.scrapes| && a.scrapes[i].moduleName == n {
      var i :| 0 <= i < |probed| && ModuleName(probed[i]) == n;
      assert a.scrapes[i].moduleName == n;
    }
  }

  lemma NamesAreApart(a: Monitor, b: Monitor)
    requires a.id != b.id
    ensures JobName(a) != JobName(b) && ModuleName(a) != ModuleName(b)
  {
    NamesAreInjective("mon_", a.id, b.id);
    NamesAreInjective("beacon_", a.id, b.id);
  }

  /** A listing of the enabled monitors of a store. */
  ghost predicate IsEnabledList(store: Store, ms: seq<Monitor>) {
    && DistinctIds(ms)
    && forall m :: m in ms <==> m.id in store.monitors && store.monitors[m.id] == m && m.enabled
  }

  /** Whatever was created, changed, paused and deleted, and whatever the plans allow, the projection
      succeeds; every scrape has a timeout within its interval, its own job name and a module of its
      own, and no module is without a scrape. */
  lemma ProjectionIsWellFormed(projects: set<(nat, nat)>, calls: seq<Call>, ms: seq<Monitor>,
                               limit: nat -> int, cfg: Config)
    requires IsEnabledList(PerformedAll(projects, calls), ms)
    ensures Generated(cfg, Cap(ms, limit)).Ok? && WellFormed(Generated(cfg, Cap(ms, limit)).value)
  {
    CappedIsSupported(projects, calls, ms, limit);
    var kept := Cap(ms, limit);
    GeneratedMatches(cfg, kept);
    ProbedFacts(kept);
    forall i | 0 <= i < |Probed(kept)| ensures Sane(Probed(kept)[i]) {
      assert Probed(kept)[i] in Probed(kept);
    }
    MatchingIsWellFormed(cfg, Generated(cfg, kept).value, Probed(kept));
  }

  /** Every probed monitor the plans leave has a scrape that does what is stored for it. */
  lemma EachKeptMonitorIsProbedAsStored(projects: set<(nat, nat)>, calls: seq<Call>, ms: seq<Monitor>,
                                        limit: nat -> int, cfg: Config, m: Monitor)
    requires IsEnabledList(PerformedAll(projects, calls), ms) && m in Cap(ms, limit) && IsProbed(m)
    ensures Generated(cfg, Cap(ms, limit)).Ok?
    ensures var a := Generated(cfg, Cap(ms, limit)).value;
            exists i :: 0 <= i < |a.scrapes| && IsScrapeOf(cfg, a.modules, a.scrapes[i], m)
  {
    CappedIsSupported(projects, calls, ms, limit);
    var kept := Cap(ms, limit);
    GeneratedMatches(cfg, kept);
    ProbedFacts(kept);
    var i :| 0 <= i < |Probed(kept)| && Probed(kept)[i] == m;
    var a := Generated(cfg, kept).value;
    assert IsScrapeOf(cfg, a.modules, a.scrapes[i], m);
  }

  lemma CappedIsSupported(projects: set<(nat, nat)>, calls: seq<Call>, ms: seq<Monitor>, limit: nat -> int)
    requires IsEnabledList(PerformedAll(projects, calls), ms)
    ensures Supported(Cap(ms, limit)) && forall m | m in Cap(ms, limit) :: m in ms
  {
    var store := PerformedAll(projects, calls);
    ReachableStoresAreSane(projects, calls);
    FilterKeepsDistinct(ms, AllowedIds(ms, limit));
    FilterMembers(ms, AllowedIds(ms, limit));
    var kept := Cap(ms, limit);
    forall i | 0 <= i < |kept| ensures Sane(kept[i]) {
      assert kept[i] in kept;
      assert Sane(store.monitors[kept[i].id]);
    }
  }

  /** A monitor's rules are its own: a heartbeat has the one, a repository none, a probed monitor its
      availability rule and its warnings; a monitor that is not probed has no scrape either; and every
      rule carries the organization of the monitor it is about. */
  lemma RulesAreAttributed(projects: set<(nat, nat)>, calls: seq<Call>, ms: seq<Monitor>,
                           limit: nat -> int, cfg: Config, m: Monitor)
    requires IsEnabledList(PerformedAll(projects, calls), ms) && m in Cap(ms, limit)
    ensures Generated(cfg, Cap(ms, limit)).Ok?
    ensures var a := Generated(cfg, Cap(ms, limit)).value;
            && RulesOf(a.rules, m) == (if m.kind == GitHubActions then [] else BuildRules(m))
            && (m.kind == Heartbeat ==> |RulesOf(a.rules, m)| == 1)
            && (IsProbed(m) <==> exists i :: 0 <= i < |a.scrapes| && a.scrapes[i].labels.monitor == UuidText(m.id))
            && (forall r | r in a.rules :: exists o :: o in ms && r.labels == LabelsOf(o))
  {
    CappedIsSupported(projects, calls, ms, limit);
    var kept := Cap(ms, limit);
    RulesMatch(cfg, kept, m);
    RulesHaveOwners(cfg, kept);
    GeneratedMatches(cfg, kept);
    var a := Generated(cfg, kept).value;
    ScrapedWhenProbed(cfg, a, kept, m);
    forall r | r in a.rules ensures exists o :: o in ms && r.labels == LabelsOf(o) {
      var o :| o in kept && r.labels == LabelsOf(o);
    }
  }

  lemma ScrapedWhenProbed(cfg: Config, a: Artifacts, ms: seq<Monitor>, m: Monitor)
    requires ScrapesMatch(cfg, a, Probed(ms)) && Supported(ms) && m in ms
    ensures IsProbed(m) <==> exists i :: 0 <= i < |a.scrapes| && a.scrapes[i].labels.monitor == UuidText(m.id)
  {
    ProbedFacts(ms);
    var probed := Probed(ms);
    if IsProbed(m) {
      var i :| 0 <= i < |probed| && probed[i] == m;
      assert a.scrapes[i].labels.monitor == UuidText(m.id);
    }
    forall i | 0 <= i < |a.scrapes| && a.scrapes[i].labels.monitor == UuidText(m.id) ensures IsProbed(m) {
      assert probed[i] in probed;
      NamesAreInjective("", probed[i].id, m.id);
      SameIdSameMonitor(ms);
    }
  }

  // ---- certificates are watched as their owners asked ----

  /** What was last asked for about a monitor's certificate, and whether one was expected since: the
      type is SSL, or some target taken since then is read as an https address. */
  datatype Wish = Wish(days: int, secure: bool)

  predicate IsSecure(net: Net, t: Type, target: string) {
    t == SSL || (net.parseUrl(target).Some? && net.parseUrl(target).value.scheme == "https")
  }

  /** The wish after an accepted change. */
  function WishAfter(net: Net, m: Monitor, w: Wish, change: UpdateInput): Wish {
    if change.settings.Some? then Wish(change.settings.value.sslExpiryWarningDays, IsSecure(net, m.kind, m.target))
    else if change.target.Some? then Wish(w.days, w.secure || IsSecure(net, m.kind, m.target))
    else w
  }

  function Wished(ctx: Context, store: Store, wishes: map<Uuid, Wish>, actor: Actor, op: Operation): map<Uuid, Wish> {
    match op
    case Create(inp, id, now, fault) =>
      if id in store.monitors || Created(ctx, store, actor, inp, id, now, fault).1.Err? then wishes
      else
        var target := Created(ctx, store, actor, inp, id, now, fault).1.value.target;
        wishes[id := Wish(inp.settings.sslExpiryWarningDays, IsSecure(ctx.net, inp.kind, target))]
    case Update(id, change, fault) =>
      if Updated(ctx, store, actor, id, change, fault).1.Err? || id !in wishes then wishes
      else
        var m := Updated(ctx, store, actor, id, change, fault).1.value;
        wishes[id := WishAfter(ctx.net, m, wishes[id], change)]
    case SetEnabled(_, _) => wishes
    case Delete(_, _) => wishes
  }

  /** The wishes a history of calls amounts to; only accepted calls count. */
  function Wishes(projects: set<(nat, nat)>, calls: seq<Call>): map<Uuid, Wish> {
    if calls == [] then map[]
    else
      var n := |calls| - 1;
      Wished(calls[n].ctx, PerformedAll(projects, calls[..n]), Wishes(projects, calls[..n]), calls[n].actor, calls[n].op)
  }

  /** Nothing said means 30 days where a certificate is expected. */
  function DaysWished(w: Wish): int {
    if w.days == 0 && w.secure then 30 else w.days
  }

  predicate IsWeb(t: Type) {
    t in {HTTP, HTTPS, SSL}
  }

  predicate Granted(m: Monitor, wishes: map<Uuid, Wish>) {
    && m.id in wishes && (m.kind == SSL ==> wishes[m.id].secure)
    && (IsWeb(m.kind) ==> m.settings.sslExpiryWarningDays == DaysWished(wishes[m.id]))
  }

  ghost predicate AllGranted(store: Store, wishes: map<Uuid, Wish>) {
    forall id | id in store.monitors :: store.monitors[id].id == id && Granted(store.monitors[id], wishes)
  }

  lemma NormalizedDays(net: Net, t: Type, target: string, s: Settings)
    requires IsWeb(t) && Normalize(net, t, target, s).Ok?
    ensures var (target', s') := Normalize(net, t, target, s).value;
            s'.sslExpiryWarningDays == DaysWished(Wish(s.sslExpiryWarningDays, IsSecure(net, t, target')))
  {
  }

  lemma CreationIsGranted(ctx: Context, store: Store, wishes: map<Uuid, Wish>, actor: Actor, inp: CreateInput, id: Uuid, now: nat, fault: bool)
    requires AllGranted(store, wishes)
    ensures AllGranted(Performed(ctx, store, actor, Create(inp, id, now, fault)), Wished(ctx, store, wishes, actor, Create(inp, id, now, fault)))
  {
    if id !in store.monitors && Created(ctx, store, actor, inp, id, now, fault).1.Ok? {
      var m := Created(ctx, store, actor, inp, id, now, fault).1.value;
      BuiltAsWished(ctx, store, actor, inp, id, now);
      GrantedByOne(store, wishes, m, Wish(inp.settings.sslExpiryWarningDays, IsSecure(ctx.net, inp.kind, m.target)));
    }
  }

  lemma BuiltAsWished(ctx: Context, store: Store, actor: Actor, inp: CreateInput, id: Uuid, now: nat)
    requires Built(ctx, store, actor, inp, id, now).Ok?
    ensures var m := Built(ctx, store, actor, inp, id, now).value;
            && m.id == id && m.kind == inp.kind
            && (IsWeb(m.kind) ==>
                  m.settings.sslExpiryWarningDays == DaysWished(Wish(inp.settings.sslExpiryWarningDays, IsSecure(ctx.net, m.kind, m.target))))
  {
    if IsWeb(inp.kind) {
      NormalizedDays(ctx.net, inp.kind, inp.target, inp.settings);
    }
  }

  lemma AmendedIsGranted(ctx: Context, m: Monitor, w: Wish, change: UpdateInput)
    requires (m.kind == SSL ==> w.secure) && IsWeb(m.kind) && m.settings.sslExpiryWarningDays == DaysWished(w)
    requires Amended(ctx, m, change).Ok?
    ensures var m' := Amended(ctx, m, change).value;
            m'.settings.sslExpiryWarningDays == DaysWished(WishAfter(ctx.net, m', w, change))
  {
    if change.target.Some? || change.settings.Some? {
      var kept := if change.settings.Some? then KeepMasked(change.settings.value.headers, m.settings.headers) else Some(m.settings.headers);
      NormalizedDays(ctx.net, m.kind, if change.target.Some? then change.target.value else m.target,
                     (if change.settings.Some? then change.settings.value else m.settings).(headers := kept.value));
    }
  }

  lemma UpdateIsGranted(ctx: Context, store: Store, wishes: map<Uuid, Wish>, actor: Actor, id: Uuid, change: UpdateInput, fault: bool)
    requires AllGranted(store, wishes)
    ensures AllGranted(Performed(ctx, store, actor, Update(id, change, fault)), Wished(ctx, store, wishes, actor, Update(id, change, fault)))
  {
    if Updated(ctx, store, actor, id, change, fault).1.Ok? {
      assert Granted(store.monitors[id], wishes);
      var m := Updated(ctx, store, actor, id, change, fault).1.value;
      var wishes' := Wished(ctx, store, wishes, actor, Update(id, change, fault));
      AmendedIsWished(ctx, store.monitors[id], wishes[id], change);
      GrantedByOne(store, wishes, m, wishes'[id]);
    }
  }

  lemma AmendedIsWished(ctx: Context, m: Monitor, w: Wish, change: UpdateInput)
    requires (m.kind == SSL ==> w.secure) && (IsWeb(m.kind) ==> m.settings.sslExpiryWarningDays == DaysWished(w))
    requires Amended(ctx, m, change).Ok?
    ensures var m' := Amended(ctx, m, change).value;
            && m'.id == m.id && m'.kind == m.kind && (m.kind == SSL ==> WishAfter(ctx.net, m', w, change).secure)
            && (IsWeb(m.kind) ==> m'.settings.sslExpiryWarningDays == DaysWished(WishAfter(ctx.net, m', w, change)))
  {
    if IsWeb(m.kind) {
      AmendedIsGranted(ctx, m, w, change);
    }
  }

  lemma GrantedByOne(store: Store, wishes: map<Uuid, Wish>, m: Monitor, w: Wish)
    requires AllGranted(store, wishes) && (m.kind == SSL ==> w.secure)
    requires IsWeb(m.kind) ==> m.settings.sslExpiryWarningDays == DaysWished(w)
    ensures AllGranted(store.(monitors := store.monitors[m.id := m]), wishes[m.id := w])
  {
  }

  lemma {:induction false} WishesAreGranted(projects: set<(nat, nat)>, calls: seq<Call>)
    ensures AllGranted(PerformedAll(projects, calls), Wishes(projects, calls))
  {
    if calls != [] {
      var n := |calls| - 1;
      WishesAreGranted(projects, calls[..n]);
      var store, wishes, last := PerformedAll(projects, calls[..n]), Wishes(projects, calls[..n]), calls[n];
      match last.op
      case Create(inp, id, now, fault) => CreationIsGranted(last.ctx, store, wishes, last.actor, inp, id, now, fault);
      case Update(id, change, fault) => UpdateIsGranted(last.ctx, store, wishes, last.actor, id, change, fault);
      case SetEnabled(_, _) =>
      case Delete(_, _) =>
    }
  }

  /** The projection warns of a certificate that expires within so many days. */
  ghost predicate Warns(rules: seq<Rule>, m: Monitor, days: int) {
    exists r :: r in RulesOf(rules, m) && r.condition == CertificateExpiresWithin(days)
  }

  /** From what the owner declared, through whatever changed since, to the alerting rules: a web
      monitor the plans leave is warned about exactly if its days are not negative, where silence
      means 30 if a certificate is expected and none otherwise; with that threshold; and only if its
      type says TLS or its target begins with the https scheme as written. */
  lemma CertificatesAreWatchedAsDeclared(projects: set<(nat, nat)>, calls: seq<Call>, ms: seq<Monitor>,
                                         limit: nat -> int, cfg: Config, m: Monitor, days: int)
    requires IsEnabledList(PerformedAll(projects, calls), ms) && m in Cap(ms, limit) && IsWeb(m.kind)
    ensures m.id in Wishes(projects, calls) && Generated(cfg, Cap(ms, limit)).Ok?
    ensures var (w, rules) := (Wishes(projects, calls)[m.id], Generated(cfg, Cap(ms, limit)).value.rules);
            && (Warns(rules, m, days) <==>
                  days == DaysWished(w) > 0 && (m.kind != HTTP || HasPrefix(m.target, "https://")))
            && (m.kind == SSL ==> (Warns(rules, m, if w.days == 0 then 30 else w.days) <==> w.days >= 0))
  {
    WishesAreGranted(projects, calls);
    CappedIsSupported(projects, calls, ms, limit);
    RulesMatch(cfg, Cap(ms, limit), m);
    assert Granted(PerformedAll(projects, calls).monitors[m.id], Wishes(projects, calls));
    WarnedAsSet(Generated(cfg, Cap(ms, limit)).value.rules, m, days);
    WarnedAsSet(Generated(cfg, Cap(ms, limit)).value.rules, m, DaysWished(Wishes(projects, calls)[m.id]));
  }

  lemma WarnedAsSet(rules: seq<Rule>, m: Monitor, days: int)
    requires RulesOf(rules, m) == BuildRules(m) && IsWeb(m.kind)
    ensures Warns(rules, m, days) <==> days == m.settings.sslExpiryWarningDays && WatchesCertificate(m)
  {
    var cert := Rule("SSLCertExpiringSoon", CertificateExpiresWithin(m.settings.sslExpiryWarningDays), 600, "warning", LabelsOf(m));
    if WatchesCertificate(m) {
      assert cert in BuildRules(m);
    }
  }

  const SHOP := "http://shop.example"

  lemma ShopIsAccepted(net: Net, settings: Settings)
    requires net.parseUrl(SHOP) == Some(Url("http", "shop.example"))
    requires settings.sslExpiryWarningDays == 0 && settings.headers == map[] && settings.validStatusCodes == [] && settings.body == ""
    requires settings.httpMethod == "GET" && settings.alertSensitivity == ""
    ensures var n := Normalize(net, HTTPS, SHOP, settings); n.Ok? && n.value.1.sslExpiryWarningDays == 0
  {
    TrimIsTight(SHOP, IsSpace);
    assert HasPrefix(SHOP[4..], "://");
    assert Contains(SHOP, "://");
    assert Upper("GET") == "GET";
    assert ValidCodes(DEFAULT_CODES);
  }

  lemma ShopIsBuilt(ctx: Context, settings: Settings, id: Uuid)
    requires ctx.net.parseUrl(SHOP) == Some(Url("http", "shop.example")) && !ctx.net.blocked(SHOP) && ctx.limits(1) == Limits(5, 10)
    requires settings.sslExpiryWarningDays == 0 && settings.headers == map[] && settings.validStatusCodes == [] && settings.body == ""
    requires settings.httpMethod == "GET" && settings.alertSensitivity == ""
    ensures var m := Built(ctx, Store(map[], {(1, 1)}), Actor(1, true), ShopInput(settings), id, 0);
            m.Ok? && m.value.settings.sslExpiryWarningDays == 0
  {
    NoMasksKept(settings.headers, map[]);
    ShopIsAccepted(ctx.net, settings);
    assert settings.(headers := map[]) == settings;
    assert Monitors.OfOrg(Store(map[], {(1, 1)}), 1) == {};
  }

  function ShopInput(settings: Settings): CreateInput {
    CreateInput(1, "shop", HTTPS, SHOP, None, None, 0, 0, settings, 0)
  }

  /** The type HTTPS alone does not bring the default: with a target that names http and no days, such
      a monitor is accepted and never warned about. */
  lemma HttpsTypeAloneIsNotWatched(settings: Settings, id: Uuid, cfg: Config) returns (call: Call, m: Monitor)
    requires settings.sslExpiryWarningDays == 0 && settings.headers == map[] && settings.validStatusCodes == [] && settings.body == ""
    requires settings.httpMethod == "GET" && settings.alertSensitivity == ""
    ensures call.op.Create? && call.op.inp.kind == HTTPS && call.op.inp.settings == settings
    ensures IsEnabledList(PerformedAll({(1, 1)}, [call]), [m]) && m.kind == HTTPS
    ensures Generated(cfg, [m]).Ok? && forall days :: !Warns(Generated(cfg, [m]).value.rules, m, days)
  {
    var net := Net(t => Some(Url("http", "shop.example")), t => None, t => false);
    var inp := ShopInput(settings);
    call := Call(Context(net, org => Limits(5, 10)), Actor(1, true), Create(inp, id, 0, false));
    ShopIsBuilt(call.ctx, settings, id);
    m := Built(call.ctx, Store(map[], {(1, 1)}), call.actor, inp, id, 0).value;
    BuiltIsSane(call.ctx, Store(map[], {(1, 1)}), call.actor, inp, id, 0);
    FirstCall(call, m);
    UnwatchedAlone(cfg, m);
  }

  lemma FirstCall(call: Call, m: Monitor)
    requires call.op.Create? && Built(call.ctx, Store(map[], {(1, 1)}), call.actor, call.op.inp, call.op.id, call.op.now) == Ok(m)
    requires !call.op.fault && m.enabled
    ensures IsEnabledList(PerformedAll({(1, 1)}, [call]), [m])
  {
    assert [call][..0] == [];
    assert PerformedAll({(1, 1)}, [call]) == Store(map[call.op.id := m], {(1, 1)});
  }

  lemma UnwatchedAlone(cfg: Config, m: Monitor)
    requires Sane(m) && IsWeb(m.kind) && m.settings.sslExpiryWarningDays == 0
    ensures Generated(cfg, [m]).Ok? && forall days :: !Warns(Generated(cfg, [m]).value.rules, m, days)
  {
    RulesMatch(cfg, [m], m);
    forall days ensures !Warns(Generated(cfg, [m]).value.rules, m, days) {
      WarnedAsSet(Generated(cfg, [m]).value.rules, m, days);
    }
  }
}
