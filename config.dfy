/**
  The agent's configuration after YAML parsing: defaulting (`setDefaults`), the
  first-error validator (`validate`) and their composition (`Load`). Durations are
  integer nanoseconds, rates exact reals. Reading the file, YAML decoding and the
  resolv.conf lookup are outside the model: `Load` receives the parsed value and
  the lookup's outcome.
*/
module Config {
  import opened Wrappers
  import opened Text
  import Interval

  const DefaultListenAddr: string := ":9876"
  const DefaultHTTPTimeout: int := 3 * Interval.Second
  const DefaultDNSTimeout: int := 2 * Interval.Second
  const DefaultICMPTimeout: int := 2 * Interval.Second
  const DefaultK8sRPS: real := 1.0
  const DefaultDNSPort: int := 53
  const DefaultICMPTTL: int := 64

  datatype HTTPTarget = HTTPTarget(
    name: string, url: string, rps: real, timeout: int,
    tlsSkipVerify: bool, disableKeepAlives: bool, h2cEnabled: bool, host: string)

  datatype DNSTarget = DNSTarget(
    name: string, domain: string, recordType: string, rps: real,
    serverIP: string, serverPort: int, timeout: int)

  datatype K8SSimpleProbe = K8SSimpleProbe(namespace: string, rps: real)

  datatype K8STarget = K8STarget(enabled: bool, simpleProbe: seq<K8SSimpleProbe>)

  datatype ICMPTarget = ICMPTarget(name: string, host: string, ttl: int, rps: real, timeout: int)

  datatype Targets = Targets(
    http: seq<HTTPTarget>, dns: seq<DNSTarget>, k8s: K8STarget, icmp: seq<ICMPTarget>)

  datatype Config = Config(listen: string, targets: Targets)

  // ---------------------------------------------------------------- defaults

  /** One HTTP target after defaulting: only a non-positive timeout changes. */
  function DefaultHTTP(t: HTTPTarget): (r: HTTPTarget)
    ensures r.timeout > 0
    ensures t.timeout > 0 ==> r == t
    ensures t.timeout <= 0 ==> r == t.(timeout := DefaultHTTPTimeout)
  {
    if t.timeout <= 0 then t.(timeout := DefaultHTTPTimeout) else t
  }

  /**
    One DNS target after defaulting with `server` as the resolver found in
    resolv.conf: timeout, record type, server address and port fall back when
    unset; a negative port is kept.
  */
  function DefaultDNS(t: DNSTarget, server: string): (r: DNSTarget)
    ensures r.name == t.name && r.domain == t.domain && r.rps == t.rps
    ensures r.timeout == (if t.timeout <= 0 then DefaultDNSTimeout else t.timeout)
    ensures r.recordType == (if t.recordType == "" then "A" else t.recordType)
    ensures r.serverIP == (if t.serverIP == "" then server else t.serverIP)
    ensures r.serverPort == (if t.serverPort == 0 then DefaultDNSPort else t.serverPort)
  {
    DNSTarget(
      t.name, t.domain,
      if t.recordType == "" then "A" else t.recordType,
      t.rps,
      if t.serverIP == "" then server else t.serverIP,
      if t.serverPort == 0 then DefaultDNSPort else t.serverPort,
      if t.timeout <= 0 then DefaultDNSTimeout else t.timeout)
  }

  function DefaultK8s(p: K8SSimpleProbe): (r: K8SSimpleProbe)
    ensures r.rps > 0.0 && r.namespace == p.namespace
    ensures p.rps > 0.0 ==> r == p
    ensures p.rps <= 0.0 ==> r == p.(rps := DefaultK8sRPS)
  {
    if p.rps <= 0.0 then p.(rps := DefaultK8sRPS) else p
  }

  function DefaultICMP(t: ICMPTarget): (r: ICMPTarget)
    ensures r.name == t.name && r.host == t.host && r.rps == t.rps
    ensures r.timeout == (if t.timeout <= 0 then DefaultICMPTimeout else t.timeout)
    ensures r.ttl == (if t.ttl <= 0 then DefaultICMPTTL else t.ttl)
  {
    ICMPTarget(
      t.name, t.host,
      if t.ttl <= 0 then DefaultICMPTTL else t.ttl,
      t.rps,
      if t.timeout <= 0 then DefaultICMPTimeout else t.timeout)
  }

  function DefaultListen(listen: string): (r: string)
    ensures r != ""
    ensures listen != "" ==> r == listen
    ensures listen == "" ==> r == DefaultListenAddr
  {
    if listen == "" then DefaultListenAddr else listen
  }

  /** What `setDefaults` has done when the resolv.conf lookup fails: listen and HTTP only. */
  function EarlyDefaults(c: Config): (r: Config)
  {
    c.(listen := DefaultListen(c.listen),
       targets := c.targets.(http := seq(|c.targets.http|, i requires 0 <= i < |c.targets.http| =>
                                           DefaultHTTP(c.targets.http[i]))))
  }

  /** The configuration `setDefaults` leaves when the resolv.conf lookup gives `server`. */
  function Defaults(c: Config, server: string): (r: Config)
    ensures r.listen != ""
    ensures |r.targets.http| == |c.targets.http| && |r.targets.dns| == |c.targets.dns|
    ensures |r.targets.icmp| == |c.targets.icmp|
    ensures r.targets.k8s.enabled == c.targets.k8s.enabled
    ensures |r.targets.k8s.simpleProbe| == |c.targets.k8s.simpleProbe|
  {
    var t := EarlyDefaults(c).targets;
    var dns, sp, icmp := t.dns, t.k8s.simpleProbe, t.icmp;
    Config(
      EarlyDefaults(c).listen,
      t.(dns := seq(|dns|, i requires 0 <= i < |dns| => DefaultDNS(dns[i], server)),
         k8s := t.k8s.(simpleProbe := seq(|sp|, i requires 0 <= i < |sp| => DefaultK8s(sp[i]))),
         icmp := seq(|icmp|, i requires 0 <= i < |icmp| => DefaultICMP(icmp[i]))))
  }

  /**
    `setDefaults`: fills unset fields in place, list by list. The resolv.conf
    lookup runs after the listen address and the HTTP timeouts are filled; when
    it fails, its error is returned (whether or not there are DNS targets) and
    nothing after it is defaulted.
  */
  method SetDefaults(c: Config, lookup: Result<string, string>) returns (r: Config, err: Option<string>)
    ensures lookup.Err? ==> err == Some(lookup.error) && r == EarlyDefaults(c)
    ensures lookup.Ok? ==> err == None && r == Defaults(c, lookup.value)
  {
    r := c;
    if r.listen == "" {
      r := r.(listen := DefaultListenAddr);
    }

    var http := r.targets.http;
    for i := 0 to |http|
      invariant |http| == |c.targets.http|
      invariant forall j :: 0 <= j < i ==> http[j] == DefaultHTTP(c.targets.http[j])
      invariant forall j :: i <= j < |http| ==> http[j] == c.targets.http[j]
    {
      if http[i].timeout <= 0 {
        http := http[i := http[i].(timeout := DefaultHTTPTimeout)];
      }
    }
    r := r.(targets := r.targets.(http := http));

    if lookup.Err? {
      return r, Some(lookup.error);
    }
    var server := lookup.value;

    var dns := r.targets.dns;
    for i := 0 to |dns|
      invariant |dns| == |c.targets.dns|
      invariant forall j :: 0 <= j < i ==> dns[j] == DefaultDNS(c.targets.dns[j], server)
      invariant forall j :: i <= j < |dns| ==> dns[j] == c.targets.dns[j]
    {
      if dns[i].timeout <= 0 {
        dns := dns[i := dns[i].(timeout := DefaultDNSTimeout)];
      }
      if dns[i].recordType == "" {
        dns := dns[i := dns[i].(recordType := "A")];
      }
      if dns[i].serverIP == "" {
        dns := dns[i := dns[i].(serverIP := server)];
      }
      if dns[i].serverPort == 0 {
        dns := dns[i := dns[i].(serverPort := DefaultDNSPort)];
      }
    }

    var sp := r.targets.k8s.simpleProbe;
    for i := 0 to |sp|
      invariant |sp| == |c.targets.k8s.simpleProbe|
      invariant forall j :: 0 <= j < i ==> sp[j] == DefaultK8s(c.targets.k8s.simpleProbe[j])
      invariant forall j :: i <= j < |sp| ==> sp[j] == c.targets.k8s.simpleProbe[j]
    {
      if sp[i].rps <= 0.0 {
        sp := sp[i := sp[i].(rps := DefaultK8sRPS)];
      }
    }

    var icmp := r.targets.icmp;
    for i := 0 to |icmp|
      invariant |icmp| == |c.targets.icmp|
      invariant forall j :: 0 <= j < i ==> icmp[j] == DefaultICMP(c.targets.icmp[j])
      invariant forall j :: i <= j < |icmp| ==> icmp[j] == c.targets.icmp[j]
    {
      if icmp[i].timeout <= 0 {
        icmp := icmp[i := icmp[i].(timeout := DefaultICMPTimeout)];
      }
      if icmp[i].ttl <= 0 {
        icmp := icmp[i := icmp[i].(ttl := DefaultICMPTTL)];
      }
    }

    r := r.(targets := r.targets.(dns := dns, k8s := r.targets.k8s.(simpleProbe := sp), icmp := icmp));
    err := None;
  }

  /** Every field `setDefaults` fills is set afterwards: the defaults hold. */
  predicate Defaulted(c: Config)
  {
    && c.listen != ""
    && (forall i :: 0 <= i < |c.targets.http| ==> c.targets.http[i].timeout > 0)
    && (forall i :: 0 <= i < |c.targets.dns| ==>
          c.targets.dns[i].timeout > 0 && c.targets.dns[i].recordType != "" && c.targets.dns[i].serverPort != 0)
    && (forall i :: 0 <= i < |c.targets.k8s.simpleProbe| ==> c.targets.k8s.simpleProbe[i].rps > 0.0)
    && (forall i :: 0 <= i < |c.targets.icmp| ==> c.targets.icmp[i].timeout > 0 && c.targets.icmp[i].ttl > 0)
  }

  lemma DefaultsEstablishDefaulted(c: Config, server: string)
    ensures Defaulted(Defaults(c, server))
  {
    var d := Defaults(c, server);
    forall i | 0 <= i < |d.targets.http| ensures d.targets.http[i].timeout > 0 {
      assert d.targets.http[i] == DefaultHTTP(c.targets.http[i]);
    }
  }

  /** `setDefaults` is idempotent: a second run with the same resolver changes nothing. */
  lemma DefaultsIdempotent(c: Config, server: string)
    ensures Defaults(Defaults(c, server), server) == Defaults(c, server)
  {
    var d := Defaults(c, server);
    var dd := Defaults(d, server);
    assert dd.targets.http == d.targets.http by {
      forall i | 0 <= i < |d.targets.http| ensures dd.targets.http[i] == d.targets.http[i] {
        assert d.targets.http[i] == DefaultHTTP(c.targets.http[i]);
      }
    }
    assert dd.targets.dns == d.targets.dns;
    assert dd.targets.k8s == d.targets.k8s;
    assert dd.targets.icmp == d.targets.icmp;
  }

  // -------------------------------------------------------------- validation

  /** Nothing to probe: no HTTP, DNS or ICMP target, and no enabled K8s namespace. */
  predicate NoProbes(c: Config)
  {
    && |c.targets.http| == 0
    && |c.targets.dns| == 0
    && |c.targets.icmp| == 0
    && (!c.targets.k8s.enabled || |c.targets.k8s.simpleProbe| == 0)
  }

  const NoProbesMessage: string := "no probes configured"
  const K8sNoNamespaceMessage: string := "k8s probes enabled but no namespace configured"
  const K8sNamespaceRequiredMessage: string := "k8s simple probe namespace is required"

  function HTTPTargetError(h: HTTPTarget): Option<string>
  {
    if h.name == "" then Some("http target name is required")
    else if h.url == "" then Some("http target " + Quote(h.name) + ": url is required")
    else if h.rps <= 0.0 then Some("http target " + Quote(h.name) + ": rps should be > 0")
    else None
  }

  function DNSTargetError(d: DNSTarget): Option<string>
  {
    if d.name == "" then Some("dns target name is required")
    else if d.domain == "" then Some("dns target " + Quote(d.name) + ": domain is required")
    else if d.rps <= 0.0 then Some("dns target " + Quote(d.name) + ": rps should be > 0")
    else None
  }

  function ICMPTargetError(t: ICMPTarget): Option<string>
  {
    if t.name == "" then Some("icmp target name is required")
    else if t.host == "" then Some("icmp target " + Quote(t.name) + ": host is required")
    else if t.rps <= 0.0 then Some("icmp target " + Quote(t.name) + ": rps should be > 0")
    else None
  }

  function FirstHTTPError(hs: seq<HTTPTarget>): (r: Option<string>)
  {
    if hs == [] then None
    else if HTTPTargetError(hs[0]).Some? then HTTPTargetError(hs[0])
    else FirstHTTPError(hs[1..])
  }

  function FirstDNSError(ds: seq<DNSTarget>): (r: Option<string>)
  {
    if ds == [] then None
    else if DNSTargetError(ds[0]).Some? then DNSTargetError(ds[0])
    else FirstDNSError(ds[1..])
  }

  function FirstICMPError(ts: seq<ICMPTarget>): (r: Option<string>)
  {
    if ts == [] then None
    else if ICMPTargetError(ts[0]).Some? then ICMPTargetError(ts[0])
    else FirstICMPError(ts[1..])
  }

  function FirstNamespaceError(ps: seq<K8SSimpleProbe>): (r: Option<string>)
  {
    if ps == [] then None
    else if ps[0].namespace == "" then Some(K8sNamespaceRequiredMessage)
    else FirstNamespaceError(ps[1..])
  }

  function K8sError(k: K8STarget): Option<string>
  {
    if !k.enabled then None
    else if |k.simpleProbe| == 0 then Some(K8sNoNamespaceMessage)
    else FirstNamespaceError(k.simpleProbe)
  }

  function OrElse(a: Option<string>, b: Option<string>): Option<string>
  {
    if a.Some? then a else b
  }

  /** The independent description of a valid configuration. */
  predicate Valid(c: Config)
  {
    && !NoProbes(c)
    && (forall h :: h in c.targets.http ==> h.name != "" && h.url != "" && h.rps > 0.0)
    && (forall d :: d in c.targets.dns ==> d.name != "" && d.domain != "" && d.rps > 0.0)
    && (c.targets.k8s.enabled ==>
          |c.targets.k8s.simpleProbe| > 0 && forall p :: p in c.targets.k8s.simpleProbe ==> p.namespace != "")
    && (forall t :: t in c.targets.icmp ==> t.name != "" && t.host != "" && t.rps > 0.0)
  }

  /**
    `validate`: the first error in the fixed order "no probes", HTTP targets,
    DNS targets, K8s, ICMP targets, each list front to back; None when valid.
    It accepts exactly the configurations `Valid` describes.
  */
  function Validate(c: Config): (r: Option<string>)
    ensures r.None? <==> Valid(c)
  {
    FirstHTTPErrorNone(c.targets.http);
    FirstDNSErrorNone(c.targets.dns);
    FirstNamespaceErrorNone(c.targets.k8s.simpleProbe);
    FirstICMPErrorNone(c.targets.icmp);
    if NoProbes(c) then Some(NoProbesMessage)
    else OrElse(FirstHTTPError(c.targets.http),
         OrElse(FirstDNSError(c.targets.dns),
         OrElse(K8sError(c.targets.k8s),
                FirstICMPError(c.targets.icmp))))
  }

  lemma {:induction false} FirstHTTPErrorNone(hs: seq<HTTPTarget>)
    ensures FirstHTTPError(hs).None? <==> forall h :: h in hs ==> h.name != "" && h.url != "" && h.rps > 0.0
  {
    if hs != [] {
      FirstHTTPErrorNone(hs[1..]);
      assert hs == [hs[0]] + hs[1..];
    }
  }

  lemma {:induction false} FirstDNSErrorNone(ds: seq<DNSTarget>)
    ensures FirstDNSError(ds).None? <==> forall d :: d in ds ==> d.name != "" && d.domain != "" && d.rps > 0.0
  {
    if ds != [] {
      FirstDNSErrorNone(ds[1..]);
      assert ds == [ds[0]] + ds[1..];
    }
  }

  lemma {:induction false} FirstICMPErrorNone(ts: seq<ICMPTarget>)
    ensures FirstICMPError(ts).None? <==> forall t :: t in ts ==> t.name != "" && t.host != "" && t.rps > 0.0
  {
    if ts != [] {
      FirstICMPErrorNone(ts[1..]);
      assert ts == [ts[0]] + ts[1..];
    }
  }

  lemma {:induction false} FirstNamespaceErrorNone(ps: seq<K8SSimpleProbe>)
    ensures FirstNamespaceError(ps).None? <==> forall p :: p in ps ==> p.namespace != ""
  {
    if ps != [] {
      FirstNamespaceErrorNone(ps[1..]);
      assert ps == [ps[0]] + ps[1..];
    }
  }

  /** The first failing HTTP target, in list order, is the one reported. */
  lemma {:induction false} FirstHTTPErrorIsFirstFailure(hs: seq<HTTPTarget>, i: nat)
    requires i < |hs| && HTTPTargetError(hs[i]).Some?
    requires forall j :: 0 <= j < i ==> HTTPTargetError(hs[j]).None?
    ensures FirstHTTPError(hs) == HTTPTargetError(hs[i])
  {
    if i > 0 {
      FirstHTTPErrorIsFirstFailure(hs[1..], i - 1);
    }
  }

  lemma {:induction false} FirstDNSErrorIsFirstFailure(ds: seq<DNSTarget>, i: nat)
    requires i < |ds| && DNSTargetError(ds[i]).Some?
    requires forall j :: 0 <= j < i ==> DNSTargetError(ds[j]).None?
    ensures FirstDNSError(ds) == DNSTargetError(ds[i])
  {
    if i > 0 {
      FirstDNSErrorIsFirstFailure(ds[1..], i - 1);
    }
  }

  lemma {:induction false} FirstICMPErrorIsFirstFailure(ts: seq<ICMPTarget>, i: nat)
    requires i < |ts| && ICMPTargetError(ts[i]).Some?
    requires forall j :: 0 <= j < i ==> ICMPTargetError(ts[j]).None?
    ensures FirstICMPError(ts) == ICMPTargetError(ts[i])
  {
    if i > 0 {
      FirstICMPErrorIsFirstFailure(ts[1..], i - 1);
    }
  }

  /** With probes configured, a failing HTTP target wins over everything after it. */
  lemma ValidateReportsFirstHTTPFailure(c: Config, i: nat)
    requires !NoProbes(c)
    requires i < |c.targets.http| && HTTPTargetError(c.targets.http[i]).Some?
    requires forall j :: 0 <= j < i ==> HTTPTargetError(c.targets.http[j]).None?
    ensures Validate(c) == HTTPTargetError(c.targets.http[i])
  {
    FirstHTTPErrorIsFirstFailure(c.targets.http, i);
  }

  /** Once every HTTP target passes, the first failing DNS target is reported. */
  lemma ValidateReportsFirstDNSFailure(c: Config, i: nat)
    requires !NoProbes(c)
    requires forall h :: h in c.targets.http ==> h.name != "" && h.url != "" && h.rps > 0.0
    requires i < |c.targets.dns| && DNSTargetError(c.targets.dns[i]).Some?
    requires forall j :: 0 <= j < i ==> DNSTargetError(c.targets.dns[j]).None?
    ensures Validate(c) == DNSTargetError(c.targets.dns[i])
  {
    FirstHTTPErrorNone(c.targets.http);
    FirstDNSErrorIsFirstFailure(c.targets.dns, i);
  }

  /** Once HTTP and DNS pass, K8s is checked before any ICMP target. */
  lemma ValidateChecksK8sBeforeICMP(c: Config)
    requires !NoProbes(c)
    requires forall h :: h in c.targets.http ==> h.name != "" && h.url != "" && h.rps > 0.0
    requires forall d :: d in c.targets.dns ==> d.name != "" && d.domain != "" && d.rps > 0.0
    ensures K8sError(c.targets.k8s).Some? ==> Validate(c) == K8sError(c.targets.k8s)
    ensures K8sError(c.targets.k8s).None? ==> Validate(c) == FirstICMPError(c.targets.icmp)
  {
    FirstHTTPErrorNone(c.targets.http);
    FirstDNSErrorNone(c.targets.dns);
  }

  /** Once HTTP, DNS and K8s pass, the first failing ICMP target is reported. */
  lemma ValidateReportsFirstICMPFailure(c: Config, i: nat)
    requires !NoProbes(c)
    requires forall h :: h in c.targets.http ==> h.name != "" && h.url != "" && h.rps > 0.0
    requires forall d :: d in c.targets.dns ==> d.name != "" && d.domain != "" && d.rps > 0.0
    requires K8sError(c.targets.k8s).None?
    requires i < |c.targets.icmp| && ICMPTargetError(c.targets.icmp[i]).Some?
    requires forall j :: 0 <= j < i ==> ICMPTargetError(c.targets.icmp[j]).None?
    ensures Validate(c) == ICMPTargetError(c.targets.icmp[i])
  {
    ValidateChecksK8sBeforeICMP(c);
    FirstICMPErrorIsFirstFailure(c.targets.icmp, i);
  }

  /** Every other message names its section first, so none reads "no probes configured". */
  lemma {:induction false} SectionErrorsAreNotNoProbes(c: Config)
    ensures OrElse(FirstHTTPError(c.targets.http),
            OrElse(FirstDNSError(c.targets.dns),
            OrElse(K8sError(c.targets.k8s), FirstICMPError(c.targets.icmp)))) != Some(NoProbesMessage)
  {
    HTTPErrorsStartWithH(c.targets.http);
    DNSErrorsStartWithD(c.targets.dns);
    NamespaceErrorsStartWithK(c.targets.k8s.simpleProbe);
    ICMPErrorsStartWithI(c.targets.icmp);
  }

  lemma {:induction false} HTTPErrorsStartWithH(hs: seq<HTTPTarget>)
    ensures FirstHTTPError(hs).Some? ==> |FirstHTTPError(hs).value| > 0 && FirstHTTPError(hs).value[0] == 'h'
  {
    if hs != [] && HTTPTargetError(hs[0]).None? { HTTPErrorsStartWithH(hs[1..]); }
  }

  lemma {:induction false} DNSErrorsStartWithD(ds: seq<DNSTarget>)
    ensures FirstDNSError(ds).Some? ==> |FirstDNSError(ds).value| > 0 && FirstDNSError(ds).value[0] == 'd'
  {
    if ds != [] && DNSTargetError(ds[0]).None? { DNSErrorsStartWithD(ds[1..]); }
  }

  lemma {:induction false} NamespaceErrorsStartWithK(ps: seq<K8SSimpleProbe>)
    ensures FirstNamespaceError(ps).Some? ==> FirstNamespaceError(ps) == Some(K8sNamespaceRequiredMessage)
  {
    if ps != [] && ps[0].namespace != "" { NamespaceErrorsStartWithK(ps[1..]); }
  }

  lemma {:induction false} ICMPErrorsStartWithI(ts: seq<ICMPTarget>)
    ensures FirstICMPError(ts).Some? ==> |FirstICMPError(ts).value| > 0 && FirstICMPError(ts).value[0] == 'i'
  {
    if ts != [] && ICMPTargetError(ts[0]).None? { ICMPErrorsStartWithI(ts[1..]); }
  }

  /** "no probes configured" is reported exactly when nothing is configured to probe. */
  lemma ValidateNoProbesIff(c: Config)
    ensures Validate(c) == Some(NoProbesMessage) <==> NoProbes(c)
  {
    SectionErrorsAreNotNoProbes(c);
  }

  // -------------------------------------------------------------------- load

  /** `Load` after parsing: defaults first, then validation; any error discards the config. */
  method Load(parsed: Config, lookup: Result<string, string>) returns (r: Result<Config, string>)
    ensures lookup.Err? ==> r == Err(lookup.error)
    ensures lookup.Ok? && Validate(Defaults(parsed, lookup.value)).Some? ==>
              r == Err(Validate(Defaults(parsed, lookup.value)).value)
    ensures lookup.Ok? && Validate(Defaults(parsed, lookup.value)).None? ==>
              r == Ok(Defaults(parsed, lookup.value))
  {
    var cfg, err := SetDefaults(parsed, lookup);
    if err.Some? {
      return Err(err.value);
    }
    var verr := Validate(cfg);
    if verr.Some? {
      return Err(verr.value);
    }
    return Ok(cfg);
  }

  /**
    Every target of a loaded configuration has a positive rate, the K8s ones
    through defaulting and the others through validation.
  */
  lemma LoadedRatesPositive(parsed: Config, server: string)
    requires Validate(Defaults(parsed, server)).None?
    ensures var c := Defaults(parsed, server);
            && (forall h :: h in c.targets.http ==> h.rps > 0.0)
            && (forall d :: d in c.targets.dns ==> d.rps > 0.0)
            && (forall p :: p in c.targets.k8s.simpleProbe ==> p.rps > 0.0)
            && (forall t :: t in c.targets.icmp ==> t.rps > 0.0)
  {
    DefaultsEstablishDefaulted(parsed, server);
  }
}
