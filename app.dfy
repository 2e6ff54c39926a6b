/**
  The supervisor's construction step: one probe unit per configured target,
  appended to the app's probe list in a fixed kind order. Running the units
  (the errgroup and the ticker loops) is outside the model; creating the
  Kubernetes client is an input.
*/
module App {
  import opened Wrappers
  import Config
  import Interval
  import HttpProbe
  import DnsProbe
  import IcmpProbe

  /** The K8s unit of internal/probe/k8s: the namespace it polls and its period. */
  datatype K8sSimpleProbe = K8sSimpleProbe(namespace: string, interval: int)

  /** `k8s.NewSimpleProbe`: the namespace is kept and the period comes from the interval policy. */
  function NewK8sSimpleProbe(target: Config.K8SSimpleProbe): (p: K8sSimpleProbe)
    requires Interval.RateFits(target.rps)
    ensures p.namespace == target.namespace
    ensures Interval.Millisecond <= p.interval <= Interval.MaxInt64
    ensures target.rps <= 0.0 ==> p.interval == Interval.Second
  {
    K8sSimpleProbe(target.namespace, Interval.IntervalFromRPS(target.rps))
  }

  /** A probe unit of one of the four kinds. */
  datatype Runner =
    | HttpRunner(http: HttpProbe.Probe)
    | DnsRunner(dns: DnsProbe.Probe)
    | IcmpRunner(icmp: IcmpProbe.Probe)
    | K8sRunner(k8s: K8sSimpleProbe)

  /** Every rate of the configuration gives a period that fits in a `time.Duration`. */
  predicate RatesFit(c: Config.Config)
  {
    && (forall h :: h in c.targets.http ==> Interval.RateFits(h.rps))
    && (forall d :: d in c.targets.dns ==> Interval.RateFits(d.rps))
    && (forall t :: t in c.targets.icmp ==> Interval.RateFits(t.rps))
    && (forall p :: p in c.targets.k8s.simpleProbe ==> Interval.RateFits(p.rps))
  }

  /** The HTTP units of `hs`, in list order. */
  function HttpRunners(hs: seq<Config.HTTPTarget>): (r: seq<Runner>)
    requires forall h :: h in hs ==> Interval.RateFits(h.rps)
    ensures |r| == |hs|
  {
    if hs == [] then [] else HttpRunners(hs[..|hs| - 1]) + [HttpRunner(HttpProbe.New(hs[|hs| - 1]))]
  }

  lemma {:induction false} HttpRunnersAt(hs: seq<Config.HTTPTarget>, i: nat)
    requires forall h :: h in hs ==> Interval.RateFits(h.rps)
    requires i < |hs|
    ensures HttpRunners(hs)[i] == HttpRunner(HttpProbe.New(hs[i]))
    decreases |hs|
  {
    if i < |hs| - 1 {
      HttpRunnersAt(hs[..|hs| - 1], i);
    }
  }

  function DnsRunners(ds: seq<Config.DNSTarget>): (r: seq<Runner>)
    requires forall d :: d in ds ==> Interval.RateFits(d.rps)
    ensures |r| == |ds|
  {
    if ds == [] then [] else DnsRunners(ds[..|ds| - 1]) + [DnsRunner(DnsProbe.New(ds[|ds| - 1]))]
  }

  lemma {:induction false} DnsRunnersAt(ds: seq<Config.DNSTarget>, i: nat)
    requires forall d :: d in ds ==> Interval.RateFits(d.rps)
    requires i < |ds|
    ensures DnsRunners(ds)[i] == DnsRunner(DnsProbe.New(ds[i]))
    decreases |ds|
  {
    if i < |ds| - 1 {
      DnsRunnersAt(ds[..|ds| - 1], i);
    }
  }

  /** Removing the last DNS target removes the last DNS unit. */
  lemma DnsRunnersSnoc(ds: seq<Config.DNSTarget>, i: nat)
    requires forall d :: d in ds ==> Interval.RateFits(d.rps)
    requires i < |ds|
    ensures DnsRunners(ds[..i + 1]) == DnsRunners(ds[..i]) + [DnsRunner(DnsProbe.New(ds[i]))]
  {
    assert ds[..i + 1][..i] == ds[..i];
  }

  /** One step of the DNS loop of `buildProbes`: appending the next unit extends the invariant. */
  lemma DnsRunnersStep(start: seq<Runner>, probes: seq<Runner>, ds: seq<Config.DNSTarget>, i: nat)
    requires forall d :: d in ds ==> Interval.RateFits(d.rps)
    requires i < |ds|
    requires probes == start + DnsRunners(ds[..i])
    ensures probes + [DnsRunner(DnsProbe.New(ds[i]))] == start + DnsRunners(ds[..i + 1])
  {
    DnsRunnersSnoc(ds, i);
    SnocExtends(start, probes, DnsRunners(ds[..i]), DnsRunners(ds[..i + 1]), DnsRunner(DnsProbe.New(ds[i])));
  }

  function IcmpRunners(ts: seq<Config.ICMPTarget>): (r: seq<Runner>)
    requires forall t :: t in ts ==> Interval.RateFits(t.rps)
    ensures |r| == |ts|
  {
    if ts == [] then [] else IcmpRunners(ts[..|ts| - 1]) + [IcmpRunner(IcmpProbe.New(ts[|ts| - 1]))]
  }

  lemma {:induction false} IcmpRunnersAt(ts: seq<Config.ICMPTarget>, i: nat)
    requires forall t :: t in ts ==> Interval.RateFits(t.rps)
    requires i < |ts|
    ensures IcmpRunners(ts)[i] == IcmpRunner(IcmpProbe.New(ts[i]))
    decreases |ts|
  {
    if i < |ts| - 1 {
      IcmpRunnersAt(ts[..|ts| - 1], i);
    }
  }

  function K8sRunners(ps: seq<Config.K8SSimpleProbe>): (r: seq<Runner>)
    requires forall p :: p in ps ==> Interval.RateFits(p.rps)
    ensures |r| == |ps|
  {
    if ps == [] then [] else K8sRunners(ps[..|ps| - 1]) + [K8sRunner(NewK8sSimpleProbe(ps[|ps| - 1]))]
  }

  lemma {:induction false} K8sRunnersAt(ps: seq<Config.K8SSimpleProbe>, i: nat)
    requires forall p :: p in ps ==> Interval.RateFits(p.rps)
    requires i < |ps|
    ensures K8sRunners(ps)[i] == K8sRunner(NewK8sSimpleProbe(ps[i]))
    decreases |ps|
  {
    if i < |ps| - 1 {
      K8sRunnersAt(ps[..|ps| - 1], i);
    }
  }

  /** The probe list of a successful build: HTTP, then DNS, then ICMP, then (when enabled) K8s. */
  function ExpectedProbes(c: Config.Config): (r: seq<Runner>)
    requires RatesFit(c)
    ensures |r| == |c.targets.http| + |c.targets.dns| + |c.targets.icmp| +
                   (if c.targets.k8s.enabled then |c.targets.k8s.simpleProbe| else 0)
  {
    HttpRunners(c.targets.http) + DnsRunners(c.targets.dns) + IcmpRunners(c.targets.icmp) +
    (if c.targets.k8s.enabled then K8sRunners(c.targets.k8s.simpleProbe) else [])
  }

  /**
    Where each target's unit sits in the list: the four kind blocks in order,
    each block in configuration order (the block functions' own contracts give
    the unit built from each target).
  */
  lemma ProbeOrder(c: Config.Config)
    requires RatesFit(c)
    ensures var h, d, ic := HttpRunners(c.targets.http), DnsRunners(c.targets.dns), IcmpRunners(c.targets.icmp);
            var k := if c.targets.k8s.enabled then K8sRunners(c.targets.k8s.simpleProbe) else [];
            var r := ExpectedProbes(c);
            && r[..|h|] == h
            && r[|h|..|h| + |d|] == d
            && r[|h| + |d|..|h| + |d| + |ic|] == ic
            && r[|h| + |d| + |ic|..] == k
  {
    var k := if c.targets.k8s.enabled then K8sRunners(c.targets.k8s.simpleProbe) else [];
    FourBlocks(HttpRunners(c.targets.http), DnsRunners(c.targets.dns), IcmpRunners(c.targets.icmp), k);
  }

  /** The four blocks of a concatenation are its slices at the running lengths. */
  lemma FourBlocks(h: seq<Runner>, d: seq<Runner>, ic: seq<Runner>, k: seq<Runner>)
    ensures var r := h + d + ic + k;
            && r[..|h|] == h
            && r[|h|..|h| + |d|] == d
            && r[|h| + |d|..|h| + |d| + |ic|] == ic
            && r[|h| + |d| + |ic|..] == k
  {
    var s1 := h + d;
    var s2 := s1 + ic;
    assert (s2 + k)[..|s2|] == s2;
    assert (s2 + k)[|s2|..] == k;
    assert s2[..|s1|] == s1;
    assert s2[|s1|..] == ic;
    assert s1[..|h|] == h;
    assert s1[|h|..] == d;
  }

  lemma AppendAssoc(a: seq<Runner>, b: seq<Runner>, c: seq<Runner>)
    ensures a + b + c == a + (b + c)
  {
  }

  /** A list that is `start + prev` stays `start + next` after appending the unit `next` adds to `prev`. */
  lemma SnocExtends(start: seq<Runner>, probes: seq<Runner>, prev: seq<Runner>, next: seq<Runner>, x: Runner)
    requires probes == start + prev
    requires next == prev + [x]
    ensures probes + [x] == start + next
  {
    AppendAssoc(start, prev, [x]);
  }

  /** Appending three blocks one at a time appends their concatenation. */
  lemma ThreeBlocks(start: seq<Runner>, h: seq<Runner>, d: seq<Runner>, ic: seq<Runner>)
    ensures start + h + d + ic == start + (h + d + ic)
  {
    AppendAssoc(start, h + d, ic);
    AppendAssoc(start, h, d);
  }

  /** A list that is `start + (h + d + ic)` and then gets `k` is `start + (h + d + ic + k)`. */
  lemma FourBlocksAfter(start: seq<Runner>, mid: seq<Runner>, h: seq<Runner>, d: seq<Runner>, ic: seq<Runner>, k: seq<Runner>)
    requires mid == start + (h + d + ic)
    ensures mid + k == start + (h + d + ic + k)
  {
    AppendAssoc(start, h + d + ic, k);
  }

  /** A disabled K8s section adds no block. */
  lemma EmptyLastBlock(a: seq<Runner>, k: seq<Runner>)
    requires k == []
    ensures a + k == a
  {
  }

  class App {
    var cfg: Config.Config
    var probes: seq<Runner>
    /** Whether `k8sprobe.NewClient` has been called. */
    var clientRequested: bool

    constructor (cfg: Config.Config)
      ensures this.cfg == cfg && probes == [] && !clientRequested
    {
      this.cfg := cfg;
      probes := [];
      clientRequested := false;
    }

    /**
      `buildProbes`: appends the HTTP, DNS and ICMP units, then, only when K8s is
      enabled, asks for a client (`client` is what `NewClient` returns) and
      appends the K8s units. A disabled K8s section never creates a client and
      cannot fail.
    */
    method BuildProbes(client: Result<(), string>) returns (err: Option<string>)
      requires RatesFit(cfg)
      modifies this`probes, this`clientRequested
      ensures clientRequested == (old(clientRequested) || cfg.targets.k8s.enabled)
      ensures !cfg.targets.k8s.enabled ==> err == None && probes == old(probes) + ExpectedProbes(cfg)
      ensures cfg.targets.k8s.enabled && client.Err? ==>
                err == Some("k8s client: " + client.error) &&
                probes == old(probes) + HttpRunners(cfg.targets.http) + DnsRunners(cfg.targets.dns) +
                          IcmpRunners(cfg.targets.icmp)
      ensures cfg.targets.k8s.enabled && client.Ok? ==> err == None && probes == old(probes) + ExpectedProbes(cfg)
    {
      AppendHttp(cfg.targets.http);
      AppendDns(cfg.targets.dns);
      AppendIcmp(cfg.targets.icmp);
      ghost var h, d, ic := HttpRunners(cfg.targets.http), DnsRunners(cfg.targets.dns), IcmpRunners(cfg.targets.icmp);
      ghost var k := if cfg.targets.k8s.enabled then K8sRunners(cfg.targets.k8s.simpleProbe) else [];
      ThreeBlocks(old(probes), h, d, ic);
      if cfg.targets.k8s.enabled {
        ghost var mid := probes;
        err := SetupK8SProbes(client);
        if err.None? {
          FourBlocksAfter(old(probes), mid, h, d, ic, k);
        }
        return;
      }
      EmptyLastBlock(h + d + ic, k);
      err := None;
    }

    /** The `for _, target := range cfg.Targets.HTTP` loop of `buildProbes`. */
    method AppendHttp(hs: seq<Config.HTTPTarget>)
      requires forall h :: h in hs ==> Interval.RateFits(h.rps)
      modifies this`probes
      ensures probes == old(probes) + HttpRunners(hs)
    {
      for i := 0 to |hs|
        invariant probes == old(probes) + HttpRunners(hs[..i])
      {
        assert hs[..i + 1][..i] == hs[..i];
        probes := probes + [HttpRunner(HttpProbe.New(hs[i]))];
      }
      assert hs[..|hs|] == hs;
    }

    /** The DNS loop of `buildProbes`. */
    method AppendDns(ds: seq<Config.DNSTarget>)
      requires forall d :: d in ds ==> Interval.RateFits(d.rps)
      modifies this`probes
      ensures probes == old(probes) + DnsRunners(ds)
    {
      for i := 0 to |ds|
        invariant probes == old(probes) + DnsRunners(ds[..i])
      {
        DnsRunnersStep(old(probes), probes, ds, i);
        probes := probes + [DnsRunner(DnsProbe.New(ds[i]))];
      }
      assert ds[..|ds|] == ds;
    }

    /** The ICMP loop of `buildProbes`. */
    method AppendIcmp(ts: seq<Config.ICMPTarget>)
      requires forall t :: t in ts ==> Interval.RateFits(t.rps)
      modifies this`probes
      ensures probes == old(probes) + IcmpRunners(ts)
    {
      for i := 0 to |ts|
        invariant probes == old(probes) + IcmpRunners(ts[..i])
      {
        assert ts[..i + 1][..i] == ts[..i];
        probes := probes + [IcmpRunner(IcmpProbe.New(ts[i]))];
      }
      assert ts[..|ts|] == ts;
    }

    /** `setupK8SProbes`: a client error is wrapped and returned before any K8s unit is added. */
    method SetupK8SProbes(client: Result<(), string>) returns (err: Option<string>)
      requires forall p :: p in cfg.targets.k8s.simpleProbe ==> Interval.RateFits(p.rps)
      modifies this`probes, this`clientRequested
      ensures clientRequested
      ensures client.Err? ==> err == Some("k8s client: " + client.error) && probes == old(probes)
      ensures client.Ok? ==> err == None && probes == old(probes) + K8sRunners(cfg.targets.k8s.simpleProbe)
    {
      clientRequested := true;
      if client.Err? {
        return Some("k8s client: " + client.error);
      }
      var sp := cfg.targets.k8s.simpleProbe;
      for i := 0 to |sp|
        invariant clientRequested
        invariant probes == old(probes) + K8sRunners(sp[..i])
      {
        assert sp[..i + 1][..i] == sp[..i];
        probes := probes + [K8sRunner(NewK8sSimpleProbe(sp[i]))];
      }
      assert sp[..|sp|] == sp;
      err := None;
    }
  }

  /**
    `app.New`: builds the probe list; a build error (only a K8s client error can
    occur) gives no app and that error.
  */
  method New(cfg: Config.Config, client: Result<(), string>) returns (app: App?, err: Option<string>)
    requires RatesFit(cfg)
    ensures app == null <==> err.Some?
    ensures app != null ==> fresh(app) && app.cfg == cfg && app.probes == ExpectedProbes(cfg)
    ensures app != null ==> app.clientRequested == cfg.targets.k8s.enabled
    ensures !cfg.targets.k8s.enabled || client.Ok? ==> app != null
    ensures cfg.targets.k8s.enabled && client.Err? ==> err == Some("k8s client: " + client.error)
  {
    var a := new App(cfg);
    err := a.BuildProbes(client);
    if err.Some? {
      return null, err;
    }
    app := a;
  }
}
