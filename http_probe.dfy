/**
  The current HTTP probe: one GET per tick, its result label and its DNS-lookup
  sub-measurement. The request itself (`client.Do`), the clock and the trace
  hooks' timestamps are inputs.
*/
module HttpProbe {
  import opened Wrappers
  import opened Text
  import opened GoErrors
  import Config
  import Interval

  const HttpSuccess: string := "http_success"
  const HttpClientError: string := "http_client_error"
  const HttpServerError: string := "http_server_error"
  const HttpOtherError: string := "http_other_error"
  const TimeoutLabel: string := "timeout"
  const DnsErrorLabel: string := "dns_error"
  const AddressErrorLabel: string := "address_error"
  const ConnectionFailed: string := "connection_failed"
  const RequestBuildError: string := "request_build_error"

  /** Every label the probe can put in `result`. */
  const ResultLabels: set<string> := {
    HttpSuccess, HttpClientError, HttpServerError, HttpOtherError,
    TimeoutLabel, DnsErrorLabel, AddressErrorLabel, ConnectionFailed, RequestBuildError }

  /** A probe unit: its target and its ticker period. */
  datatype Probe = Probe(target: Config.HTTPTarget, interval: int)

  /** `New`: the target is kept and its ticker period comes from the interval policy. */
  function New(target: Config.HTTPTarget): (p: Probe)
    requires Interval.RateFits(target.rps)
    ensures p.target == target
    ensures Interval.Millisecond <= p.interval <= Interval.MaxInt64
    ensures target.rps <= 0.0 ==> p.interval == Interval.Second
  {
    Probe(target, Interval.IntervalFromRPS(target.rps))
  }

  /**
    `classifyStatus`: the status classes of section 15 of RFC 9110, with
    informational (and any other code below 200) as "other" and every code from
    500 up as a server error. Each integer gets exactly one of the four labels.
  */
  function ClassifyStatus(code: int): (tag: string)
    ensures tag == HttpSuccess <==> 200 <= code < 400
    ensures tag == HttpClientError <==> 400 <= code < 500
    ensures tag == HttpServerError <==> 500 <= code
    ensures tag == HttpOtherError <==> code < 200
  {
    if 200 <= code < 400 then HttpSuccess
    else if 400 <= code < 500 then HttpClientError
    else if code >= 500 then HttpServerError
    else HttpOtherError
  }

  /** The first `net.Error` of the chain reports a timeout. */
  predicate TimesOut(err: GoError)
  {
    As(err, NetErrorKind).Some? && Timeout(As(err, NetErrorKind).value)
  }

  /**
    `classifyError` for a `client.Do` error. It unwraps: the first `net.Error` in
    the chain decides "timeout"; otherwise the first `*url.Error` is searched,
    through its whole inner chain, for a DNS error and then a parse error.
  */
  function ClassifyError(err: GoError): (tag: string)
    ensures tag in {TimeoutLabel, DnsErrorLabel, AddressErrorLabel, ConnectionFailed}
    ensures tag == TimeoutLabel <==> TimesOut(err)
    ensures !TimesOut(err) && As(err, UrlKind).Some? ==>
              tag == (if Carries(As(err, UrlKind).value.err, DnsKind) then DnsErrorLabel
                      else if Carries(As(err, UrlKind).value.err, ParseKind) then AddressErrorLabel
                      else ConnectionFailed)
    ensures As(err, UrlKind).None? ==> tag in {TimeoutLabel, ConnectionFailed}
  {
    var netErr := As(err, NetErrorKind);
    if netErr.Some? && Timeout(netErr.value) then TimeoutLabel
    else match As(err, UrlKind)
      case Some(urlErr) =>
        if Carries(urlErr.err, DnsKind) then DnsErrorLabel
        else if Carries(urlErr.err, ParseKind) then AddressErrorLabel
        else ConnectionFailed
      case None => ConnectionFailed
  }

  /**
    A `*url.Error` that does not time out and carries a DNS error anywhere inside
    is "dns_error", even when it also carries a parse error; carrying only a
    parse error gives "address_error".
  */
  lemma ClassifyUrlError(inner: GoError)
    requires !Timeout(UrlError(inner))
    ensures Carries(inner, DnsKind) ==> ClassifyError(UrlError(inner)) == DnsErrorLabel
    ensures !Carries(inner, DnsKind) && Carries(inner, ParseKind) ==>
              ClassifyError(UrlError(inner)) == AddressErrorLabel
    ensures !Carries(inner, DnsKind) && !Carries(inner, ParseKind) ==>
              ClassifyError(UrlError(inner)) == ConnectionFailed
  {
    assert As(UrlError(inner), NetErrorKind) == Some(UrlError(inner));
    assert As(UrlError(inner), UrlKind) == Some(UrlError(inner));
  }

  /** An error with no `*url.Error` anywhere in its chain can only be a timeout or "connection_failed". */
  lemma ClassifyNonUrlError(err: GoError)
    requires !Carries(err, UrlKind)
    ensures ClassifyError(err) in {TimeoutLabel, ConnectionFailed}
  {
  }

  // ---------------------------------------------------- the DNS trace hooks

  /** A call of one of the two trace hooks, with the clock reading it takes. */
  datatype TraceEvent = DNSStart(at: int) | DNSDone(at: int, err: Option<string>)

  /** The variables the hooks capture: `dnsStart` (None is the zero time), `dnsLookup`, `dnsErr`. */
  datatype DnsTrace = DnsTrace(start: Option<int>, lookup: real, err: string)

  function Seconds(ns: int): real
  {
    ns as real / Interval.Second as real
  }

  /** One hook call: DNSStart stamps the start; DNSDone measures from it, if set, and keeps any error. */
  function TraceStep(t: DnsTrace, ev: TraceEvent): DnsTrace
  {
    match ev
    case DNSStart(at) => t.(start := Some(at))
    case DNSDone(at, e) =>
      t.(lookup := if t.start.Some? then Seconds(at - t.start.value) else t.lookup,
         err := if e.Some? then e.value else t.err)
  }

  /** The captured variables after the hooks have run for `evs`, in order. */
  function Replay(evs: seq<TraceEvent>): DnsTrace
  {
    if evs == [] then DnsTrace(None, 0.0, "")
    else TraceStep(Replay(evs[..|evs| - 1]), evs[|evs| - 1])
  }

  predicate DoneWithError(ev: TraceEvent)
  {
    ev.DNSDone? && ev.err.Some?
  }

  /** `dnsErr` is the message of the last failed lookup. */
  lemma {:induction false} ReplayErrorIsLastFailure(evs: seq<TraceEvent>, i: nat)
    requires i < |evs| && DoneWithError(evs[i])
    requires forall j :: i < j < |evs| ==> !DoneWithError(evs[j])
    ensures Replay(evs).err == evs[i].err.value
  {
    if i < |evs| - 1 {
      ReplayErrorIsLastFailure(evs[..|evs| - 1], i);
    }
  }

  /** Without any failed lookup, `dnsErr` stays empty. */
  lemma {:induction false} ReplayNoFailureNoError(evs: seq<TraceEvent>)
    requires forall j :: 0 <= j < |evs| ==> !DoneWithError(evs[j])
    ensures Replay(evs).err == ""
  {
    if evs != [] {
      ReplayNoFailureNoError(evs[..|evs| - 1]);
    }
  }

  /** Without a DNSStart (the zero start time), no lookup time is ever recorded. */
  lemma {:induction false} ReplayNoStartNoLookup(evs: seq<TraceEvent>)
    requires forall j :: 0 <= j < |evs| ==> !evs[j].DNSStart?
    ensures Replay(evs).lookup == 0.0 && Replay(evs).start.None?
  {
    if evs != [] {
      ReplayNoStartNoLookup(evs[..|evs| - 1]);
    }
  }

  /** The usual trace, one lookup: its duration and its error are what is reported. */
  lemma OneLookup(a: int, b: int, e: Option<string>)
    ensures Replay([DNSStart(a), DNSDone(b, e)]).lookup == Seconds(b - a)
    ensures Replay([DNSStart(a), DNSDone(b, e)]).err == (if e.Some? then e.value else "")
  {
    assert [DNSStart(a), DNSDone(b, e)][..1] == [DNSStart(a)];
    assert [DNSStart(a)][..0] == [];
    assert Replay([DNSStart(a)]) == DnsTrace(Some(a), 0.0, "");
  }

  // --------------------------------------------------------- one attempt

  /** What `client.Do` gave: a transport error, or a response with its status code. */
  datatype DoOutcome = Transport(err: GoError) | Response(statusCode: int)

  datatype Stats = Stats(statusCode: int, responseTime: real, resultLabel: string, dnsLookup: real, dnsError: string)

  /** The stats of a request that could not be built: the label alone. */
  const BuildErrorStats: Stats := Stats(0, 0.0, RequestBuildError, 0.0, "")

  /** `probeOnce`'s choice: an explicit result label wins over the status class. */
  function ResultLabel(s: Stats): (tag: string)
    ensures s.resultLabel != "" ==> tag == s.resultLabel
    ensures s.resultLabel == "" ==> tag == ClassifyStatus(s.statusCode)
  {
    if s.resultLabel != "" then s.resultLabel else ClassifyStatus(s.statusCode)
  }

  /**
    `performRequest`. When the request cannot be built nothing is sent and no hook
    runs. Otherwise the hooks fire during `client.Do` (the events `trace`, in
    order) and update the captured variables; `elapsed` is the measured duration
    of `client.Do` in nanoseconds.
  */
  method PerformRequest(buildOk: bool, trace: seq<TraceEvent>, elapsed: int, outcome: DoOutcome)
    returns (stats: Stats)
    ensures !buildOk ==> stats == BuildErrorStats
    ensures buildOk && outcome.Transport? ==>
              stats == Stats(0, Seconds(elapsed), ClassifyError(outcome.err), Replay(trace).lookup, Replay(trace).err)
    ensures buildOk && outcome.Response? ==>
              stats == Stats(outcome.statusCode, Seconds(elapsed), "", Replay(trace).lookup, Replay(trace).err)
    ensures ResultLabel(stats) in ResultLabels
  {
    var dnsStart: Option<int> := None;
    var dnsLookup: real := 0.0;
    var dnsErr: string := "";

    if !buildOk {
      return BuildErrorStats;
    }

    for i := 0 to |trace|
      invariant DnsTrace(dnsStart, dnsLookup, dnsErr) == Replay(trace[..i])
    {
      assert trace[..i + 1][..i] == trace[..i];
      match trace[i]
      case DNSStart(at) =>
        dnsStart := Some(at);
      case DNSDone(at, e) =>
        if dnsStart.Some? {
          dnsLookup := Seconds(at - dnsStart.value);
        }
        if e.Some? {
          dnsErr := e.value;
        }
    }
    assert trace[..|trace|] == trace;

    var responseTime := Seconds(elapsed);
    match outcome
    case Transport(err) =>
      stats := Stats(0, responseTime, ClassifyError(err), dnsLookup, dnsErr);
    case Response(code) =>
      stats := Stats(code, responseTime, "", dnsLookup, dnsErr);
  }

  /** The attempt's observations: the request counter/histogram and the DNS-lookup histogram. */
  datatype Observation = Observation(
    requestLabels: map<string, string>, responseTime: real,
    dnsLabels: map<string, string>, dnsLookup: real)

  /**
    `probeOnce`: labels the attempt. The DNS-lookup observation carries the same
    `result` and `status_code` as the request counter, plus `dns_error`.
  */
  method ProbeOnce(p: Probe, stats: Stats) returns (obs: Observation)
    ensures obs.requestLabels.Keys == {"url", "name", "status_code", "result"}
    ensures obs.requestLabels["url"] == p.target.url && obs.requestLabels["name"] == p.target.name
    ensures obs.requestLabels["status_code"] == Itoa(stats.statusCode)
    ensures obs.requestLabels["result"] == ResultLabel(stats)
    ensures obs.dnsLabels == obs.requestLabels["dns_error" := stats.dnsError]
    ensures obs.responseTime == stats.responseTime && obs.dnsLookup == stats.dnsLookup
  {
    var result := stats.resultLabel;
    if result == "" {
      result := ClassifyStatus(stats.statusCode);
    }
    var labels := map["url" := p.target.url, "name" := p.target.name,
                       "status_code" := Itoa(stats.statusCode), "result" := result];
    obs := Observation(labels, stats.responseTime,
                       map["url" := p.target.url, "name" := p.target.name,
                           "status_code" := Itoa(stats.statusCode), "result" := result,
                           "dns_error" := stats.dnsError],
                       stats.dnsLookup);
  }

  /** A request that cannot be built is counted as "request_build_error" with status code "0". */
  lemma BuildErrorLabels()
    ensures ResultLabel(BuildErrorStats) == RequestBuildError
    ensures Itoa(BuildErrorStats.statusCode) == "0"
  {
  }
}
