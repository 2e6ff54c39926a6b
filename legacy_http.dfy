/**
  The older HTTP prober (`prober` package): one breaker per target, a failure
  rule that turns a status of 400 or more into a breaker failure, and an error
  classifier that inspects only the outer error and its direct inner links.
  The metric vectors it writes are kept as per-prober fields.
*/
module LegacyHttp {
  import opened Wrappers
  import opened GoErrors
  import Breaker
  import HttpProbe

  /** Why an attempt inside the breaker failed. */
  datatype HttpFailure =
    | TransportFailed(err: GoError)
      /** `fmt.Errorf("HTTP status %d", code)`. */
    | StatusFailed(code: int)

  /** The closure passed to `Execute`: a transport error, or a status of 400 and above, is an error. */
  function AttemptError(r: HttpProbe.DoOutcome): (e: Option<HttpFailure>)
    ensures e.Some? <==> (r.Transport? || r.statusCode >= 400)
    ensures r.Transport? ==> e == Some(TransportFailed(r.err))
    ensures r.Response? && r.statusCode >= 400 ==> e == Some(StatusFailed(r.statusCode))
  {
    match r
    case Transport(err) => Some(TransportFailed(err))
    case Response(code) => if code >= 400 then Some(StatusFailed(code)) else None
  }

  /** An admitted attempt is a breaker failure exactly when the transport fails or the status is 400 or more. */
  lemma BreakerFailureRule(r: HttpProbe.DoOutcome)
    ensures Breaker.Execute(Breaker.Admit, AttemptError(r)).recorded == Breaker.RecordedFailure
            <==> (r.Transport? || r.statusCode >= 400)
    ensures r.Response? && r.statusCode < 400 ==>
              Breaker.Execute(Breaker.Admit, AttemptError(r)) == Breaker.Outcome(None, Breaker.RecordedSuccess)
  {
  }

  /**
    `errorType`: a type assertion, not `errors.As`. A top-level `net.Error` that
    times out is "timeout"; anything but a `*url.Error` is "connection_failed";
    a `*url.Error` directly around a `*net.OpError` directly around a DNS error
    is "dns_error", around a parse error "address_error".
  */
  function ErrorType(err: GoError): (tag: string)
    ensures tag in {HttpProbe.TimeoutLabel, HttpProbe.DnsErrorLabel, HttpProbe.AddressErrorLabel,
                    HttpProbe.ConnectionFailed}
    ensures tag == HttpProbe.TimeoutLabel <==> HasTimeoutMethod(err) && Timeout(err)
    ensures tag == HttpProbe.DnsErrorLabel ==> err.UrlError? && err.err.OpError? && err.err.err.DnsError?
    ensures tag == HttpProbe.AddressErrorLabel ==> err == UrlError(OpError(ParseError))
  {
    if HasTimeoutMethod(err) && Timeout(err) then HttpProbe.TimeoutLabel
    else match err
      case UrlError(OpError(DnsError(_))) => HttpProbe.DnsErrorLabel
      case UrlError(OpError(ParseError)) => HttpProbe.AddressErrorLabel
      case _ => HttpProbe.ConnectionFailed
  }

  /** The two exact shapes the classifier recognises below a timeout. */
  lemma ErrorTypeShapes(t: bool)
    ensures ErrorType(UrlError(OpError(DnsError(t)))) ==
            (if t then HttpProbe.TimeoutLabel else HttpProbe.DnsErrorLabel)
    ensures ErrorType(UrlError(OpError(ParseError))) == HttpProbe.AddressErrorLabel
  {
    assert Timeout(OpError(DnsError(t))) == t;
  }

  /**
    Every specific label the older classifier gives, the newer one (which
    searches whole chains) gives too: the two differ only where the older one
    falls back to "connection_failed".
  */
  lemma NewerClassifierAgrees(err: GoError)
    requires ErrorType(err) != HttpProbe.ConnectionFailed
    ensures HttpProbe.ClassifyError(err) == ErrorType(err)
  {
    assert As(err, NetErrorKind) == Some(err);
    if ErrorType(err) != HttpProbe.TimeoutLabel {
      assert As(err, UrlKind) == Some(err);
      var op := err.err;
      assert Chain(op) == [op] + Chain(op.err);
      assert op.err in Chain(op);
      if op.err.ParseError? {
        assert As(op, DnsKind).None?;
      }
    }
  }

  /** A wrapped error defeats the older classifier but not the newer one. */
  lemma WrappingHidesCause()
    ensures ErrorType(Wrapped(Leaf(true, true))) == HttpProbe.ConnectionFailed
    ensures HttpProbe.ClassifyError(Wrapped(Leaf(true, true))) == HttpProbe.TimeoutLabel
    ensures ErrorType(UrlError(OpError(Wrapped(DnsError(false))))) == HttpProbe.ConnectionFailed
    ensures HttpProbe.ClassifyError(UrlError(OpError(Wrapped(DnsError(false))))) == HttpProbe.DnsErrorLabel
  {
    assert As(Wrapped(Leaf(true, true)), NetErrorKind) == Some(Leaf(true, true));
    var e := UrlError(OpError(Wrapped(DnsError(false))));
    assert As(e, NetErrorKind) == Some(e);
    assert As(e, UrlKind) == Some(e);
    assert Chain(e.err) == [e.err, Wrapped(DnsError(false)), DnsError(false)];
    AsIsFirst(e.err, DnsKind, 2);
  }

  class HttpProber {
    const name: string
    const url: string
    const rps: real
    const timeout: int
    const tlsSkipVerify: bool
    const disableKeepAlive: bool
    const h2cEnabled: bool
    const host: string
    /** The breaker's name, "<name>-<url>". */
    const breakerName: string

    /** `http_probe_errors_total{name, url, error_type}` for this prober's (name, url). */
    var errors: map<string, nat>
    /** `http_probe_duration_seconds{name, url, status}` observations, as (status, seconds). */
    var durations: seq<(string, real)>
    /** `http_probe_circuit_breaker_state{name, url}`, keyed by the (name, url) label pair. */
    var stateGauge: map<(string, string), int>

    /** `NewHttp`: the transport and client are not modelled. */
    constructor (name: string, url: string, rps: real, timeout: int,
                 tlsSkipVerify: bool, disableKeepAlives: bool, h2cEnabled: bool, host: string)
      ensures this.name == name && this.url == url && this.rps == rps && this.timeout == timeout
      ensures this.tlsSkipVerify == tlsSkipVerify && this.disableKeepAlive == disableKeepAlives
      ensures this.h2cEnabled == h2cEnabled && this.host == host
      ensures breakerName == Breaker.BreakerName(name, url)
      ensures errors == map[] && durations == [] && stateGauge == map[]
    {
      this.name := name;
      this.url := url;
      this.rps := rps;
      this.timeout := timeout;
      this.tlsSkipVerify := tlsSkipVerify;
      this.disableKeepAlive := disableKeepAlives;
      this.h2cEnabled := h2cEnabled;
      this.host := host;
      breakerName := Breaker.BreakerName(name, url);
      errors := map[];
      durations := [];
      stateGauge := map[];
    }

    /**
      The `OnStateChange` callback: the library passes the breaker's own name,
      so the gauge's "name" label is "<name>-<url>", not the prober name.
    */
    method OnStateChange(changed: string, to: Breaker.State)
      modifies this`stateGauge
      ensures stateGauge == old(stateGauge)[(changed, url) := Breaker.StateGauge(to)]
    {
      stateGauge := stateGauge[(changed, url) := Breaker.StateGauge(to)];
    }

    /**
      `probe`: a request that cannot be built bypasses the breaker, counts
      "request_creation" and records no duration. Otherwise the attempt goes
      through `Execute`; the status is "error" exactly when `Execute` errs, which
      also counts "request_failed"; the duration is recorded either way.
    */
    method Probe(buildFails: bool, admission: Breaker.Admission, response: HttpProbe.DoOutcome, elapsed: real)
      returns (o: Option<Breaker.Outcome<HttpFailure>>)
      modifies this`errors, this`durations
      ensures buildFails ==> o == None && errors == Breaker.Bump(old(errors), "request_creation") &&
                             durations == old(durations)
      ensures !buildFails ==> o == Some(Breaker.Execute(admission, AttemptError(response)))
      ensures !buildFails ==> durations == old(durations) + [(Breaker.Status(o.value), elapsed)]
      ensures !buildFails ==>
                errors == (if o.value.err.Some? then Breaker.Bump(old(errors), "request_failed") else old(errors))
    {
      if buildFails {
        errors := Breaker.Bump(errors, "request_creation");
        return None;
      }
      var outcome := Breaker.Execute(admission, AttemptError(response));
      var status := "success";
      if outcome.err.Some? {
        status := "error";
        errors := Breaker.Bump(errors, "request_failed");
      }
      durations := durations + [(status, elapsed)];
      o := Some(outcome);
    }
  }

  /** A status below 400 through an admitting breaker is a success and counts nothing. */
  lemma SuccessfulProbeCountsNothing(code: int)
    requires code < 400
    ensures Breaker.Status(Breaker.Execute(Breaker.Admit, AttemptError(HttpProbe.Response(code)))) == "success"
  {
  }
}
