/**
  The older DNS prober (`prober` package): a question built from the configured
  name and type as given, one exchange inside the breaker, and a response-code
  gauge written before the code is judged.
*/
module LegacyDns {
  import opened Wrappers
  import Breaker
  import DnsProbe

  /** Why an attempt inside the breaker failed. */
  datatype DnsFailure =
      /** `fmt.Errorf("DNS query failed: %v", err)`. */
    | QueryFailed(cause: string)
      /** `fmt.Errorf("DNS error: %s", RcodeToString[rcode])`. */
    | RcodeFailed(rcode: int)

  function FailureMessage(f: DnsFailure): string
  {
    match f
    case QueryFailed(cause) => "DNS query failed: " + cause
    case RcodeFailed(rcode) => "DNS error: " + DnsProbe.RcodeToString(rcode)
  }

  /**
    `dns.StringToType[recordType]`: a case-sensitive lookup that yields 0 for a
    name it does not know. Only the eleven names of the newer parser are listed.
  */
  function QuestionType(recordType: string): (t: int)
    ensures recordType in DnsProbe.RecordTypes ==> t == DnsProbe.RecordTypes[recordType]
    ensures recordType !in DnsProbe.RecordTypes ==> t == 0
  {
    if recordType in DnsProbe.RecordTypes then DnsProbe.RecordTypes[recordType] else 0
  }

  /** Unlike the newer parser, the older lookup does not fold case: "aaaa" asks for type 0. */
  lemma LookupIsCaseSensitive()
    ensures QuestionType("AAAA") == DnsProbe.TypeAAAA
    ensures QuestionType("aaaa") == 0
    ensures DnsProbe.ParseRecordType("aaaa") == Ok(DnsProbe.TypeAAAA)
  {
    DnsProbe.ParseRecordTypeExamples();
  }

  /** The closure's verdict on an exchange: an error, or a reply whose code is not NOERROR, fails. */
  function AttemptError(exchange: Result<int, string>): (e: Option<DnsFailure>)
    ensures exchange.Err? ==> e == Some(QueryFailed(exchange.error))
    ensures exchange.Ok? ==> (e.Some? <==> exchange.value != DnsProbe.RcodeSuccess)
    ensures exchange.Ok? && e.Some? ==> e == Some(RcodeFailed(exchange.value))
  {
    match exchange
    case Err(cause) => Some(QueryFailed(cause))
    case Ok(rcode) => if rcode != DnsProbe.RcodeSuccess then Some(RcodeFailed(rcode)) else None
  }

  class DnsProber {
    const name: string
    const domain: string
    const recordType: string
    const rps: real
    const serverIP: string
    const serverPort: int
    const timeout: int
    /** The breaker's name, "<name>-<domain>". */
    const breakerName: string

    /** `dns_probe_errors_total{name, domain, record_type, error_type}` for this prober. */
    var errors: map<string, nat>
    /** `dns_probe_duration_seconds{..., status}` observations, as (status, seconds). */
    var durations: seq<(string, real)>
    /** `dns_probe_response_code{name, domain, record_type}`; None until first set. */
    var responseCode: Option<int>
    /** `dns_probe_circuit_breaker_state{name, domain}`, keyed by the label pair. */
    var stateGauge: map<(string, string), int>

    /** `NewDNS`: the UDP client is not modelled. */
    constructor (name: string, domain: string, recordType: string, rps: real,
                 serverIP: string, serverPort: int, timeout: int)
      ensures this.name == name && this.domain == domain && this.recordType == recordType
      ensures this.rps == rps && this.serverIP == serverIP && this.serverPort == serverPort
      ensures this.timeout == timeout
      ensures breakerName == Breaker.BreakerName(name, domain)
      ensures errors == map[] && durations == [] && responseCode == None && stateGauge == map[]
    {
      this.name := name;
      this.domain := domain;
      this.recordType := recordType;
      this.rps := rps;
      this.serverIP := serverIP;
      this.serverPort := serverPort;
      this.timeout := timeout;
      breakerName := Breaker.BreakerName(name, domain);
      errors := map[];
      durations := [];
      responseCode := None;
      stateGauge := map[];
    }

    /** The `OnStateChange` callback, with the breaker's own name as the "name" label. */
    method OnStateChange(changed: string, to: Breaker.State)
      modifies this`stateGauge
      ensures stateGauge == old(stateGauge)[(changed, domain) := Breaker.StateGauge(to)]
    {
      stateGauge := stateGauge[(changed, domain) := Breaker.StateGauge(to)];
    }

    /**
      The closure passed to `Execute`: a failed exchange leaves the code gauge
      alone; a reply sets it before its code is judged, so failing codes are
      recorded too.
    */
    method Attempt(exchange: Result<int, string>) returns (e: Option<DnsFailure>)
      modifies this`responseCode
      ensures e == AttemptError(exchange)
      ensures exchange.Err? ==> responseCode == old(responseCode)
      ensures exchange.Ok? ==> responseCode == Some(exchange.value)
    {
      if exchange.Err? {
        return Some(QueryFailed(exchange.error));
      }
      responseCode := Some(exchange.value);
      if exchange.value != DnsProbe.RcodeSuccess {
        return Some(RcodeFailed(exchange.value));
      }
      e := None;
    }

    /**
      `probe`: builds the question from the domain and type as configured (no
      trailing dot is added), runs the attempt if the breaker admits it, and
      records the status: "error" exactly when `Execute` errs, which also counts
      "request_failed". `query` is the message built, `sent` whether it went out.
    */
    method Probe(admission: Breaker.Admission, newId: int, exchange: Result<int, string>, elapsed: real)
      returns (o: Breaker.Outcome<DnsFailure>, query: DnsProbe.Query, sent: bool)
      modifies this`errors, this`durations, this`responseCode
      ensures query == DnsProbe.Query(newId, true, [DnsProbe.Question(domain, QuestionType(recordType), DnsProbe.ClassINET)])
      ensures sent <==> admission == Breaker.Admit
      ensures o == Breaker.Execute(admission, if sent then AttemptError(exchange) else None)
      ensures sent && exchange.Ok? ==> responseCode == Some(exchange.value)
      ensures !sent || exchange.Err? ==> responseCode == old(responseCode)
      ensures durations == old(durations) + [(Breaker.Status(o), elapsed)]
      ensures errors == (if o.err.Some? then Breaker.Bump(old(errors), "request_failed") else old(errors))
    {
      var msg := new DnsProbe.Msg();
      msg.SetQuestion(domain, QuestionType(recordType), newId);
      msg.recursionDesired := true;
      query := DnsProbe.Query(msg.id, msg.recursionDesired, msg.question);

      var attemptErr: Option<DnsFailure> := None;
      sent := admission == Breaker.Admit;
      if sent {
        attemptErr := Attempt(exchange);
      }
      o := Breaker.Execute(admission, attemptErr);
      var status := "success";
      if o.err.Some? {
        status := "error";
        errors := Breaker.Bump(errors, "request_failed");
      }
      durations := durations + [(status, elapsed)];
    }
  }

  /** Breaker failures are exactly failed exchanges and replies other than NOERROR. */
  lemma BreakerFailureRule(exchange: Result<int, string>)
    ensures Breaker.Execute(Breaker.Admit, AttemptError(exchange)).recorded == Breaker.RecordedFailure
            <==> (exchange.Err? || exchange.value != DnsProbe.RcodeSuccess)
  {
  }

  /** An NXDOMAIN reply fails the attempt with the message "DNS error: NXDOMAIN". */
  lemma NxdomainMessage()
    ensures AttemptError(Ok(3)) == Some(RcodeFailed(3))
    ensures FailureMessage(RcodeFailed(3)) == "DNS error: NXDOMAIN"
  {
  }
}
