/**
  The current DNS probe: one query of the configured record type per tick, and
  how its outcome becomes the `result`, `rcode` and `rcode_value` labels. The
  exchange with the resolver is an input; the message id the library draws at
  random is a parameter.
*/
module DnsProbe {
  import opened Wrappers
  import opened Text
  import opened GoErrors
  import Config
  import Interval

  const Success: string := "success"
  const TimeoutLabel: string := "timeout"
  const ErrorLabel: string := "error"

  /** TYPE codes: section 3.2.2 of RFC 1035, section 2.1 of RFC 3596 (AAAA), RFC 2782 (SRV), RFC 4408 (SPF). */
  const TypeA: int := 1
  const TypeNS: int := 2
  const TypeCNAME: int := 5
  const TypeSOA: int := 6
  const TypePTR: int := 12
  const TypeMX: int := 15
  const TypeTXT: int := 16
  const TypeAAAA: int := 28
  const TypeSRV: int := 33
  const TypeSPF: int := 99
  /** QTYPE `*`, section 3.2.3 of RFC 1035. */
  const TypeANY: int := 255

  /** CLASS IN, section 3.2.4 of RFC 1035. */
  const ClassINET: int := 1

  /** The record types the probe accepts, by upper-case name. */
  const RecordTypes: map<string, int> := map[
    "A" := TypeA, "AAAA" := TypeAAAA, "ANY" := TypeANY, "CNAME" := TypeCNAME,
    "MX" := TypeMX, "NS" := TypeNS, "PTR" := TypePTR, "SOA" := TypeSOA,
    "SPF" := TypeSPF, "SRV" := TypeSRV, "TXT" := TypeTXT]

  /**
    RCODE names, section 4.1.1 of RFC 1035 (0-5) and section 2.2 of RFC 2136
    (6-10); a code without an entry has the empty name, as a missing key of a Go
    map reads.
  */
  const RcodeNames: map<int, string> := map[
    0 := "NOERROR", 1 := "FORMERR", 2 := "SERVFAIL", 3 := "NXDOMAIN", 4 := "NOTIMP",
    5 := "REFUSED", 6 := "YXDOMAIN", 7 := "YXRRSET", 8 := "NXRRSET", 9 := "NOTAUTH",
    10 := "NOTZONE"]

  const RcodeSuccess: int := 0

  function RcodeToString(rcode: int): (name: string)
    ensures name != "" <==> 0 <= rcode <= 10
    ensures name == "NOERROR" <==> rcode == RcodeSuccess
    ensures rcode == 3 ==> name == "NXDOMAIN"
  {
    if rcode in RcodeNames then RcodeNames[rcode] else ""
  }

  /** A named RCODE label identifies its code. */
  lemma RcodeToStringInjective(a: int, b: int)
    requires RcodeToString(a) == RcodeToString(b) != ""
    ensures a == b
  {
  }

  /** A probe unit: its target, ticker period and the `host:port` of its resolver. */
  datatype Probe = Probe(target: Config.DNSTarget, interval: int, server: string)

  /** `New`: the target is kept and the period comes from the interval policy. */
  function New(target: Config.DNSTarget): (p: Probe)
    requires Interval.RateFits(target.rps)
    ensures p.target == target
    ensures Interval.Millisecond <= p.interval <= Interval.MaxInt64
    ensures target.rps <= 0.0 ==> p.interval == Interval.Second
  {
    Probe(target, Interval.IntervalFromRPS(target.rps),
          JoinHostPort(target.serverIP, Itoa(target.serverPort)))
  }

  /** The resolver address `New` builds is "ip:port", the IP bracketed exactly when it contains ':'. */
  lemma ServerAddress(target: Config.DNSTarget)
    requires Interval.RateFits(target.rps)
    ensures var server, port := New(target).server, Itoa(target.serverPort);
            && |server| > |port| && server[|server| - |port| - 1..] == ":" + port
            && server[..|server| - |port| - 1] ==
               (if ':' in target.serverIP then "[" + target.serverIP + "]" else target.serverIP)
  {
  }

  /**
    `parseRecordType`: the upper-cased name is looked up among the eleven
    accepted names; anything else is an error naming the type as configured.
  */
  function ParseRecordType(recordType: string): (r: Result<int, string>)
    ensures r.Ok? <==> ToUpper(recordType) in RecordTypes
    ensures r.Ok? ==> r.value == RecordTypes[ToUpper(recordType)]
    ensures r.Err? ==> r.error == "record type " + recordType + " not recognized"
  {
    var u := ToUpper(recordType);
    if u == "A" then Ok(TypeA)
    else if u == "AAAA" then Ok(TypeAAAA)
    else if u == "ANY" then Ok(TypeANY)
    else if u == "CNAME" then Ok(TypeCNAME)
    else if u == "MX" then Ok(TypeMX)
    else if u == "NS" then Ok(TypeNS)
    else if u == "PTR" then Ok(TypePTR)
    else if u == "SOA" then Ok(TypeSOA)
    else if u == "SPF" then Ok(TypeSPF)
    else if u == "SRV" then Ok(TypeSRV)
    else if u == "TXT" then Ok(TypeTXT)
    else Err("record type " + recordType + " not recognized")
  }

  /** Parsing ignores case: two spellings with the same upper case parse to the same code. */
  lemma ParseRecordTypeIgnoresCase(s: string, t: string)
    requires ToUpper(s) == ToUpper(t)
    ensures ParseRecordType(s).Ok? == ParseRecordType(t).Ok?
    ensures ParseRecordType(s).Ok? ==> ParseRecordType(s).value == ParseRecordType(t).value
  {
  }

  /** Parsing a name or its upper case gives the same code. */
  lemma ParseRecordTypeOfUpper(s: string)
    ensures ParseRecordType(ToUpper(s)).Ok? == ParseRecordType(s).Ok?
    ensures ParseRecordType(s).Ok? ==> ParseRecordType(ToUpper(s)).value == ParseRecordType(s).value
  {
    ToUpperIdempotent(s);
    ParseRecordTypeIgnoresCase(ToUpper(s), s);
  }

  /** Some spellings: lower case, U+017F (long s) upper-cases to 'S', unknown names fail. */
  lemma ParseRecordTypeExamples()
    ensures ParseRecordType("aaaa") == Ok(28)
    ensures ParseRecordType("Mx") == Ok(15)
    ensures ParseRecordType("\U{017F}oa") == Ok(6)
    ensures ParseRecordType("HINFO").Err?
    ensures ParseRecordType("").Err?
  {
    assert ToUpper("aaaa") == "AAAA";
    assert ToUpper("Mx") == "MX";
    assert ToUpper("\U{017F}oa") == "SOA";
    assert ToUpper("HINFO") == "HINFO";
  }

  /**
    `classifyDNSError`: "timeout" only when the first `*net.OpError` in the chain
    reports a timeout; every other error is "error".
  */
  function ClassifyDNSError(err: GoError): (tag: string)
    ensures tag in {TimeoutLabel, ErrorLabel}
    ensures tag == TimeoutLabel <==> As(err, OpKind).Some? && Timeout(As(err, OpKind).value)
  {
    var opErr := As(err, OpKind);
    if opErr.Some? && Timeout(opErr.value) then TimeoutLabel else ErrorLabel
  }

  /** A timeout outside any `*net.OpError` is "error" here, though the HTTP probe calls it a timeout. */
  lemma BareTimeoutIsError()
    ensures ClassifyDNSError(Leaf(true, true)) == ErrorLabel
    ensures ClassifyDNSError(OpError(Leaf(true, true))) == TimeoutLabel
  {
    assert As(Leaf(true, true), OpKind) == None;
    assert As(OpError(Leaf(true, true)), OpKind) == Some(OpError(Leaf(true, true)));
  }

  // ------------------------------------------------------------- the query

  datatype Question = Question(name: string, qtype: int, qclass: int)

  /** `dns.Fqdn`: a name gets a trailing dot unless it has one. */
  function Fqdn(s: string): (r: string)
    ensures |r| > 0 && r[|r| - 1] == '.' && s <= r
    ensures |s| > 0 && s[|s| - 1] == '.' ==> r == s
    ensures |r| <= |s| + 1
  {
    if |s| > 0 && s[|s| - 1] == '.' then s else s + "."
  }

  /** The part of `dns.Msg` the probe sets. */
  class Msg {
    var id: int
    var recursionDesired: bool
    var question: seq<Question>

    /** `new(dns.Msg)`: a zeroed message. */
    constructor ()
      ensures id == 0 && !recursionDesired && question == []
    {
      id := 0;
      recursionDesired := false;
      question := [];
    }

    /** `SetQuestion`: a fresh id, the RD bit, and exactly one question of class IN. */
    method SetQuestion(name: string, qtype: int, newId: int)
      modifies this
      ensures id == newId && recursionDesired
      ensures question == [Question(name, qtype, ClassINET)]
    {
      id := newId;
      recursionDesired := true;
      question := [Question(name, qtype, ClassINET)];
    }
  }

  /** The query handed to the resolver. */
  datatype Query = Query(id: int, recursionDesired: bool, question: seq<Question>)

  /** What `ExchangeContext` gave: an error (with whatever round trip it measured) or a reply. */
  datatype ExchangeOutcome = ExchangeError(err: GoError, rtt: int) | Reply(rcode: int, rtt: int)

  datatype Stats = Stats(responseTime: real, rcode: string, rcodeValue: int, result: string)

  function Seconds(ns: int): real
  {
    ns as real / Interval.Second as real
  }

  /**
    The branch-by-branch stats of `sendRequest`. An unparsable type sends
    nothing (the exchange is ignored); a transport error keeps the measured time
    but no code; a non-zero RCODE drops the time; only NOERROR is a success.
  */
  function ShapeStats(recordType: Result<int, string>, exchange: ExchangeOutcome): (s: Stats)
    ensures s.result in {Success, TimeoutLabel, ErrorLabel}
    ensures s.result == Success <==> recordType.Ok? && exchange.Reply? && exchange.rcode == RcodeSuccess
    ensures recordType.Err? ==> s == Stats(0.0, "", -1, ErrorLabel)
    ensures recordType.Ok? && exchange.ExchangeError? ==>
              s == Stats(Seconds(exchange.rtt), "", -1, ClassifyDNSError(exchange.err))
    ensures recordType.Ok? && exchange.Reply? ==>
              s.rcodeValue == exchange.rcode && s.rcode == RcodeToString(exchange.rcode)
    ensures recordType.Ok? && exchange.Reply? && exchange.rcode != RcodeSuccess ==>
              s.responseTime == 0.0 && s.result == ErrorLabel
    ensures recordType.Ok? && exchange.Reply? && exchange.rcode == RcodeSuccess ==>
              s.responseTime == Seconds(exchange.rtt)
  {
    if recordType.Err? then Stats(0.0, "", -1, ErrorLabel)
    else match exchange
      case ExchangeError(err, rtt) => Stats(Seconds(rtt), "", -1, ClassifyDNSError(err))
      case Reply(rcode, rtt) =>
        if rcode != RcodeSuccess then Stats(0.0, RcodeToString(rcode), rcode, ErrorLabel)
        else Stats(Seconds(rtt), RcodeToString(rcode), rcode, Success)
  }

  /** An NXDOMAIN reply to a valid query is an "error" whose rcode label is "NXDOMAIN". */
  lemma NxdomainIsError(rtt: int)
    ensures ShapeStats(Ok(TypeA), Reply(3, rtt)) == Stats(0.0, "NXDOMAIN", 3, ErrorLabel)
  {
  }

  /**
    `sendRequest`: parses the type, builds the message (the fully qualified
    domain, the parsed type, recursion desired) and shapes the exchange's outcome.
    `sent` is the query handed to the resolver, None when nothing is sent.
  */
  method SendRequest(p: Probe, newId: int, exchange: ExchangeOutcome) returns (stats: Stats, sent: Option<Query>)
    ensures stats == ShapeStats(ParseRecordType(p.target.recordType), exchange)
    ensures ParseRecordType(p.target.recordType).Err? ==> sent == None
    ensures ParseRecordType(p.target.recordType).Ok? ==>
              sent == Some(Query(newId, true, [Question(Fqdn(p.target.domain), ParseRecordType(p.target.recordType).value, ClassINET)]))
  {
    var msg := new Msg();
    var recordType := ParseRecordType(p.target.recordType);
    if recordType.Err? {
      return Stats(0.0, "", -1, ErrorLabel), None;
    }
    msg.SetQuestion(Fqdn(p.target.domain), recordType.value, newId);
    msg.recursionDesired := true;
    sent := Some(Query(msg.id, msg.recursionDesired, msg.question));

    match exchange
    case ExchangeError(err, rtt) =>
      stats := Stats(Seconds(rtt), "", -1, ClassifyDNSError(err));
    case Reply(rcode, rtt) =>
      if rcode != RcodeSuccess {
        stats := Stats(0.0, RcodeToString(rcode), rcode, ErrorLabel);
      } else {
        stats := Stats(Seconds(rtt), RcodeToString(rcode), rcode, Success);
      }
  }

  datatype Observation = Observation(labels: map<string, string>, responseTime: real)

  /** `probeOnce`: the labels of the request counter and duration histogram. */
  method ProbeOnce(p: Probe, stats: Stats) returns (obs: Observation)
    ensures obs.labels.Keys == {"domain", "rcode", "rcode_value", "result", "name", "server"}
    ensures obs.labels["result"] == stats.result && obs.labels["rcode"] == stats.rcode
    ensures obs.labels["rcode_value"] == Itoa(stats.rcodeValue)
    ensures obs.labels["domain"] == p.target.domain && obs.labels["name"] == p.target.name
    ensures obs.labels["server"] == p.server
    ensures obs.responseTime == stats.responseTime
  {
    var labels := map["domain" := p.target.domain, "rcode" := stats.rcode,
                       "rcode_value" := Itoa(stats.rcodeValue), "result" := stats.result,
                       "name" := p.target.name, "server" := p.server];
    obs := Observation(labels, stats.responseTime);
  }

  /** The resolver address brackets an IPv6 server: "::1" on port 53 is "[::1]:53". */
  lemma ServerAddressExamples()
    ensures JoinHostPort("8.8.8.8", Itoa(53)) == "8.8.8.8:53"
    ensures JoinHostPort("::1", Itoa(53)) == "[::1]:53"
  {
    assert Itoa(53) == "53";
  }
}
