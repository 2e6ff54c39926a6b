/**
  The older ICMP prober (`prober` package): a ticker at a whole number of
  milliseconds, a ping whose reply callback is installed only after the ping
  has finished, and two metric writes per tick.
*/
module LegacyIcmp {
  import opened Wrappers
  import opened GoErrors
  import Text
  import Interval

  const IcmpSuccess: string := "icmp_success"
  const IcmpError: string := "icmp_error"

  /** `ICMPResult`; the IP address is kept as its text, "" for nil. */
  datatype IcmpResult = IcmpResult(
    size: int, ipAddr: string, seqNo: int, rtt: int, ttl: int, errorType: string, error: Option<GoError>)

  const ZeroResult: IcmpResult := IcmpResult(0, "", 0, 0, 0, "", None)

  /** `ICMPResult{Error: err}`. */
  function ErrorResult(err: GoError): (r: IcmpResult)
    ensures r.error == Some(err) && r.(error := None) == ZeroResult
  {
    ZeroResult.(error := Some(err))
  }

  /** An echo reply as the library reports it. */
  datatype Packet = Packet(nbytes: int, ipAddr: string, seqNo: int, rtt: int, ttl: int)

  /** What the reply callback stores for one packet. */
  function PacketResult(pkt: Packet): IcmpResult
  {
    IcmpResult(pkt.nbytes, pkt.ipAddr, pkt.seqNo, pkt.rtt, pkt.ttl, "", None)
  }

  /** `time.NewTicker`: the library refuses (panics on) a period that is not positive. */
  function NewTicker(period: int): (r: Result<int, string>)
    ensures r.Ok? <==> period > 0
    ensures r.Ok? ==> r.value == period
  {
    if period > 0 then Ok(period) else Err("non-positive interval for NewTicker")
  }

  /**
    The ticker period with the whole-millisecond truncation kept but a floor of
    one millisecond, the smallest period the truncation can express.
  */
  function CorrectedInterval(rps: real): (d: int)
    requires Interval.LegacyRateFits(rps)
    ensures Interval.Millisecond <= d && d % Interval.Millisecond == 0
    ensures Interval.CalculateInterval(rps) > 0 ==> d == Interval.CalculateInterval(rps)
    ensures rps <= 1000.0 ==> d == Interval.CalculateInterval(rps)
    ensures Interval.CalculateInterval(rps) == 0 ==> d == Interval.Millisecond
  {
    CalculateIntervalPositive(rps);
    var raw := Interval.CalculateInterval(rps);
    if raw > 0 then raw else Interval.Millisecond
  }

  /** Up to a thousand requests per second the truncated period is at least one millisecond. */
  lemma CalculateIntervalPositive(rps: real)
    requires Interval.LegacyRateFits(rps)
    ensures rps <= 1000.0 ==> Interval.CalculateInterval(rps) >= Interval.Millisecond
  {
    var q := 1000.0 / rps;
    assert q * rps == 1000.0;
    if rps <= 1000.0 && q < 1.0 {
      assert (1.0 - q) * rps > 0.0;
      assert (1.0 - q) * rps == rps - q * rps;
    }
  }

  /** Above a thousand requests per second the period truncates to zero and the ticker refuses it. */
  lemma TickerRefusesAboveThousand(rps: real)
    requires rps > 1000.0
    ensures Interval.LegacyRateFits(rps)
    ensures NewTicker(Interval.CalculateInterval(rps)).Err?
  {
    Interval.CalculateIntervalZeroAboveThousand(rps);
  }

  /** The corrected period is always accepted, and changes nothing at or below a thousand. */
  lemma CorrectedTickerAccepted(rps: real)
    requires Interval.LegacyRateFits(rps)
    ensures NewTicker(CorrectedInterval(rps)) == Ok(CorrectedInterval(rps))
  {
  }

  /** The label of the tick's result: success exactly when there is no error. */
  function StartLabel(r: IcmpResult): (tag: string)
    ensures tag in {IcmpSuccess, IcmpError}
    ensures tag == IcmpSuccess <==> r.error.None?
  {
    if r.error.None? then IcmpSuccess else IcmpError
  }

  /** The label names each vector was declared with, in declaration order. */
  const IcmpLabelNames: seq<string> := ["name", "ttl", "result", "host"]
  const HttpDurationLabelNames: seq<string> := ["name", "status_code", "result", "url"]

  /** The first declared label name the map does not carry. */
  function FirstMissing(names: seq<string>, labels: map<string, string>): (r: Option<string>)
    ensures r.None? <==> forall n :: n in names ==> n in labels
    ensures r.Some? ==> r.value in names && r.value !in labels
  {
    if names == [] then None
    else if names[0] !in labels then Some(names[0])
    else FirstMissing(names[1..], labels)
  }

  /**
    A vector's `With(labels)`: the map must carry as many labels as the vector
    declares, and every declared name; otherwise the call panics (Err here) with
    the library's message.
  */
  function With(names: seq<string>, labels: map<string, string>): (r: Result<map<string, string>, string>)
    ensures r.Ok? <==> |labels| == |names| && forall n :: n in names ==> n in labels
    ensures r.Ok? ==> r.value == labels
  {
    if |labels| != |names| then Err("inconsistent label cardinality")
    else match FirstMissing(names, labels)
      case Some(n) => Err("label name " + Text.Quote(n) + " missing in label map")
      case None => Ok(labels)
  }

  class Icmp {
    const name: string
    const host: string
    const ttl: int
    const rps: real
    const timeout: int
    /** The running ticker's period; None before `Start`. */
    var ticker: Option<int>

    /** `NewICMP` (note the argument order: rps before ttl). */
    constructor (name: string, host: string, rps: real, ttl: int, timeout: int)
      ensures this.name == name && this.host == host && this.rps == rps && this.ttl == ttl
      ensures this.timeout == timeout && ticker == None
    {
      this.name := name;
      this.host := host;
      this.rps := rps;
      this.ttl := ttl;
      this.timeout := timeout;
      ticker := None;
    }

    /**
      `sendRequest`. A creation or `Run` failure gives a result with only the
      error set. The reply callback is installed after `Run` has returned, so
      the replies received during the run (`replies`) reach no callback and a
      successful run gives the zero result.
    */
    method SendRequest(creationErr: Option<GoError>, replies: seq<Packet>, runErr: Option<GoError>)
      returns (r: IcmpResult)
      ensures creationErr.Some? ==> r == ErrorResult(creationErr.value)
      ensures creationErr.None? && runErr.Some? ==> r == ErrorResult(runErr.value)
      ensures creationErr.None? && runErr.None? ==> r == ZeroResult
      ensures StartLabel(r) == IcmpSuccess <==> creationErr.None? && runErr.None?
    {
      var icmpResult := ZeroResult;
      if creationErr.Some? {
        return ErrorResult(creationErr.value);
      }
      if runErr.Some? {
        return ErrorResult(runErr.value);
      }
      r := icmpResult;
    }

    /**
      `sendRequest` with the reply callback installed before `Run`: every reply
      overwrites the result, so a successful run reports the last reply, or the
      zero result when none arrived; a failed run still reports only its error.
    */
    method SendRequestCorrected(creationErr: Option<GoError>, replies: seq<Packet>, runErr: Option<GoError>)
      returns (r: IcmpResult)
      ensures creationErr.Some? ==> r == ErrorResult(creationErr.value)
      ensures creationErr.None? && runErr.Some? ==> r == ErrorResult(runErr.value)
      ensures creationErr.None? && runErr.None? && replies == [] ==> r == ZeroResult
      ensures creationErr.None? && runErr.None? && replies != [] ==>
                var last := replies[|replies| - 1];
                r.error.None? && r.size == last.nbytes && r.ipAddr == last.ipAddr && r.seqNo == last.seqNo &&
                r.rtt == last.rtt && r.ttl == last.ttl
      ensures StartLabel(r) == IcmpSuccess <==> creationErr.None? && runErr.None?
    {
      var icmpResult := ZeroResult;
      if creationErr.Some? {
        return ErrorResult(creationErr.value);
      }
      for k := 0 to |replies|
        invariant k == 0 ==> icmpResult == ZeroResult
        invariant k > 0 ==> icmpResult == PacketResult(replies[k - 1])
      {
        icmpResult := PacketResult(replies[k]);
      }
      if runErr.Some? {
        return ErrorResult(runErr.value);
      }
      r := icmpResult;
    }

    /** The labels of both writes of a tick. */
    function TickLabels(result: IcmpResult): (labels: map<string, string>)
      reads this
      ensures labels.Keys == {"host", "result", "name", "ttl"}
      ensures labels["result"] == StartLabel(result) && labels["ttl"] == Text.Itoa(result.ttl)
      ensures labels["host"] == host && labels["name"] == name
    {
      map["host" := host, "result" := StartLabel(result), "name" := name, "ttl" := Text.Itoa(result.ttl)]
    }

    /**
      One tick as written: the request counter takes the labels; the duration is
      observed into the HTTP duration vector, whose label names differ, so that
      write always panics.
    */
    method TickAsWritten(result: IcmpResult)
      returns (requests: Result<map<string, string>, string>, duration: Result<map<string, string>, string>)
      ensures requests == Ok(TickLabels(result))
      ensures duration == Err("label name \"status_code\" missing in label map")
    {
      var labels := TickLabels(result);
      HttpDurationsRefuseTickLabels(labels);
      requests := With(IcmpLabelNames, labels);
      duration := With(HttpDurationLabelNames, labels);
    }

    /** One tick with the duration observed into the ICMP duration vector: both writes succeed. */
    method Tick(result: IcmpResult)
      returns (requests: Result<map<string, string>, string>, duration: Result<map<string, string>, string>,
               observed: real)
      ensures requests == Ok(TickLabels(result)) && duration == Ok(TickLabels(result))
      ensures observed == result.rtt as real
    {
      var labels := TickLabels(result);
      HttpDurationsRefuseTickLabels(labels);
      requests := With(IcmpLabelNames, labels);
      duration := With(IcmpLabelNames, labels);
      observed := result.rtt as real;
    }

    /** `Start` as written: the truncated period goes straight to `NewTicker`. */
    method StartAsWritten() returns (r: Result<int, string>)
      requires Interval.LegacyRateFits(rps)
      modifies this`ticker
      ensures r == NewTicker(Interval.CalculateInterval(rps))
      ensures r.Ok? ==> ticker == Some(r.value)
      ensures r.Err? ==> ticker == old(ticker)
    {
      r := NewTicker(Interval.CalculateInterval(rps));
      if r.Ok? {
        ticker := Some(r.value);
      }
    }

    /** `Start` with the corrected period: the ticker always starts. */
    method Start() returns (r: Result<int, string>)
      requires Interval.LegacyRateFits(rps)
      modifies this`ticker
      ensures r == Ok(CorrectedInterval(rps)) && ticker == Some(CorrectedInterval(rps))
    {
      r := NewTicker(CorrectedInterval(rps));
      ticker := Some(r.value);
    }
  }

  /** The tick's label map has exactly four entries. */
  lemma LabelCount(labels: map<string, string>)
    requires labels.Keys == {"host", "result", "name", "ttl"}
    ensures |labels| == 4
  {
    assert |labels.Keys| == |{"host", "result", "name", "ttl"}|;
  }

  /** Whatever the result, the HTTP duration vector refuses the tick's labels, naming "status_code". */
  lemma HttpDurationsRefuseTickLabels(labels: map<string, string>)
    requires labels.Keys == {"host", "result", "name", "ttl"}
    ensures With(HttpDurationLabelNames, labels) == Err("label name \"status_code\" missing in label map")
    ensures With(IcmpLabelNames, labels) == Ok(labels)
  {
    LabelCount(labels);
    StatusCodeMissing(labels);
    StatusCodeMessage();
  }

  /** The ICMP labels lack "status_code", the first HTTP duration label they do not carry. */
  lemma StatusCodeMissing(labels: map<string, string>)
    requires labels.Keys == {"host", "result", "name", "ttl"}
    ensures FirstMissing(HttpDurationLabelNames, labels) == Some("status_code")
  {
    assert "status_code" !in labels;
    assert HttpDurationLabelNames[1..] == ["status_code", "result", "url"];
  }

  /** The message `With` builds for a missing "status_code". */
  lemma StatusCodeMessage()
    ensures "label name " + Text.Quote("status_code") + " missing in label map" ==
            "label name \"status_code\" missing in label map"
  {
  }

  /** A successful ping is labelled a success with TTL "0", whatever replies arrived. */
  lemma SuccessfulPingLabels()
    ensures StartLabel(ZeroResult) == IcmpSuccess && Text.Itoa(ZeroResult.ttl) == "0"
  {
  }
}
