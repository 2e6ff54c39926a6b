/**
  The current ICMP probe: one unprivileged echo request per tick. Creating the
  pinger and running it are inputs: whether creation failed, the packets the
  receive callback is called with, in order, and the error `Run` returned.
*/
module IcmpProbe {
  import opened Wrappers
  import opened Text
  import opened GoErrors
  import Config
  import Interval

  const IcmpSuccess: string := "icmp_success"
  const IcmpError: string := "icmp_error"

  /** A probe unit: its target and its ticker period. */
  datatype Probe = Probe(target: Config.ICMPTarget, interval: int)

  /** `New`: the target is kept and its ticker period comes from the interval policy. */
  function New(target: Config.ICMPTarget): (p: Probe)
    requires Interval.RateFits(target.rps)
    ensures p.target == target
    ensures Interval.Millisecond <= p.interval <= Interval.MaxInt64
    ensures target.rps <= 0.0 ==> p.interval == Interval.Second
  {
    Probe(target, Interval.IntervalFromRPS(target.rps))
  }

  /** An echo reply as the callback sees it: round-trip time (ns) and TTL. */
  datatype Packet = Packet(rtt: int, ttl: int)

  /** `icmpStats`. */
  datatype Stats = Stats(rtt: int, ttl: int, err: Option<GoError>)

  /**
    `sendRequest`. The local `result` starts with the configured TTL and no round
    trip; each received packet overwrites it; a `Run` error is stored into it
    afterwards, keeping what the packets set.
  */
  method SendRequest(p: Probe, creationErr: Option<GoError>, packets: seq<Packet>, runErr: Option<GoError>)
    returns (stats: Stats)
    ensures creationErr.Some? ==> stats == Stats(0, 0, creationErr)
    ensures creationErr.None? && packets == [] ==> stats == Stats(0, p.target.ttl, runErr)
    ensures creationErr.None? && packets != [] ==>
              stats == Stats(packets[|packets| - 1].rtt, packets[|packets| - 1].ttl, runErr)
  {
    if creationErr.Some? {
      return Stats(0, 0, creationErr);
    }

    var result := Stats(0, p.target.ttl, None);
    for i := 0 to |packets|
      invariant i == 0 ==> result == Stats(0, p.target.ttl, None)
      invariant i > 0 ==> result == Stats(packets[i - 1].rtt, packets[i - 1].ttl, None)
    {
      result := Stats(packets[i].rtt, packets[i].ttl, None);
    }

    if runErr.Some? {
      result := result.(err := runErr);
      return result;
    }
    return result;
  }

  /** The probe's result label: success exactly when there is no error. */
  function ResultLabel(s: Stats): (tag: string)
    ensures tag == IcmpSuccess <==> s.err.None?
    ensures tag in {IcmpSuccess, IcmpError}
  {
    if s.err.None? then IcmpSuccess else IcmpError
  }

  datatype Observation = Observation(labels: map<string, string>, rtt: real)

  /** `probeOnce`: the `ttl` label is the TTL in the stats, which a reply may have changed. */
  method ProbeOnce(p: Probe, stats: Stats) returns (obs: Observation)
    ensures obs.labels.Keys == {"host", "name", "ttl", "result"}
    ensures obs.labels["result"] == ResultLabel(stats)
    ensures obs.labels["ttl"] == Itoa(stats.ttl)
    ensures obs.labels["host"] == p.target.host && obs.labels["name"] == p.target.name
    ensures obs.rtt == stats.rtt as real / Interval.Second as real
  {
    var result := IcmpError;
    if stats.err.None? {
      result := IcmpSuccess;
    }
    obs := Observation(map["host" := p.target.host, "name" := p.target.name,
                           "ttl" := Itoa(stats.ttl), "result" := result],
                       stats.rtt as real / Interval.Second as real);
  }
}
