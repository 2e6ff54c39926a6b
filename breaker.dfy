/**
  The circuit-breaker policy the three older probers configure identically.
  The breaker's own state machine lives in a foreign library; the model keeps
  the parts the probers write: the trip predicate, the name, the state-to-gauge
  encoding, and which attempts reach the breaker as failures. Whether the
  breaker admits an attempt is an input.
*/
module Breaker {
  import opened Wrappers

  /** The library's request counts for the current window (all `uint32`). */
  datatype Counts = Counts(
    requests: nat,
    totalSuccesses: nat,
    totalFailures: nat,
    consecutiveSuccesses: nat,
    consecutiveFailures: nat)

  /** Every setting the probers pass besides the callbacks. */
  const MaxRequests: nat := 5
  const IntervalSeconds: nat := 30
  const TimeoutSeconds: nat := 60

  const MinRequests: nat := 5
  const TripRatio: real := 0.6

  /**
    `ReadyToTrip`: at least five requests in the window and a failure ratio of
    at least 0.6. The ratio is computed first (as a float it is NaN for zero
    requests), but the request guard decides before it is looked at. On whole
    numbers the ratio test is `5 * failures >= 3 * requests`.
  */
  predicate ReadyToTrip(c: Counts)
    ensures ReadyToTrip(c) <==> c.requests >= MinRequests && 5 * c.totalFailures >= 3 * c.requests
  {
    if c.requests < MinRequests then false
    else
      RatioAtLeast(c.totalFailures as real, c.requests as real);
      assert (5 * c.totalFailures) as real == 5.0 * c.totalFailures as real;
      assert (3 * c.requests) as real == 3.0 * c.requests as real;
      c.totalFailures as real / c.requests as real >= TripRatio
  }

  /** Comparing a ratio with 0.6 is comparing `5 f` with `3 r`. */
  lemma RatioAtLeast(f: real, r: real)
    requires r > 0.0
    ensures f / r >= 0.6 <==> 5.0 * f >= 3.0 * r
  {
    var q := f / r;
    assert q * r == f;
    if q >= 0.6 {
      assert (q - 0.6) * r >= 0.0;
    } else {
      assert (0.6 - q) * r > 0.0;
    }
  }

  /** Fewer than five requests never trip, whatever the failures. */
  lemma FewerThanFiveNeverTrips(c: Counts)
    requires c.requests < 5
    ensures !ReadyToTrip(c)
  {
  }

  /** A window of at least five requests that all failed trips. */
  lemma AllFailedTrips(c: Counts)
    requires c.requests >= 5 && c.totalFailures == c.requests
    ensures ReadyToTrip(c)
  {
  }

  /** Tripping is monotone in the failure count, for a fixed number of requests. */
  lemma TripMonotoneInFailures(c: Counts, more: nat)
    requires ReadyToTrip(c)
    ensures ReadyToTrip(c.(totalFailures := c.totalFailures + more))
  {
  }

  /** The exact boundary: three failures in five requests trip, two do not. */
  lemma TripBoundary()
    ensures ReadyToTrip(Counts(5, 2, 3, 0, 3))
    ensures !ReadyToTrip(Counts(5, 3, 2, 0, 2))
    ensures !ReadyToTrip(Counts(4, 0, 4, 0, 4))
  {
  }

  /** The library's three states. */
  datatype State = StateClosed | StateHalfOpen | StateOpen

  /** The `OnStateChange` gauge value: half-open 1, open 2, anything else 0. */
  function StateGauge(to: State): (g: int)
    ensures 0 <= g <= 2
    ensures g == 0 <==> to == StateClosed
    ensures g == 1 <==> to == StateHalfOpen
    ensures g == 2 <==> to == StateOpen
  {
    match to
    case StateHalfOpen => 1
    case StateOpen => 2
    case _ => 0
  }

  /** The gauge tells the state apart: the encoding is one-to-one. */
  lemma StateGaugeInjective(s: State, t: State)
    requires StateGauge(s) == StateGauge(t)
    ensures s == t
  {
  }

  /** The breaker name, `fmt.Sprintf("%s-%s", a, b)`. */
  function BreakerName(a: string, b: string): (n: string)
    ensures |n| == |a| + 1 + |b|
    ensures n[..|a|] == a && n[|a|] == '-' && n[|a| + 1..] == b
  {
    a + "-" + b
  }

  /** Whether the breaker runs the attempt, and if not, which library error it returns. */
  datatype Admission = Admit | RejectOpen | RejectTooManyRequests

  /** How an `Execute` call is recorded in the breaker's counts. */
  datatype Recorded = NotRecorded | RecordedSuccess | RecordedFailure

  /** An `Execute` error: the library's rejection, or the attempt's own error. */
  datatype ExecError<E> = ErrOpenState | ErrTooManyRequests | Failed(cause: E)

  datatype Outcome<E> = Outcome(err: Option<ExecError<E>>, recorded: Recorded)

  /**
    `Execute`: an admitted attempt runs; its error comes back unchanged and is
    recorded as a failure, a nil error as a success. A rejected attempt does not
    run, is not recorded, and returns the library's error.
  */
  function Execute<E>(admission: Admission, attemptErr: Option<E>): (o: Outcome<E>)
    ensures o.err.Some? <==> (admission != Admit || attemptErr.Some?)
    ensures o.recorded == RecordedFailure <==> (admission == Admit && attemptErr.Some?)
    ensures o.recorded == RecordedSuccess <==> (admission == Admit && attemptErr.None?)
    ensures admission == Admit && attemptErr.Some? ==> o.err == Some(Failed(attemptErr.value))
  {
    match admission
    case Admit =>
      if attemptErr.Some? then Outcome(Some(Failed(attemptErr.value)), RecordedFailure)
      else Outcome(None, RecordedSuccess)
    case RejectOpen => Outcome(Some(ErrOpenState), NotRecorded)
    case RejectTooManyRequests => Outcome(Some(ErrTooManyRequests), NotRecorded)
  }

  /** The status label the probers derive from `Execute`'s error. */
  function Status<E>(o: Outcome<E>): (s: string)
    ensures s == "error" <==> o.err.Some?
    ensures s == "success" <==> o.err.None?
  {
    if o.err.Some? then "error" else "success"
  }

  /** A per-prober counter vector: one count per label value, absent meaning zero. */
  function Bump(m: map<string, nat>, k: string): (m': map<string, nat>)
    ensures m'.Keys == m.Keys + {k}
    ensures m'[k] == (if k in m then m[k] else 0) + 1
    ensures forall j :: j in m && j != k ==> m'[j] == m[j]
  {
    m[k := (if k in m then m[k] else 0) + 1]
  }
}
