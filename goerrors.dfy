/**
  A model of the Go error values the probes inspect.

  An error is a chain: the outer value may wrap an inner one that `errors.Unwrap`
  returns. The probes look for four concrete types (`*url.Error`, `*net.OpError`,
  `*net.DNSError`, `*net.ParseError`), for the `net.Error` interface (anything with
  a `Timeout()` method), and see everything else as an opaque error.
*/
module GoErrors {
  import opened Wrappers

  datatype GoError =
    /** `*url.Error`, as returned by `http.Client.Do`; unwraps to `err`. */
    | UrlError(err: GoError)
      /** `*net.OpError`; unwraps to `err`. */
    | OpError(err: GoError)
      /** `*net.DNSError`, with its `IsTimeout` flag. */
    | DnsError(isTimeout: bool)
      /** `*net.ParseError` (an unparsable address). */
    | ParseError
      /** A `fmt.Errorf("...: %w", err)` wrapper: no `Timeout()` method, unwraps to `err`. */
    | Wrapped(err: GoError)
      /** Any other error; `netError` says whether it has a `Timeout()` method. */
    | Leaf(netError: bool, timeout: bool)

  /** The concrete types (and the one interface) the probes search for with `errors.As`. */
  datatype Kind = NetErrorKind | UrlKind | OpKind | DnsKind | ParseKind

  /** Whether the value implements `net.Error` (has a `Timeout()` method). */
  predicate HasTimeoutMethod(e: GoError)
  {
    match e
    case UrlError(_) => true
    case OpError(_) => true
    case DnsError(_) => true
    case ParseError => true
    case Wrapped(_) => false
    case Leaf(netError, _) => netError
  }

  /**
    The value's own `Timeout()` answer. `*url.Error` and `*net.OpError` ask their
    direct inner error by type assertion, without unwrapping further; a value
    without the method answers false.
  */
  predicate Timeout(e: GoError)
  {
    match e
    case UrlError(inner) => HasTimeoutMethod(inner) && Timeout(inner)
    case OpError(inner) => HasTimeoutMethod(inner) && Timeout(inner)
    case DnsError(t) => t
    case ParseError => false
    case Wrapped(_) => false
    case Leaf(netError, t) => netError && t
  }

  /** `errors.Unwrap`. */
  function Unwrap(e: GoError): (r: Option<GoError>)
    ensures r.Some? ==> r.value < e
  {
    match e
    case UrlError(inner) => Some(inner)
    case OpError(inner) => Some(inner)
    case Wrapped(inner) => Some(inner)
    case _ => None
  }

  /** The chain `errors.As` walks: the error itself, then what it unwraps to, and so on. */
  function Chain(e: GoError): (c: seq<GoError>)
    ensures |c| >= 1 && c[0] == e
    decreases e
  {
    match Unwrap(e)
    case None => [e]
    case Some(inner) => [e] + Chain(inner)
  }

  predicate Matches(e: GoError, k: Kind)
  {
    match k
    case NetErrorKind => HasTimeoutMethod(e)
    case UrlKind => e.UrlError?
    case OpKind => e.OpError?
    case DnsKind => e.DnsError?
    case ParseKind => e.ParseError?
  }

  /**
    `errors.As(e, &target)` for a target of kind `k`: the first link of the chain
    that has that type, if any.
  */
  function As(e: GoError, k: Kind): (r: Option<GoError>)
    ensures r.Some? ==> Matches(r.value, k) && r.value in Chain(e)
    ensures r.None? ==> forall x :: x in Chain(e) ==> !Matches(x, k)
    decreases e
  {
    if Matches(e, k) then Some(e)
    else match Unwrap(e)
      case None => None
      case Some(inner) =>
        assert Chain(e) == [e] + Chain(inner);
        As(inner, k)
  }

  /** What `errors.As` finds is the FIRST link of the chain of that type. */
  lemma {:induction false} AsIsFirst(e: GoError, k: Kind, i: nat)
    requires i < |Chain(e)| && Matches(Chain(e)[i], k)
    requires forall j :: 0 <= j < i ==> !Matches(Chain(e)[j], k)
    ensures As(e, k) == Some(Chain(e)[i])
    decreases e
  {
    if i > 0 {
      var inner := Unwrap(e).value;
      assert Chain(e) == [e] + Chain(inner);
      forall j | 0 <= j < i - 1 ensures !Matches(Chain(inner)[j], k) {
        assert Chain(inner)[j] == Chain(e)[j + 1];
      }
      AsIsFirst(inner, k, i - 1);
    }
  }

  /** Whether the chain carries an error of kind `k` anywhere. */
  predicate Carries(e: GoError, k: Kind)
  {
    As(e, k).Some?
  }
}
