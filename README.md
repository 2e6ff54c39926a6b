# health-exporter core, modelled in Dafny

health-exporter is a Prometheus exporter. It probes configured targets over
HTTP, DNS, ICMP and the Kubernetes API at a fixed rate per target. It labels
each attempt with an outcome and writes counters, histograms and gauges. This
project models the parts that decide *what* is scheduled and *how* an attempt
is labelled, in both versions of the code:

- the current `internal/` tree: the interval policy (`IntervalFromRPS`),
  configuration defaulting and validation (`setDefaults`, `validate`, `Load`),
  the HTTP, DNS and ICMP probes (request shaping and outcome classification),
  and the app's probe-list assembly (`buildProbes`, `setupK8SProbes`, `New`);
- the older `prober` package: whole-millisecond interval truncation
  (`calculateInterval`), the circuit-breaker policy shared by the HTTP, DNS and
  Kubernetes probers (trip predicate, state gauge, failure rules), the older
  HTTP error classifier, the Kubernetes list-and-gauge sequence, and the older
  ICMP prober.

Files, one module each:

| file | module | models |
|---|---|---|
| wrappers.dfy | Wrappers | `Option` and `Result` |
| goerrors.dfy | GoErrors | Go error chains: `errors.As`, `Timeout()` delegation |
| text.dfy | Text | `strconv.Itoa`, `strings.ToUpper`, `net.JoinHostPort`, `%q` |
| interval.dfy | Interval | `internal/probe/probe.go`, `prober/utils.go` |
| config.dfy | Config | `internal/config/config.go` |
| http_probe.dfy | HttpProbe | `internal/probe/http/probe.go` |
| dns_probe.dfy | DnsProbe | `internal/probe/dns/probe.go` |
| icmp_probe.dfy | IcmpProbe | `internal/probe/icmp/probe.go` |
| app.dfy | App | `internal/app/app.go`, `internal/probe/k8s/simple.go` (constructor) |
| breaker.dfy | Breaker | the breaker settings and callbacks of `prober/http.go`, `prober/dns.go`, `prober/k8s_simple.go` |
| legacy_http.dfy | LegacyHttp | `prober/http.go` |
| legacy_dns.dfy | LegacyDns | `prober/dns.go` |
| legacy_k8s.dfy | LegacyK8s | `prober/k8s_simple.go` |
| legacy_icmp.dfy | LegacyIcmp | `prober/icmp.go` |

Modelling conventions:

- Rates are exact `real`s. Durations are integer nanoseconds, like Go's
  `time.Duration`. A float-to-`Duration` conversion of a non-negative value is
  `Floor`.
- Go errors form a datatype of chains (`*url.Error`, `*net.OpError`,
  `*net.DNSError`, `*net.ParseError`, `%w` wrappers, opaque leaves).
  `errors.As` returns the first link of the matching type. `Timeout()` follows
  the standard library's delegation, which uses one type assertion and does not
  unwrap.
- Configuration values are datatypes (Go value semantics). `setDefaults` is a
  method with one loop per list. It returns the updated configuration.
  `validate` is a pure first-error function.
- The network, the clock, the resolv.conf lookup, the Kubernetes client and the
  breaker's admission decision are inputs: a DNS reply or an exchange error,
  the trace-hook events in order, the ping replies, the list results, and
  whether the breaker admits the attempt.
- The older probers are classes. Their fields are the prober's settings. Each
  metric vector the prober writes is a field: a counter map, a list of
  histogram observations, or a gauge. The current probes' metric writes are
  returned as label maps.

Behaviour of the code that a reader may not expect, which the model follows:

- HTTP status codes below 200 are labelled `http_other_error`, a label
  outside the taxonomy the other classifiers produce.
- The current DNS probe drops the response time for a non-zero RCODE. The
  response-time histogram then gets 0 for those replies.
- The current tree has no circuit breaker. Only the older probers configure
  one.
- The older ICMP prober truncates the period to whole milliseconds and does
  not clamp it. Above 1000 requests per second the period is 0 (see Findings).
  The older HTTP, DNS and Kubernetes probers divide one second by the rate
  with nanosecond precision.
- The older ICMP prober never reports a round-trip time or TTL. Its reply
  callback is installed after the ping has finished, so a successful ping
  always gives the zero result (see Findings).
- The older Kubernetes prober always lists pods, services and deployments, in
  that order.

## Model

| member | source | states |
|---|---|---|
| Interval.Ticks | internal/probe/probe.go:17 | the converted period is the largest whole number of nanoseconds not above 1e9/rps, and it fits in an int64 |
| Interval.IntervalFromRPS | internal/probe/probe.go:12-22 | the period is between 1 ms and MaxInt64; a non-positive rate gives 1 s; a truncated period of at least 1 ms is kept unchanged |
| Interval.IntervalAboveThousand | internal/probe/probe.go:18-20 | above 1000 rps the period is exactly the 1 ms floor |
| Interval.IntervalIsReciprocal | internal/probe/probe.go:17-21 | for 0 < rps <= 1000, d·rps <= 1e9 < (d+1)·rps: the period is 1/rps rounded down to the nanosecond |
| Interval.IntervalMonotonic | internal/probe/probe.go:12-22 | a faster rate never gives a longer period |
| Interval.CalculateInterval | prober/utils.go:5-7 | the older period is floor(1000/rps) whole milliseconds, always a multiple of 1 ms, and fits in an int64 |
| Interval.CalculateIntervalZeroAboveThousand | prober/utils.go:6 | above 1000 rps the older period is 0 |
| Interval.CalculateIntervalMonotonic | prober/utils.go:6 | for positive rates the older period does not increase as the rate grows |
| Interval.LegacyIntervalTruncatesToMillisecond | prober/utils.go:5-7 | up to 1000 rps the older period is at most the newer one and less than 1 ms shorter |
| GoErrors.Unwrap | internal/probe/http/probe.go:160-162 | `errors.Unwrap` returns a strictly smaller error, so chains are finite |
| GoErrors.Chain | internal/probe/http/probe.go:160-162 | the chain `errors.As` walks starts with the error itself |
| GoErrors.As | internal/probe/http/probe.go:154-155 | a found link has the asked type and lies on the chain; when none is found, no link of the chain has that type |
| GoErrors.AsIsFirst | internal/probe/http/probe.go:154-155 | what `errors.As` finds is the first link of the chain with that type |
| Text.NatToString | internal/probe/http/probe.go:63 | `strconv.Itoa` of a natural number: decimal digits only, no leading zero |
| Text.Itoa | internal/probe/dns/probe.go:58 | the text is non-empty and starts with '-' exactly for negative numbers |
| Text.NatToStringRoundTrip | internal/probe/dns/probe.go:58 | reading back the decimal digits gives the number |
| Text.ItoaInjective | internal/probe/dns/probe.go:58 | different numbers give different labels |
| Text.UpperRune | internal/probe/dns/probe.go:113 | 'a'..'z' become 'A'..'Z', U+0131 becomes 'I', U+017F becomes 'S', every other character is kept, and the result is never upper-cased again |
| Text.ToUpper | internal/probe/dns/probe.go:113 | `strings.ToUpper` keeps the length; each ASCII lower-case letter becomes its capital, U+0131 becomes 'I', U+017F becomes 'S', every other character is kept, and no character of the result is upper-cased again |
| Text.ToUpperIdempotent | internal/probe/dns/probe.go:113 | upper-casing twice equals upper-casing once |
| Text.JoinHostPort | internal/probe/dns/probe.go:35 | the address ends in ":" and the port, and what precedes that is the host, bracketed exactly when it contains ':' |
| Text.Quote | internal/config/config.go:155 | `%q` puts the name between double quotes and changes nothing inside |
| Config.DefaultHTTP | internal/config/config.go:98-102 | a non-positive timeout becomes 3 s; nothing else changes |
| Config.DefaultDNS | internal/config/config.go:109-122 | each of timeout, record type, server IP and server port falls back to its default exactly when unset; name, domain and rate are kept |
| Config.DefaultK8s | internal/config/config.go:124-128 | a non-positive rate becomes exactly 1 and nothing else changes; a positive rate leaves the probe unchanged |
| Config.DefaultICMP | internal/config/config.go:130-137 | timeout and TTL fall back to 2 s and 64 exactly when non-positive |
| Config.DefaultListen | internal/config/config.go:94-96 | an empty listen address becomes ":9876", a set one is kept, so it is never empty |
| Config.Defaults | internal/config/config.go:93-140 | defaulting keeps every list's length and the K8s switch, and sets the listen address |
| Config.SetDefaults | internal/config/config.go:93-140 | a failed resolver lookup returns its error after listen and HTTP defaults only; otherwise the result is the fully defaulted configuration |
| Config.DefaultsEstablishDefaulted | internal/config/config.go:93-140 | after defaulting, every field it fills holds a usable value |
| Config.DefaultsIdempotent | internal/config/config.go:93-140 | defaulting twice with the same resolver equals defaulting once |
| Config.FirstHTTPErrorNone | internal/config/config.go:150-160 | the HTTP loop passes exactly when every target has a name, a URL and a positive rate |
| Config.FirstDNSErrorNone | internal/config/config.go:162-172 | the DNS loop passes exactly when every target has a name, a domain and a positive rate |
| Config.FirstNamespaceErrorNone | internal/config/config.go:178-182 | the namespace loop passes exactly when every namespace is set |
| Config.FirstICMPErrorNone | internal/config/config.go:185-195 | the ICMP loop passes exactly when every target has a name, a host and a positive rate |
| Config.Validate | internal/config/config.go:142-198 | `validate` accepts a configuration exactly when it satisfies every rule, as the independently written `Valid` states them |
| Config.FirstHTTPErrorIsFirstFailure | internal/config/config.go:150-160 | the error reported is the one of the first failing HTTP target |
| Config.FirstDNSErrorIsFirstFailure | internal/config/config.go:162-172 | the error reported is the one of the first failing DNS target |
| Config.FirstICMPErrorIsFirstFailure | internal/config/config.go:185-195 | the error reported is the one of the first failing ICMP target |
| Config.ValidateReportsFirstHTTPFailure | internal/config/config.go:142-160 | with probes configured, the first failing HTTP target's error wins over every later check |
| Config.ValidateReportsFirstDNSFailure | internal/config/config.go:162-172 | once HTTP passes, the first failing DNS target's error is reported |
| Config.ValidateChecksK8sBeforeICMP | internal/config/config.go:174-195 | once HTTP and DNS pass, a K8s error is reported before any ICMP error |
| Config.ValidateReportsFirstICMPFailure | internal/config/config.go:185-195 | once HTTP, DNS and K8s pass, the first failing ICMP target's error is reported |
| Config.SectionErrorsAreNotNoProbes | internal/config/config.go:150-195 | no per-section message is "no probes configured" |
| Config.ValidateNoProbesIff | internal/config/config.go:143-148 | "no probes configured" is reported exactly when there is nothing to probe |
| Config.Load | internal/config/config.go:72-91 | a defaulting error or a validation error is returned and the configuration discarded; otherwise the defaulted configuration is returned |
| Config.LoadedRatesPositive | internal/config/config.go:72-91 | every target of a loaded configuration has a positive rate |
| HttpProbe.New | internal/probe/http/probe.go:30-37 | the unit keeps its target, and its period is between 1 ms and MaxInt64 (1 s for a non-positive rate) |
| HttpProbe.ClassifyStatus | internal/probe/http/probe.go:140-151 | each status code gets exactly one of four labels: 200–399 success, 400–499 client error, 500 and above server error, below 200 other |
| HttpProbe.ClassifyError | internal/probe/http/probe.go:153-172 | the label is one of four; "timeout" exactly when the first `net.Error` of the chain times out; otherwise the first `*url.Error` of the chain decides: a DNS error anywhere inside it gives "dns_error", else a parse error "address_error", else "connection_failed"; without a `*url.Error` only "timeout" or "connection_failed" |
| HttpProbe.ClassifyUrlError | internal/probe/http/probe.go:159-169 | under a non-timeout `*url.Error`, a DNS error anywhere inside gives "dns_error", else a parse error gives "address_error", else "connection_failed" |
| HttpProbe.ClassifyNonUrlError | internal/probe/http/probe.go:153-172 | without a `*url.Error` in the chain, only "timeout" or "connection_failed" can result |
| HttpProbe.ReplayErrorIsLastFailure | internal/probe/http/probe.go:95-103 | the reported DNS error is the message of the last failed lookup |
| HttpProbe.ReplayNoFailureNoError | internal/probe/http/probe.go:99-101 | without a failed lookup the DNS error stays empty |
| HttpProbe.ReplayNoStartNoLookup | internal/probe/http/probe.go:96-98 | without a DNSStart hook the lookup time stays 0 |
| HttpProbe.OneLookup | internal/probe/http/probe.go:91-104 | one start and one done give the lookup's own duration and error |
| HttpProbe.ResultLabel | internal/probe/http/probe.go:55-58 | an explicit result label wins; otherwise the status class is used |
| HttpProbe.PerformRequest | internal/probe/http/probe.go:86-138 | an unbuildable request gives only "request_build_error"; a transport error gives its class with the hook results; a response gives its code with the hook results; the final label is always one of the nine |
| HttpProbe.ProbeOnce | internal/probe/http/probe.go:53-76 | the request labels are url, name, status_code and result; the DNS observation adds dns_error to the same labels |
| HttpProbe.BuildErrorLabels | internal/probe/http/probe.go:108-112 | an unbuildable request is counted as "request_build_error" with status code "0" |
| DnsProbe.RcodeToString | internal/probe/dns/probe.go:100 | a code has a name exactly when it is 0 to 10; "NOERROR" exactly for 0; 3 is "NXDOMAIN" |
| DnsProbe.RcodeToStringInjective | internal/probe/dns/probe.go:100 | a non-empty rcode label identifies its code |
| DnsProbe.New | internal/probe/dns/probe.go:29-37 | the unit keeps its target, and its period is between 1 ms and MaxInt64 (1 s for a non-positive rate) |
| DnsProbe.ServerAddress | internal/probe/dns/probe.go:35 | the resolver address ends in ":" and the port, after the IP, bracketed exactly when it contains ':' |
| DnsProbe.ParseRecordType | internal/probe/dns/probe.go:112-139 | parsing succeeds exactly when the upper-cased name is one of the eleven types, with that type's code; otherwise the error names the original spelling |
| DnsProbe.ParseRecordTypeIgnoresCase | internal/probe/dns/probe.go:113 | spellings with the same upper case parse alike |
| DnsProbe.ParseRecordTypeOfUpper | internal/probe/dns/probe.go:113 | a name and its upper case parse alike |
| DnsProbe.ParseRecordTypeExamples | internal/probe/dns/probe.go:112-139 | "aaaa" is 28, "Mx" is 15, "ſoa" is SOA, "HINFO" and "" fail |
| DnsProbe.ClassifyDNSError | internal/probe/dns/probe.go:141-147 | "timeout" exactly when the first `*net.OpError` of the chain times out; "error" otherwise |
| DnsProbe.BareTimeoutIsError | internal/probe/dns/probe.go:141-147 | a timeout outside any `*net.OpError` is "error" |
| DnsProbe.Fqdn | internal/probe/dns/probe.go:85 | the question name ends in a dot and extends the configured domain by at most that dot; a name already ending in a dot is returned unchanged |
| DnsProbe.Msg.constructor | internal/probe/dns/probe.go:76 | a new message is zeroed |
| DnsProbe.Msg.SetQuestion | internal/probe/dns/probe.go:85-86 | the message carries the id, the RD bit and exactly one IN question |
| DnsProbe.ShapeStats | internal/probe/dns/probe.go:75-110 | success exactly for a parsed type and a NOERROR reply; an unknown type gives rcode value -1 and "error"; a transport error keeps the time and its class; a non-zero RCODE drops the time |
| DnsProbe.NxdomainIsError | internal/probe/dns/probe.go:97-103 | an NXDOMAIN reply is "error" with rcode label "NXDOMAIN" and value 3 |
| DnsProbe.SendRequest | internal/probe/dns/probe.go:75-110 | the stats are the shaped outcome; nothing is sent for an unknown type; otherwise one recursive query for the fully qualified domain |
| DnsProbe.ProbeOnce | internal/probe/dns/probe.go:53-66 | the six labels carry domain, rcode, rcode value, result, name and server |
| DnsProbe.ServerAddressExamples | internal/probe/dns/probe.go:35 | the resolver address is "ip:port", with brackets for IPv6 |
| IcmpProbe.New | internal/probe/icmp/probe.go:23-29 | the unit keeps its target, and its period is between 1 ms and MaxInt64 (1 s for a non-positive rate) |
| IcmpProbe.SendRequest | internal/probe/icmp/probe.go:71-96 | a creation error gives only the error; otherwise the last reply sets the round trip and TTL (the configured TTL when none arrived) and a run error is added to them |
| IcmpProbe.ResultLabel | internal/probe/icmp/probe.go:47-50 | "icmp_success" exactly when there is no error |
| IcmpProbe.ProbeOnce | internal/probe/icmp/probe.go:45-63 | the labels are host, name, ttl and result, the TTL taken from the stats; the round trip is observed in seconds |
| App.NewK8sSimpleProbe | internal/probe/k8s/simple.go:24-31 | the K8s unit keeps its namespace, and its period is between 1 ms and MaxInt64 (1 s for a non-positive rate) |
| App.HttpRunnersAt | internal/app/app.go:74-77 | the i-th HTTP unit is built from the i-th HTTP target |
| App.DnsRunnersAt | internal/app/app.go:79-82 | the i-th DNS unit is built from the i-th DNS target |
| App.IcmpRunnersAt | internal/app/app.go:84-87 | the i-th ICMP unit is built from the i-th ICMP target |
| App.K8sRunnersAt | internal/app/app.go:107-110 | the i-th K8s unit polls the i-th namespace at its rate's period |
| App.ExpectedProbes | internal/app/app.go:73-111 | the probe count is \|HTTP\| + \|DNS\| + \|ICMP\| + (K8s enabled ? \|namespaces\| : 0) |
| App.ProbeOrder | internal/app/app.go:73-111 | the list is the HTTP block, then DNS, then ICMP, then (when enabled) K8s |
| App.App.constructor | internal/app/app.go:37-40 | a new app holds the configuration and no probes |
| App.App.BuildProbes | internal/app/app.go:73-96 | with K8s disabled no client is requested and the build cannot fail; a client error is returned wrapped, after the HTTP, DNS and ICMP units have been added |
| App.App.AppendHttp | internal/app/app.go:74-77 | the HTTP loop appends one unit per target, in order |
| App.App.AppendDns | internal/app/app.go:79-82 | the DNS loop appends one unit per target, in order |
| App.App.AppendIcmp | internal/app/app.go:84-87 | the ICMP loop appends one unit per target, in order |
| App.App.SetupK8SProbes | internal/app/app.go:98-112 | a client error is returned as "k8s client: …" before any K8s unit is added; otherwise one unit per namespace is appended |
| App.New | internal/app/app.go:36-54 | there is an app exactly when there is no error; a K8s client error gives no app and the wrapped error; with K8s disabled an app is always returned, holding the expected probe list |
| Breaker.ReadyToTrip | prober/http.go:106-109 | the breaker trips exactly when requests >= 5 and 5·failures >= 3·requests |
| Breaker.FewerThanFiveNeverTrips | prober/http.go:108 | fewer than five requests never trip |
| Breaker.AllFailedTrips | prober/http.go:106-109 | five or more requests that all failed trip |
| Breaker.TripMonotoneInFailures | prober/http.go:106-109 | more failures over the same requests still trip |
| Breaker.TripBoundary | prober/http.go:106-109 | 3 failures in 5 requests trip; 2 in 5, and 4 in 4, do not |
| Breaker.StateGauge | prober/http.go:112-119 | half-open is 1, open is 2, closed is 0 |
| Breaker.StateGaugeInjective | prober/http.go:112-119 | the gauge value determines the state |
| Breaker.BreakerName | prober/http.go:102 | the name is the two parts joined by '-' |
| Breaker.Execute | prober/http.go:187-199 | an admitted attempt's error is returned and recorded as a failure, no error as a success; a rejected attempt does not run, is not recorded, and errs |
| Breaker.Status | prober/http.go:201-205 | the status is "error" exactly when `Execute` errs |
| Breaker.Bump | prober/http.go:205 | an increment raises one label value's count by one and leaves the others |
| LegacyHttp.AttemptError | prober/http.go:187-199 | the attempt fails exactly on a transport error or a status of 400 or more |
| LegacyHttp.BreakerFailureRule | prober/http.go:187-199 | an admitted attempt is a breaker failure exactly on a transport error or status >= 400; a lower status is a recorded success |
| LegacyHttp.ErrorType | prober/http.go:259-279 | the label is one of four; "timeout" exactly for a top-level `net.Error` that times out; "dns_error" and "address_error" only for a URL error directly around an OpError directly around a DNS or parse error |
| LegacyHttp.ErrorTypeShapes | prober/http.go:268-275 | those two exact shapes give "dns_error" (or "timeout" when the DNS error times out) and "address_error" |
| LegacyHttp.NewerClassifierAgrees | prober/http.go:259-279 | every specific label of the older classifier is also the newer classifier's label |
| LegacyHttp.WrappingHidesCause | prober/http.go:259-279 | a wrapped timeout, or a DNS error one wrap deeper, is "connection_failed" for the older classifier but not for the newer one |
| LegacyHttp.HttpProber.constructor | prober/http.go:80-135 | the prober keeps its settings, and its breaker is named "<name>-<url>" |
| LegacyHttp.HttpProber.OnStateChange | prober/http.go:110-120 | the state gauge for (breaker name, url) is set to the state's code |
| LegacyHttp.HttpProber.Probe | prober/http.go:173-210 | an unbuildable request bypasses the breaker, counts "request_creation" and records no duration; otherwise the status is "error" exactly when `Execute` errs, which counts "request_failed", and one duration is recorded |
| LegacyHttp.SuccessfulProbeCountsNothing | prober/http.go:194-209 | an admitted status below 400 is a success |
| LegacyDns.QuestionType | prober/dns.go:129 | the type is looked up case-sensitively, 0 when unknown |
| LegacyDns.LookupIsCaseSensitive | prober/dns.go:129 | "aaaa" asks for type 0 here but parses to AAAA in the newer probe |
| LegacyDns.AttemptError | prober/dns.go:132-146 | an exchange error fails; a reply fails exactly when its RCODE is not 0 |
| LegacyDns.DnsProber.constructor | prober/dns.go:70-109 | the prober keeps its settings, and its breaker is named "<name>-<domain>" |
| LegacyDns.DnsProber.OnStateChange | prober/dns.go:85-95 | the state gauge for (breaker name, domain) is set to the state's code |
| LegacyDns.DnsProber.Attempt | prober/dns.go:132-146 | an exchange error leaves the rcode gauge alone; a reply sets it before its code is judged |
| LegacyDns.DnsProber.Probe | prober/dns.go:125-157 | the question is the domain as configured; the exchange runs only when admitted; the rcode gauge changes only for an admitted reply; the status is "error" exactly when `Execute` errs, which counts "request_failed" |
| LegacyDns.BreakerFailureRule | prober/dns.go:133-145 | an admitted attempt is a breaker failure exactly on an exchange error or a non-zero RCODE |
| LegacyDns.NxdomainMessage | prober/dns.go:141-143 | an NXDOMAIN reply fails with "DNS error: NXDOMAIN" |
| LegacyK8s.K8sProber.constructor | prober/k8s_simple.go:70-100 | the probe name is "k8s" and the breaker is named "k8s-<namespace>" |
| LegacyK8s.K8sProber.OnStateChange | prober/k8s_simple.go:80-90 | the state gauge for (breaker name, namespace) is set to the state's code |
| LegacyK8s.ListError | prober/k8s_simple.go:119-142 | the list sequence errs exactly when a list fails, with "failed to list <kind>: " and the error of the first failing kind in the order pods, services, deployments |
| LegacyK8s.K8sProber.ListResources | prober/k8s_simple.go:119-142 | the error is `ListError`; the first failure stops the rest and leaves later gauges unchanged, earlier ones set; full success sets all three |
| LegacyK8s.K8sProber.Probe | prober/k8s_simple.go:116-153 | the outcome is `Execute` of the list error, the lists running only when admitted; a rejected attempt touches no gauge; an admitted one is a breaker failure exactly when a list fails, and leaves the gauges as `ListResources` does, partial failures included; the status is "error" exactly when `Execute` errs, which counts "request_failed" |
| LegacyIcmp.ErrorResult | prober/icmp.go:75 | an error result carries the error and nothing else |
| LegacyIcmp.NewTicker | prober/icmp.go:103 | a ticker starts exactly for a positive period |
| LegacyIcmp.CalculateIntervalPositive | prober/icmp.go:67-69 | up to 1000 rps the truncated period is at least 1 ms |
| LegacyIcmp.TickerRefusesAboveThousand | prober/icmp.go:67-69 | above 1000 rps the period is 0 and the ticker refuses it |
| LegacyIcmp.CorrectedInterval | prober/icmp.go:67-69 | the corrected period is a positive whole number of milliseconds, equal to the truncated one whenever that is positive, and exactly 1 ms when the truncation gives 0 |
| LegacyIcmp.CorrectedTickerAccepted | prober/icmp.go:101-104 | the corrected period always starts a ticker |
| LegacyIcmp.StartLabel | prober/icmp.go:114-119 | "icmp_success" exactly when there is no error |
| LegacyIcmp.FirstMissing | prober/icmp.go:121-132 | the first declared label name absent from the map, if any |
| LegacyIcmp.With | prober/icmp.go:121-132 | a vector accepts a label map exactly when the count matches and every declared name is present |
| LegacyIcmp.Icmp.constructor | prober/icmp.go:56-66 | the prober keeps its settings and has no ticker |
| LegacyIcmp.Icmp.SendRequest | prober/icmp.go:71-99 | a creation or run failure gives a result with only the error; a successful run gives the zero result whatever replies arrived |
| LegacyIcmp.Icmp.SendRequestCorrected | prober/icmp.go:71-99 | with the callback installed before the run, a successful run reports the size, address, sequence number, RTT and TTL of the last reply (the zero result when none arrived); failures still give only the error |
| LegacyIcmp.Icmp.TickLabels | prober/icmp.go:121-131 | the labels are host, result, name and the result's TTL |
| LegacyIcmp.Icmp.TickAsWritten | prober/icmp.go:112-133 | the request counter accepts the labels and the duration write into the HTTP vector always fails |
| LegacyIcmp.Icmp.Tick | prober/icmp.go:112-133 | with the ICMP duration vector both writes accept the labels |
| LegacyIcmp.Icmp.StartAsWritten | prober/icmp.go:101-104 | the ticker starts with the truncated period only when that period is positive |
| LegacyIcmp.Icmp.Start | prober/icmp.go:101-104 | with the corrected period the ticker always starts |
| LegacyIcmp.HttpDurationsRefuseTickLabels | prober/icmp.go:127-132 | the HTTP duration vector refuses every tick's labels, naming "status_code"; the ICMP vectors accept them |
| LegacyIcmp.SuccessfulPingLabels | prober/icmp.go:82-97 | a successful ping is labelled a success with TTL "0" |

## Left out

- The ticker loops (`Run`, `Start`), the per-tick goroutines, the errgroup and context cancellation: these are concurrency, and they only call the modelled per-attempt logic.
- HTTP client and transport construction (`buildClient`, `buildHTTP2Transport`, the transport in `NewHttp`) and the DNS client: they are configuration of foreign libraries. Their effect (a response or an error) is an input.
- The network, the clock and the resolv.conf lookup (`lookupDefaultDNSServer`): they are I/O. Their results are parameters.
- Reading and parsing the YAML file in `Load`: this is I/O and a foreign parser. The parsed configuration is an input, and the "read config" and "unmarshal config" error paths are not modelled.
- The HTTP server, `newMux`, metric registration, `RegisterClientGoMetrics` and logging: side effects outside the core.
- The Kubernetes client and the current `SimpleProbe`'s list call: they belong to client-go. Only the unit's namespace and period are modelled.
- The breaker's state machine (windows, cooldown, half-open quota): it lives in a foreign library. Whether it admits an attempt is an input.
- Breaker.ReadyToTrip: the ratio is compared as an exact rational, not after float64 division. For 32-bit counts the gap between a ratio below 0.6 and 0.6 is at least 1/(5·2^32), far above one rounding step, so the outcome is the same. This argument is not proved.
- Interval.IntervalFromRPS: requires the period to fit in an int64. Go's conversion of a larger float is implementation-specific.
- Interval.CalculateInterval: requires a positive rate whose period fits an int64. A negative rate has a well-defined result in Go: the conversion truncates toward zero, so a rate of -3 gives a period of -333 ms, and `time.NewTicker` then panics. The model excludes that case rather than modelling the panic. Only a zero rate (1000/0 is +Inf) and periods outside the int64 range convert in implementation-specific ways.
- Text.ToUpper: only the characters whose upper case is an ASCII letter are mapped. Other characters are kept unchanged. This cannot change which record types match.
- Text.Quote: `%q` is modelled without escaping. Names that need escaping are not modelled.
- DnsProbe.Fqdn: the library's rule for an escaped trailing dot is not modelled.
- DnsProbe.RcodeToString: only codes 0 to 10 have names. Other codes give "".
- LegacyDns.DnsProber.Probe: the question is the domain exactly as configured, without the trailing dot the newer probe adds with `dns.Fqdn` (prober/dns.go:129). The DNS library is not part of this model. If it refuses to pack a name that is not fully qualified, every exchange for such a domain fails. The model takes the exchange result as an input and so does not decide this.
- LegacyDns.QuestionType: `dns.StringToType` also knows many types beyond the eleven listed here. The model gives 0 for them.
- Message ids: the library picks a random id. Here it is the parameter `newId`.
- Legacy `Start` periods of the HTTP, DNS and Kubernetes probers, `time.Duration(float64(time.Second)/rps)`: this is the `Interval.Ticks` expression without the clamp. Their loops are not modelled.
- `sendRequest` and the `HTTPResult` type in prober/http.go: nothing calls them, and `probe` does not use them. Its classifier `errorType` is modelled anyway (`LegacyHttp.ErrorType`), to compare it with the newer one.
- LegacyIcmp.Icmp.Tick: the observed value is `float64(stats.RTT)`, in nanoseconds, as the code writes it. It is always 0 anyway (see above).
- The older probers' metric vectors are global and shared by every prober with the same labels. Here each prober holds its own slice of them.
- prober/manager.go, main.go and config/config.go: they call constructors with signatures that do not match the definitions (`NewDns`, `NewIcmp`, a 5-argument `NewDNS`, a 4-argument `NewK8s`), so they cannot be modelled as written. prober/k8s.go and prober/k8s_common.go are client-go adapters. internal/metrics/* and metrics/metrics.go only declare metric vectors.

## Findings

| source | as written | input that shows it | evidently intended | confidence | as-written member | corrected member |
|---|---|---|---|---|---|---|
| prober/icmp.go:127-132 | each tick observes its duration into `httpDurations`. That vector is declared with the labels name, status_code, result and url. The tick passes a map with host, result, name and ttl, so `With` panics in the tick goroutine, which ends the process | any tick; a successful ping, for instance, has result "icmp_success" and ttl "0" | observe into `icmpDurations`, which is declared with exactly these label names | not executed; high | LegacyIcmp.Icmp.TickAsWritten (with LegacyIcmp.HttpDurationsRefuseTickLabels) | LegacyIcmp.Icmp.Tick |
| prober/icmp.go:103 | `Start` passes `calculateInterval()` straight to `time.NewTicker`. That period is floor(1000/RPS) whole milliseconds, so it is 0 above 1000 RPS, and `NewTicker` panics on a non-positive period | RPS = 2000 | a positive period; the newer `IntervalFromRPS` floors the period at 1 ms | not executed; high | LegacyIcmp.Icmp.StartAsWritten (with LegacyIcmp.TickerRefusesAboveThousand) | LegacyIcmp.Icmp.Start (with LegacyIcmp.CorrectedInterval) |
| prober/icmp.go:82-96 | `sendRequest` sets `pinger.OnRecv` only after `pinger.Run()` has returned. Every reply arrives during `Run`, when no callback is installed, so a successful ping always reports size, RTT and TTL 0 | a ping answered by one reply with TTL 64 and RTT 5 ms: the tick is labelled ttl "0" and observes 0 | install the callback before `Run`, so the last reply's fields are reported | not executed; high | LegacyIcmp.Icmp.SendRequest (with LegacyIcmp.SuccessfulPingLabels) | LegacyIcmp.Icmp.SendRequestCorrected |
