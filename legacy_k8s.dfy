/**
  The older Kubernetes prober (`prober` package): inside the breaker it lists
  pods, services and deployments of one namespace, in that order, setting one
  resource-count gauge after each successful list and stopping at the first
  failure.
*/
module LegacyK8s {
  import opened Wrappers
  import Breaker

  const PodsGauge: string := "pods"
  const ServicesGauge: string := "services"
  const DeploymentsGauge: string := "deployments"

  /**
    The error the list sequence returns: the first failing kind, in the order
    pods, services, deployments, as "failed to list <kind>: <err>".
  */
  function ListError(pods: Result<nat, string>, services: Result<nat, string>,
                     deployments: Result<nat, string>): (e: Option<string>)
    ensures e.None? <==> pods.Ok? && services.Ok? && deployments.Ok?
    ensures pods.Err? ==> e == Some("failed to list pods: " + pods.error)
    ensures pods.Ok? && services.Err? ==> e == Some("failed to list services: " + services.error)
    ensures pods.Ok? && services.Ok? && deployments.Err? ==>
              e == Some("failed to list deployments: " + deployments.error)
  {
    if pods.Err? then Some("failed to list pods: " + pods.error)
    else if services.Err? then Some("failed to list services: " + services.error)
    else if deployments.Err? then Some("failed to list deployments: " + deployments.error)
    else None
  }

  class K8sProber {
    const name: string
    const namespace: string
    const rps: real
    /** The breaker's name, "k8s-<namespace>". */
    const breakerName: string

    /** `k8s_probe_resource_count{name, namespace, resource_type}`, keyed by resource type. */
    var resourceCount: map<string, int>
    /** `k8s_probe_errors_total{name, namespace, error_type}` for this prober. */
    var errors: map<string, nat>
    /** `k8s_probe_duration_seconds{name, namespace, status}` observations, as (status, seconds). */
    var durations: seq<(string, real)>
    /** `k8s_probe_circuit_breaker_state{name, namespace}`, keyed by the label pair. */
    var stateGauge: map<(string, string), int>

    /** `NewSimpleProbe`: the probe name is always "k8s". */
    constructor (namespace: string, rps: real)
      ensures name == "k8s" && this.namespace == namespace && this.rps == rps
      ensures breakerName == Breaker.BreakerName("k8s", namespace)
      ensures resourceCount == map[] && errors == map[] && durations == [] && stateGauge == map[]
    {
      name := "k8s";
      this.namespace := namespace;
      this.rps := rps;
      breakerName := Breaker.BreakerName("k8s", namespace);
      resourceCount := map[];
      errors := map[];
      durations := [];
      stateGauge := map[];
    }

    /** The `OnStateChange` callback, with the breaker's own name as the "name" label. */
    method OnStateChange(changed: string, to: Breaker.State)
      modifies this`stateGauge
      ensures stateGauge == old(stateGauge)[(changed, namespace) := Breaker.StateGauge(to)]
    {
      stateGauge := stateGauge[(changed, namespace) := Breaker.StateGauge(to)];
    }

    /**
      The closure passed to `Execute`. Each argument is what one List call
      returned: the number of items, or the error. The first failure returns
      "failed to list <kind>: <err>" and leaves the later gauges as they were.
    */
    method ListResources(pods: Result<nat, string>, services: Result<nat, string>,
                         deployments: Result<nat, string>)
      returns (e: Option<string>)
      modifies this`resourceCount
      ensures e == ListError(pods, services, deployments)
      ensures pods.Err? ==> resourceCount == old(resourceCount)
      ensures pods.Ok? && services.Err? ==> resourceCount == old(resourceCount)[PodsGauge := pods.value]
      ensures pods.Ok? && services.Ok? && deployments.Err? ==>
                resourceCount == old(resourceCount)[PodsGauge := pods.value][ServicesGauge := services.value]
      ensures e.None? ==>
                resourceCount == old(resourceCount)[PodsGauge := pods.value][ServicesGauge := services.value]
                                                   [DeploymentsGauge := deployments.value]
    {
      if pods.Err? {
        return Some("failed to list pods: " + pods.error);
      }
      resourceCount := resourceCount[PodsGauge := pods.value];
      if services.Err? {
        return Some("failed to list services: " + services.error);
      }
      resourceCount := resourceCount[ServicesGauge := services.value];
      if deployments.Err? {
        return Some("failed to list deployments: " + deployments.error);
      }
      resourceCount := resourceCount[DeploymentsGauge := deployments.value];
      e := None;
    }

    /**
      `probe`: the lists run only if the breaker admits the attempt; the status
      is "error" exactly when `Execute` errs, which also counts "request_failed".
    */
    method Probe(admission: Breaker.Admission, pods: Result<nat, string>, services: Result<nat, string>,
                 deployments: Result<nat, string>, elapsed: real)
      returns (o: Breaker.Outcome<string>)
      modifies this`resourceCount, this`errors, this`durations
      ensures o == Breaker.Execute(admission, if admission == Breaker.Admit then ListError(pods, services, deployments) else None)
      ensures admission != Breaker.Admit ==> resourceCount == old(resourceCount) && o.recorded == Breaker.NotRecorded
      ensures admission == Breaker.Admit ==>
                (o.recorded == Breaker.RecordedFailure <==> pods.Err? || services.Err? || deployments.Err?)
      ensures admission == Breaker.Admit && pods.Err? ==> resourceCount == old(resourceCount)
      ensures admission == Breaker.Admit && pods.Ok? && services.Err? ==>
                resourceCount == old(resourceCount)[PodsGauge := pods.value]
      ensures admission == Breaker.Admit && pods.Ok? && services.Ok? && deployments.Err? ==>
                resourceCount == old(resourceCount)[PodsGauge := pods.value][ServicesGauge := services.value]
      ensures admission == Breaker.Admit && pods.Ok? && services.Ok? && deployments.Ok? ==>
                resourceCount == old(resourceCount)[PodsGauge := pods.value][ServicesGauge := services.value]
                                                   [DeploymentsGauge := deployments.value]
      ensures durations == old(durations) + [(Breaker.Status(o), elapsed)]
      ensures errors == (if o.err.Some? then Breaker.Bump(old(errors), "request_failed") else old(errors))
    {
      var attemptErr: Option<string> := None;
      if admission == Breaker.Admit {
        attemptErr := ListResources(pods, services, deployments);
      }
      o := Breaker.Execute(admission, attemptErr);
      var status := "success";
      if o.err.Some? {
        status := "error";
        errors := Breaker.Bump(errors, "request_failed");
      }
      durations := durations + [(status, elapsed)];
    }
  }
}
