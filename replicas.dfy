/**
 * pkg/server/replicas.go: the replica lookup in the informer's cache, the
 * replica reader and the scaler. Both handler closures assign a non-empty
 * `namespace` query parameter to the variable they capture, so it stays the
 * default for later requests to the same handler; the namespace that
 * `GetNamespace` returns is a fresh local and does not persist.
 */
module Replicas {
  import opened Wrappers
  import opened GoInts
  import opened Http
  import opened ServerTypes
  import opened Namespaces
  import opened Cluster

  /** `getReplicas`' three results: desired and available counts and the lister's error. */
  datatype ReplicaCounts = ReplicaCounts(desired: uint64, available: uint64, err: Option<string>)

  /**
   * `getReplicas`: the cached Deployment's reported counts, widened to
   * `uint64`, or zeros and the lister's not-found error.
   */
  function GetReplicas(functionName: string, namespace: string, lister: map<string, Deployment>): (r: ReplicaCounts)
    ensures r.err.None? <==> functionName in lister
    ensures functionName in lister ==>
      && r.desired == Uint64FromInt32(lister[functionName].status.replicas)
      && r.available == Uint64FromInt32(lister[functionName].status.availableReplicas)
    ensures functionName !in lister ==> r.desired == 0 && r.available == 0
  {
    if functionName !in lister then ReplicaCounts(0, 0, Some(NotFound("deployment.apps", functionName)))
    else
      var dep := lister[functionName];
      ReplicaCounts(Uint64FromInt32(dep.status.replicas), Uint64FromInt32(dep.status.availableReplicas), None)
  }

  /** Reported counts that are not negative come back as the same numbers. */
  lemma GetReplicasExact(functionName: string, namespace: string, lister: map<string, Deployment>)
    requires functionName in lister
    requires lister[functionName].status.replicas >= 0 && lister[functionName].status.availableReplicas >= 0
    ensures GetReplicas(functionName, namespace, lister).desired as int == lister[functionName].status.replicas as int
    ensures GetReplicas(functionName, namespace, lister).available as int == lister[functionName].status.availableReplicas as int
  {
  }

  /**
   * The reader's answer once the Function lookup has returned `found`: 404
   * with the error text when it failed, otherwise 200 with the status built
   * from the Function's spec, the resolved namespace and the cached counts,
   * which are zero when the Deployment is not in the cache.
   */
  function ReaderResponse(found: Result<Function>, functionName: string, namespace: string,
                          lister: map<string, Deployment>): (r: Response<Payload>)
    ensures found.Err? ==> r == Response(StatusNotFound, None, Text(found.error))
    ensures found.Ok? ==>
      && r.code == StatusOK && r.contentType == Some(JsonContentType)
      && r.body.Json? && r.body.value.StatusObject?
      && var s := r.body.value.status;
      && var spec := found.value.spec;
      && s.name == spec.name && s.image == spec.image
      && s.labels == spec.labels && s.annotations == spec.annotations
      && s.envProcess == spec.handler && s.namespace == namespace
      && (functionName !in lister ==> s.replicas == 0 && s.availableReplicas == 0)
      && (functionName in lister ==>
            s.replicas == Uint64FromInt32(lister[functionName].status.replicas) &&
            s.availableReplicas == Uint64FromInt32(lister[functionName].status.availableReplicas))
  {
    match found
    case Err(e) => Response(StatusNotFound, None, Text(e))
    case Ok(k8sfunc) =>
      var counts := GetReplicas(functionName, namespace, lister);
      var result := FunctionStatus(
        name := k8sfunc.spec.name,
        image := k8sfunc.spec.image,
        envProcess := k8sfunc.spec.handler,
        labels := k8sfunc.spec.labels,
        annotations := k8sfunc.spec.annotations,
        namespace := namespace,
        replicas := counts.desired,
        availableReplicas := counts.available);
      Response(StatusOK, Some(JsonContentType), Json(StatusObject(result)))
  }

  /** `makeReplicaReader`'s closure; `getNamespace` stands for `pk8s.GetNamespace`, which is not part of this model. */
  class ReplicaReader {
    var namespace: string
    const getNamespace: (string, string) -> (string, string)
    const kube: Orchestrator

    constructor (namespace: string, getNamespace: (string, string) -> (string, string), kube: Orchestrator)
      ensures this.namespace == namespace && this.getNamespace == getNamespace && this.kube == kube
    {
      this.namespace := namespace;
      this.getNamespace := getNamespace;
      this.kube := kube;
    }

    method Handle(name: string, query: Query) returns (resp: Response<Payload>)
      modifies this`namespace, kube`calls
      ensures namespace == EffectiveNamespace(old(namespace), query)
      ensures var (functionName, ns) := getNamespace(name, namespace);
        && kube.calls == old(kube.calls) + [GetFunction(Key(ns, functionName))]
        && resp == ReaderResponse(kube.FunctionOutcome(ns, functionName), functionName, ns, kube.Lister(ns))
    {
      if QueryGet(query, "namespace") != "" {
        namespace := QueryGet(query, "namespace");
      }
      var (functionName, ns) := getNamespace(name, namespace);

      var found := kube.GetFunctionIn(ns, functionName);
      if found.Err? {
        return Response(StatusNotFound, None, Text(found.error));
      }
      var deploymentLister := kube.Lister(ns);
      var counts := GetReplicas(functionName, ns, deploymentLister);
      var k8sfunc := found.value;
      var result := FunctionStatus(
        name := k8sfunc.spec.name,
        image := k8sfunc.spec.image,
        envProcess := k8sfunc.spec.handler,
        labels := k8sfunc.spec.labels,
        annotations := k8sfunc.spec.annotations,
        namespace := ns,
        replicas := counts.desired,
        availableReplicas := counts.available);
      resp := Response(StatusOK, Some(JsonContentType), Json(StatusObject(result)));
    }
  }

  /** The scale request body as `json.Unmarshal` leaves it; a nil body is not decoded at all. */
  datatype ScaleBody = NilBody | MalformedJson(error: string) | Decoded(request: ScaleServiceRequest)

  /** The replica count the scaler writes: the decoded one, or 0 when there was no body. */
  function RequestedReplicas(body: ScaleBody): (replicas: uint64)
    ensures body.Decoded? ==> replicas == body.request.replicas
    ensures body.NilBody? ==> replicas == 0
  {
    if body.Decoded? then body.request.replicas else 0
  }

  /**
   * The read-modify-write: `Spec.Replicas` becomes `int32(replicas)` and
   * every other field is written back as it was read.
   */
  function Scaled(d: Deployment, replicas: uint64): (r: Deployment)
    ensures r.spec.replicas.Some? && (r.spec.replicas.value as int - replicas as int) % TwoTo32 == 0
    ensures r.meta == d.meta && r.status == d.status
    ensures r.spec.selector == d.spec.selector && r.spec.template == d.spec.template
  {
    d.(spec := d.spec.(replicas := Some(Int32FromUint64(replicas))))
  }

  /** Below 2^31 the requested count is written exactly; from 2^31 on it wraps, and 2^32 scales to zero. */
  lemma ScaledCount(d: Deployment, replicas: uint64)
    ensures replicas as int < TwoTo31 ==> Scaled(d, replicas).spec.replicas == Some(replicas as int as int32)
    ensures replicas as int >= TwoTo31 ==> Scaled(d, replicas).spec.replicas.value as int != replicas as int
    ensures replicas as int == TwoTo32 ==> Scaled(d, replicas).spec.replicas == Some(0)
  {
  }

  /** `makeReplicaHandler`'s closure; `getNamespace` stands for `pk8s.GetNamespace`. */
  class ReplicaHandler {
    var namespace: string
    const getNamespace: (string, string) -> (string, string)
    const kube: Orchestrator

    constructor (namespace: string, getNamespace: (string, string) -> (string, string), kube: Orchestrator)
      ensures this.namespace == namespace && this.getNamespace == getNamespace && this.kube == kube
    {
      this.namespace := namespace;
      this.getNamespace := getNamespace;
      this.kube := kube;
    }

    method Handle(name: string, query: Query, body: ScaleBody) returns (resp: Response<Payload>)
      requires kube.Valid()
      modifies this`namespace, kube`calls, kube`deployments
      ensures kube.Valid()
      ensures namespace == EffectiveNamespace(old(namespace), query)
      ensures var (functionName, ns) := getNamespace(name, namespace);
        var key := Key(ns, functionName);
        var got := old(kube.DeploymentOutcome(ns, functionName));
        var updated := old(kube.UpdateOutcome(ns, functionName));
        if body.MalformedJson? then
          && resp == Response(StatusBadRequest, None, Text(body.error))
          && unchanged(kube`calls, kube`deployments)
        else if got.Err? then
          && resp == Response(StatusInternalServerError, None, Text(got.error))
          && kube.calls == old(kube.calls) + [GetDeployment(key)]
          && kube.deployments == old(kube.deployments)
        else
          && kube.calls == old(kube.calls) + [GetDeployment(key), UpdateDeployment(key)]
          && if updated.Some? then
               && resp == Response(StatusInternalServerError, None, Text(updated.value))
               && kube.deployments == old(kube.deployments)
             else
               && resp == Response(StatusAccepted, None, NoBody)
               && kube.deployments == old(kube.deployments)[key := Scaled(got.value, RequestedReplicas(body))]
    {
      if QueryGet(query, "namespace") != "" {
        namespace := QueryGet(query, "namespace");
      }
      var (functionName, ns) := getNamespace(name, namespace);

      var req := ScaleServiceRequest("", 0);
      match body {
        case NilBody =>
        case MalformedJson(e) =>
          return Response(StatusBadRequest, None, Text(e));
        case Decoded(r) =>
          req := r;
      }

      var got := kube.GetDeploymentIn(ns, functionName);
      if got.Err? {
        return Response(StatusInternalServerError, None, Text(got.error));
      }
      var dep := got.value;
      dep := dep.(spec := dep.spec.(replicas := Some(Int32FromUint64(req.replicas))));
      var err := kube.UpdateDeploymentIn(ns, dep);
      if err.Some? {
        return Response(StatusInternalServerError, None, Text(err.value));
      }
      resp := Response(StatusAccepted, None, NoBody);
    }
  }
}
