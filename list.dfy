/**
 * pkg/server/list.go: list the Functions of the effective namespace and
 * project each into a status. The replica counts come from the Deployment
 * lister the handler was built with, whatever namespace the query names.
 */
module List {
  import opened Wrappers
  import opened GoInts
  import opened Http
  import opened ServerTypes
  import opened Namespaces
  import opened Cluster
  import opened Replicas

  const ReservedNamespaceMessage := "unable to list within the kube-system namespace"

  /**
   * The status one listed Function contributes: its spec's name, image,
   * labels and annotations, the lookup namespace, no process, and the cached
   * replica counts, or zeros when the lookup fails.
   */
  function ListEntry(item: Function, namespace: string, lister: map<string, Deployment>): (s: FunctionStatus)
    ensures s.name == item.spec.name && s.image == item.spec.image
    ensures s.labels == item.spec.labels && s.annotations == item.spec.annotations
    ensures s.namespace == namespace && s.envProcess == ""
    ensures item.spec.name !in lister ==> s.replicas == 0 && s.availableReplicas == 0
    ensures item.spec.name in lister ==>
      s.replicas == Uint64FromInt32(lister[item.spec.name].status.replicas) &&
      s.availableReplicas == Uint64FromInt32(lister[item.spec.name].status.availableReplicas)
  {
    var counts := GetReplicas(item.spec.name, namespace, lister);
    FunctionStatus(
      name := item.spec.name,
      image := item.spec.image,
      envProcess := "",
      labels := item.spec.labels,
      annotations := item.spec.annotations,
      namespace := namespace,
      replicas := counts.desired,
      availableReplicas := counts.available)
  }

  /** The statuses of `items`, built front to back as the loop appends them. */
  function Statuses(items: seq<Function>, namespace: string, lister: map<string, Deployment>): seq<FunctionStatus>
  {
    if items == [] then []
    else Statuses(items[..|items| - 1], namespace, lister) + [ListEntry(items[|items| - 1], namespace, lister)]
  }

  /**
   * One status per listed Function, in the list's order; an item whose
   * Deployment is missing from the cache still has its entry, with zero
   * counts.
   */
  lemma {:induction false} StatusesAt(items: seq<Function>, namespace: string, lister: map<string, Deployment>)
    ensures |Statuses(items, namespace, lister)| == |items|
    ensures forall k :: 0 <= k < |items| ==> Statuses(items, namespace, lister)[k] == ListEntry(items[k], namespace, lister)
    decreases |items|
  {
    if items != [] {
      var front := items[..|items| - 1];
      StatusesAt(front, namespace, lister);
      assert forall k :: 0 <= k < |front| ==> front[k] == items[k];
    }
  }

  /** Appending to the list of Functions appends to the statuses: each entry depends on its item alone. */
  lemma {:induction false} StatusesAppend(a: seq<Function>, b: seq<Function>, namespace: string, lister: map<string, Deployment>)
    ensures Statuses(a + b, namespace, lister) == Statuses(a, namespace, lister) + Statuses(b, namespace, lister)
    decreases |b|
  {
    if b == [] {
      assert a + b == a;
    } else {
      var front := b[..|b| - 1];
      StatusesAppend(a, front, namespace, lister);
      assert (a + b)[..|a + b| - 1] == a + front;
      assert (a + b)[|a + b| - 1] == b[|b| - 1];
    }
  }

  /** The answer once the list call has returned `listed`: 400 with the error text, or 200 with a JSON array. */
  function ListResponse(listed: Result<seq<Function>>, namespace: string, lister: map<string, Deployment>): (r: Response<Payload>)
    ensures listed.Err? ==> r == Response(StatusBadRequest, None, Text(listed.error))
    ensures listed.Ok? ==>
      && r.code == StatusOK && r.contentType == Some(JsonContentType)
      && r.body == Json(StatusArray(Statuses(listed.value, namespace, lister)))
  {
    match listed
    case Err(e) => Response(StatusBadRequest, None, Text(e))
    case Ok(items) => Response(StatusOK, Some(JsonContentType), Json(StatusArray(Statuses(items, namespace, lister))))
  }

  /**
   * An empty namespace lists as 200 with an empty JSON array. The source
   * starts from `[]types.FunctionStatus{}` so that the encoding is `[]`
   * rather than `null`; a `Payload` holds a JSON value and has no null, so
   * that nil-versus-empty distinction lies outside this abstraction.
   */
  lemma EmptyListIsEmptyArray(namespace: string, lister: map<string, Deployment>)
    ensures ListResponse(Ok([]), namespace, lister) == Response(StatusOK, Some(JsonContentType), Json(StatusArray([])))
  {
  }

  /** `makeListHandler`'s closure and what it captures. */
  class ListHandler {
    const defaultNamespace: string
    const kube: Orchestrator
    /** Namespace of the Deployment lister passed in at construction. */
    const listerNamespace: string

    constructor (defaultNamespace: string, kube: Orchestrator, listerNamespace: string)
      ensures this.defaultNamespace == defaultNamespace && this.kube == kube
      ensures this.listerNamespace == listerNamespace
    {
      this.defaultNamespace := defaultNamespace;
      this.kube := kube;
      this.listerNamespace := listerNamespace;
    }

    method Handle(query: Query) returns (resp: Response<Payload>)
      modifies kube`calls
      ensures var lookupNamespace := EffectiveNamespace(defaultNamespace, query);
        if lookupNamespace == ReservedNamespace then
          && resp == Error(ReservedNamespaceMessage, StatusUnauthorized)
          && kube.calls == old(kube.calls)
        else
          && kube.calls == old(kube.calls) + [ListFunctions(lookupNamespace)]
          && resp == ListResponse(kube.ListOutcome(lookupNamespace), lookupNamespace, kube.Lister(listerNamespace))
    {
      var namespace := QueryGet(query, "namespace");
      var lookupNamespace := defaultNamespace;
      if |namespace| > 0 {
        lookupNamespace := namespace;
      }

      if lookupNamespace == ReservedNamespace {
        return Error(ReservedNamespaceMessage, StatusUnauthorized);
      }

      var functions: seq<FunctionStatus> := [];
      var res := kube.ListFunctionsIn(lookupNamespace);
      if res.Err? {
        return Response(StatusBadRequest, None, Text(res.error));
      }

      var deploymentLister := kube.Lister(listerNamespace);
      var items := res.value;
      for i := 0 to |items|
        invariant functions == Statuses(items[..i], lookupNamespace, deploymentLister)
      {
        var item := items[i];
        var counts := GetReplicas(item.spec.name, lookupNamespace, deploymentLister);
        var status := FunctionStatus(
          name := item.spec.name,
          image := item.spec.image,
          envProcess := "",
          labels := item.spec.labels,
          annotations := item.spec.annotations,
          namespace := lookupNamespace,
          replicas := counts.desired,
          availableReplicas := counts.available);
        functions := functions + [status];
        assert items[..i + 1][..i] == items[..i];
      }
      assert items[..|items|] == items;

      resp := Response(StatusOK, Some(JsonContentType), Json(StatusArray(functions)));
    }
  }
}
