/**
 * The orchestrator as pkg/server sees it: Function resources listed per
 * namespace in the order the API returns them, apps/v1 Deployments keyed by
 * namespace and name, and the informer's cached view of Deployments, which
 * something outside this model keeps up to date and may lag behind. The
 * API answers a call with the error in `refused` for reasons outside the
 * model (permissions, conflicts), or "not found" when the object is absent.
 * Every API call is logged in `calls`; the cache is read without a call.
 */
module Cluster {
  import opened Wrappers
  import opened ServerTypes

  datatype Key = Key(namespace: string, name: string)

  datatype Call =
    | ListFunctions(namespace: string)
    | GetFunction(key: Key)
    | GetDeployment(key: Key)
    | UpdateDeployment(key: Key)

  /** The API server's "not found" error text. */
  function NotFound(resource: string, name: string): string
  {
    resource + " \"" + name + "\" not found"
  }

  /** The first listed Function whose metadata name is `name`. */
  function FindFunction(items: seq<Function>, name: string): (r: Option<Function>)
    ensures r.Some? ==> r.value in items && r.value.name == name
    ensures r.None? ==> forall i :: 0 <= i < |items| ==> items[i].name != name
  {
    if items == [] then None
    else if items[0].name == name then Some(items[0])
    else FindFunction(items[1..], name)
  }

  /** No two listed Functions share a name. */
  predicate UniqueNames(items: seq<Function>)
  {
    forall i, j :: 0 <= i < j < |items| ==> items[i].name != items[j].name
  }

  /** With unique names, the Function found is the one listed under that name. */
  lemma {:induction false} FindFunctionUnique(items: seq<Function>, i: nat)
    requires UniqueNames(items) && i < |items|
    ensures FindFunction(items, items[i].name) == Some(items[i])
    decreases |items|
  {
    if i > 0 {
      assert items[0].name != items[i].name;
      assert UniqueNames(items[1..]) by {
        forall a, b | 0 <= a < b < |items| - 1
          ensures items[1..][a].name != items[1..][b].name
        {
          assert items[1..][a] == items[a + 1] && items[1..][b] == items[b + 1];
        }
      }
      FindFunctionUnique(items[1..], i - 1);
    }
  }

  class Orchestrator {
    var functions: map<string, seq<Function>>
    var deployments: map<Key, Deployment>
    var cache: map<string, map<string, Deployment>>
    const refused: map<Call, string>
    var calls: seq<Call>

    /**
     * Each stored Deployment is filed under its own name, and the API server
     * keeps Function names unique within a namespace.
     */
    ghost predicate Valid()
      reads this
    {
      && (forall k :: k in deployments ==> deployments[k].meta.name == k.name)
      && (forall ns :: ns in functions ==> UniqueNames(functions[ns]))
    }

    constructor (functions: map<string, seq<Function>>, deployments: map<Key, Deployment>,
                 cache: map<string, map<string, Deployment>>, refused: map<Call, string>)
      requires forall k :: k in deployments ==> deployments[k].meta.name == k.name
      requires forall ns :: ns in functions ==> UniqueNames(functions[ns])
      ensures Valid()
      ensures this.functions == functions && this.deployments == deployments
      ensures this.cache == cache && this.refused == refused && calls == []
    {
      this.functions := functions;
      this.deployments := deployments;
      this.cache := cache;
      this.refused := refused;
      calls := [];
    }

    function FunctionsIn(namespace: string): seq<Function>
      reads this
    {
      if namespace in functions then functions[namespace] else []
    }

    /** The informer's lister for one namespace: name to cached Deployment. */
    function Lister(namespace: string): map<string, Deployment>
      reads this
    {
      if namespace in cache then cache[namespace] else map[]
    }

    function ListOutcome(namespace: string): Result<seq<Function>>
      reads this
    {
      if ListFunctions(namespace) in refused then Err(refused[ListFunctions(namespace)])
      else Ok(FunctionsIn(namespace))
    }

    function FunctionOutcome(namespace: string, name: string): Result<Function>
      reads this
    {
      var call := GetFunction(Key(namespace, name));
      if call in refused then Err(refused[call])
      else match FindFunction(FunctionsIn(namespace), name)
        case Some(f) => Ok(f)
        case None => Err(NotFound("functions.openfaas.com", name))
    }

    function DeploymentOutcome(namespace: string, name: string): Result<Deployment>
      reads this
    {
      var call := GetDeployment(Key(namespace, name));
      if call in refused then Err(refused[call])
      else if Key(namespace, name) in deployments then Ok(deployments[Key(namespace, name)])
      else Err(NotFound("deployments.apps", name))
    }

    function UpdateOutcome(namespace: string, name: string): Option<string>
      reads this
    {
      var call := UpdateDeployment(Key(namespace, name));
      if call in refused then Some(refused[call])
      else if Key(namespace, name) in deployments then None
      else Some(NotFound("deployments.apps", name))
    }

    /** `OpenfaasV1().Functions(namespace).List(...)`. */
    method ListFunctionsIn(namespace: string) returns (r: Result<seq<Function>>)
      modifies this`calls
      ensures r == ListOutcome(namespace)
      ensures calls == old(calls) + [ListFunctions(namespace)]
    {
      r := ListOutcome(namespace);
      calls := calls + [ListFunctions(namespace)];
    }

    /** `OpenfaasV1().Functions(namespace).Get(name, ...)`. */
    method GetFunctionIn(namespace: string, name: string) returns (r: Result<Function>)
      modifies this`calls
      ensures r == FunctionOutcome(namespace, name)
      ensures calls == old(calls) + [GetFunction(Key(namespace, name))]
    {
      r := FunctionOutcome(namespace, name);
      calls := calls + [GetFunction(Key(namespace, name))];
    }

    /** `AppsV1().Deployments(namespace).Get(name, ...)`. */
    method GetDeploymentIn(namespace: string, name: string) returns (r: Result<Deployment>)
      modifies this`calls
      ensures r == DeploymentOutcome(namespace, name)
      ensures calls == old(calls) + [GetDeployment(Key(namespace, name))]
    {
      r := DeploymentOutcome(namespace, name);
      calls := calls + [GetDeployment(Key(namespace, name))];
    }

    /** `AppsV1().Deployments(namespace).Update(d, ...)`: replaces the stored object wholesale. */
    method UpdateDeploymentIn(namespace: string, d: Deployment) returns (err: Option<string>)
      requires Valid()
      modifies this`deployments, this`calls
      ensures Valid()
      ensures err == old(UpdateOutcome(namespace, d.meta.name))
      ensures calls == old(calls) + [UpdateDeployment(Key(namespace, d.meta.name))]
      ensures deployments == if err.Some? then old(deployments) else old(deployments)[Key(namespace, d.meta.name) := d]
    {
      err := UpdateOutcome(namespace, d.meta.name);
      calls := calls + [UpdateDeployment(Key(namespace, d.meta.name))];
      if err.None? {
        deployments := deployments[Key(namespace, d.meta.name) := d];
      }
    }
  }
}
