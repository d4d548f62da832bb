/**
 * The orchestrator as handlers/deploy.go sees it: Deployments and Services
 * keyed by namespace and name, created through the API. The API refuses a
 * create when the name is taken, or for reasons outside this model (quota,
 * admission, an invalid image) given by `refused`. Every call is logged in
 * `calls`, so that "no orchestrator call was made" can be stated.
 */
module DeployStore {
  import opened Wrappers
  import opened DeployObjects

  datatype ObjectKey = ObjectKey(namespace: string, name: string)

  datatype Call = CreateDeployment(key: ObjectKey) | CreateService(key: ObjectKey)

  /** The API server's "already exists" error text. */
  function AlreadyExists(resource: string, name: string): string
  {
    resource + " \"" + name + "\" already exists"
  }

  /** Outcome of a create: the refusal for that call, else a clash with an existing name, else success. */
  function CreateOutcome(refused: map<Call, string>, existing: set<ObjectKey>, call: Call, resource: string): Option<string>
  {
    if call in refused then Some(refused[call])
    else if call.key in existing then Some(AlreadyExists(resource, call.key.name))
    else None
  }

  class Store {
    var deployments: map<ObjectKey, Deployment>
    var services: map<ObjectKey, Service>
    /** API failures this model does not derive, by call. */
    const refused: map<Call, string>
    /** Every API call made, in order. */
    var calls: seq<Call>

    constructor (deployments: map<ObjectKey, Deployment>, services: map<ObjectKey, Service>, refused: map<Call, string>)
      ensures this.deployments == deployments && this.services == services
      ensures this.refused == refused && calls == []
    {
      this.deployments := deployments;
      this.services := services;
      this.refused := refused;
      calls := [];
    }

    function DeploymentOutcome(namespace: string, name: string): Option<string>
      reads this
    {
      CreateOutcome(refused, deployments.Keys, CreateDeployment(ObjectKey(namespace, name)), "deployments.extensions")
    }

    function ServiceOutcome(namespace: string, name: string): Option<string>
      reads this
    {
      CreateOutcome(refused, services.Keys, CreateService(ObjectKey(namespace, name)), "services")
    }

    /** `Deployments(namespace).Create(d)`. */
    method CreateDeploymentIn(namespace: string, d: Deployment) returns (err: Option<string>)
      modifies this`deployments, this`calls
      ensures err == old(DeploymentOutcome(namespace, d.name))
      ensures calls == old(calls) + [CreateDeployment(ObjectKey(namespace, d.name))]
      ensures deployments == if err.Some? then old(deployments) else old(deployments)[ObjectKey(namespace, d.name) := d]
    {
      err := DeploymentOutcome(namespace, d.name);
      calls := calls + [CreateDeployment(ObjectKey(namespace, d.name))];
      if err.None? {
        deployments := deployments[ObjectKey(namespace, d.name) := d];
      }
    }

    /** `Services(namespace).Create(s)`. */
    method CreateServiceIn(namespace: string, s: Service) returns (err: Option<string>)
      modifies this`services, this`calls
      ensures err == old(ServiceOutcome(namespace, s.name))
      ensures calls == old(calls) + [CreateService(ObjectKey(namespace, s.name))]
      ensures services == if err.Some? then old(services) else old(services)[ObjectKey(namespace, s.name) := s]
    {
      err := ServiceOutcome(namespace, s.name);
      calls := calls + [CreateService(ObjectKey(namespace, s.name))];
      if err.None? {
        services := services[ObjectKey(namespace, s.name) := s];
      }
    }
  }
}
