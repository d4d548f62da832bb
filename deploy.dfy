/**
 * `MakeDeployHandler`: decode, validate, create the Deployment, create the
 * Service, answer. Each step exits early on failure and nothing is rolled
 * back: a Service create that fails leaves the new Deployment in place.
 */
module Deploy {
  import opened Wrappers
  import opened Http
  import opened DeployObjects
  import opened DeployValidation
  import opened WorkloadBuilder
  import opened DeployStore

  /** The request body as `json.Unmarshal` leaves it. */
  datatype DeployBody = MalformedJson | Decoded(request: CreateFunctionRequest)

  /** The handler closure and what it captures; `tmpDir` stands for `os.TempDir()`. */
  class DeployHandler {
    const functionNamespace: string
    const store: Store
    const config: DeployHandlerConfig
    const tmpDir: string

    constructor (functionNamespace: string, store: Store, config: DeployHandlerConfig, tmpDir: string)
      ensures this.functionNamespace == functionNamespace && this.store == store
      ensures this.config == config && this.tmpDir == tmpDir
    {
      this.functionNamespace := functionNamespace;
      this.store := store;
      this.config := config;
      this.tmpDir := tmpDir;
    }

    method Handle(body: DeployBody) returns (resp: Response<()>)
      modifies store
      ensures body.MalformedJson? ==> resp == Response(StatusBadRequest, None, NoBody) && unchanged(store)
      ensures body.Decoded? && !IsDnsLabel(body.request.service) ==>
        && resp == Response(StatusBadRequest, None, Text(InvalidNameMessage(body.request.service)))
        && unchanged(store)
      ensures body.Decoded? && IsDnsLabel(body.request.service) ==>
        var request := body.request;
        var key := ObjectKey(functionNamespace, request.service);
        var depErr := old(store.DeploymentOutcome(functionNamespace, request.service));
        var svcErr := old(store.ServiceOutcome(functionNamespace, request.service));
        if depErr.Some? then
          && resp == Response(StatusInternalServerError, None, Text(depErr.value))
          && store.calls == old(store.calls) + [CreateDeployment(key)]
          && unchanged(store`deployments, store`services)
        else
          && key in store.deployments
          && DeploymentFor(store.deployments[key], request, config, tmpDir)
          && store.deployments == old(store.deployments)[key := store.deployments[key]]
          && store.calls == old(store.calls) + [CreateDeployment(key), CreateService(key)]
          && (if svcErr.Some? then
                resp == Response(StatusInternalServerError, None, Text(svcErr.value))
                && store.services == old(store.services)
              else
                resp == Response(StatusAccepted, None, NoBody)
                && store.services == old(store.services)[key := MakeServiceSpec(request)])
    {
      if body.MalformedJson? {
        return Response(StatusBadRequest, None, NoBody);
      }
      var request := body.request;
      var valid := ValidateDeployRequest(request);
      if valid.Err? {
        return Response(StatusBadRequest, None, Text(valid.error));
      }

      var deploymentSpec := MakeDeploymentSpec(request, config, tmpDir);
      var err := store.CreateDeploymentIn(functionNamespace, deploymentSpec);
      if err.Some? {
        return Response(StatusInternalServerError, None, Text(err.value));
      }

      var serviceSpec := MakeServiceSpec(request);
      err := store.CreateServiceIn(functionNamespace, serviceSpec);
      if err.Some? {
        return Response(StatusInternalServerError, None, Text(err.value));
      }

      return Response(StatusAccepted, None, NoBody);
    }
  }
}
