/**
 * The values pkg/server reads and writes: the Function custom resource
 * (pkg/apis/openfaas/v1/types.go), the provider's `FunctionStatus` and
 * `ScaleServiceRequest`, and the apps/v1 Deployment fields the handlers touch.
 */
module ServerTypes {
  import opened Wrappers
  import opened GoInts

  /** `FunctionResources`. */
  datatype FunctionResources = FunctionResources(memory: string, cpu: string)

  /** `FunctionSpec`; the pointer-to-map fields are Options. */
  datatype FunctionSpec = FunctionSpec(
    name: string,
    image: string,
    handler: string,
    annotations: Option<map<string, string>>,
    labels: Option<map<string, string>>,
    environment: Option<map<string, string>>,
    constraints: seq<string>,
    secrets: seq<string>,
    limits: Option<FunctionResources>,
    requests: Option<FunctionResources>,
    readOnlyRootFilesystem: bool
  )

  /** `FunctionCondition`. */
  datatype FunctionCondition = FunctionCondition(conditionType: string, status: string)

  /** The custom resource's own status, `v1.FunctionStatus`. */
  datatype ResourceStatus = ResourceStatus(
    conditions: seq<FunctionCondition>,
    unavailableReplicas: int32,
    observedGeneration: int
  )

  /** A Function custom resource: its metadata name, spec and status. */
  datatype Function = Function(name: string, spec: FunctionSpec, status: ResourceStatus)

  /** The provider's `types.FunctionStatus`, restricted to the fields the handlers set. */
  datatype FunctionStatus = FunctionStatus(
    name: string,
    image: string,
    envProcess: string,
    labels: Option<map<string, string>>,
    annotations: Option<map<string, string>>,
    namespace: string,
    replicas: uint64,
    availableReplicas: uint64
  )

  /** The provider's `types.ScaleServiceRequest`. */
  datatype ScaleServiceRequest = ScaleServiceRequest(serviceName: string, replicas: uint64)

  /** apps/v1 Deployment: metadata, the desired state and the controller-reported state. */
  datatype ObjectMeta = ObjectMeta(name: string, labels: map<string, string>, resourceVersion: string)

  datatype PodTemplate = PodTemplate(labels: map<string, string>, images: seq<string>)

  datatype DeploymentSpec = DeploymentSpec(
    replicas: Option<int32>,
    selector: map<string, string>,
    template: PodTemplate
  )

  datatype DeploymentStatus = DeploymentStatus(replicas: int32, availableReplicas: int32)

  datatype Deployment = Deployment(meta: ObjectMeta, spec: DeploymentSpec, status: DeploymentStatus)

  /** What a handler writes as JSON: one status, or an array of them. */
  datatype Payload = StatusObject(status: FunctionStatus) | StatusArray(statuses: seq<FunctionStatus>)
}
