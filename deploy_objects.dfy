/**
 * The values handlers/deploy.go reads and builds: the gateway's create-function
 * request and the extensions/v1beta1 Deployment and core/v1 Service objects.
 * Only the fields deploy.go touches are kept.
 */
module DeployObjects {
  import opened Wrappers
  import opened GoInts

  /**
   * The gateway's `requests.CreateFunctionRequest`, restricted to the fields
   * deploy.go reads. `labels` is a pointer to a map in Go, hence the Option.
   */
  datatype CreateFunctionRequest = CreateFunctionRequest(
    service: string,
    image: string,
    envProcess: string,
    envVars: map<string, string>,
    constraints: seq<string>,
    secrets: seq<string>,
    labels: Option<map<string, string>>
  )

  /** `DeployHandlerConfig`. */
  datatype DeployHandlerConfig = DeployHandlerConfig(enableFunctionReadinessProbe: bool)

  datatype TypeMeta = TypeMeta(kind: string, apiVersion: string)

  datatype Protocol = TCP

  datatype EnvVar = EnvVar(name: string, value: string)

  datatype ContainerPort = ContainerPort(containerPort: int32, protocol: Protocol)

  /** An exec liveness probe with its timing settings. */
  datatype Probe = Probe(
    command: seq<string>,
    initialDelaySeconds: int32,
    timeoutSeconds: int32,
    periodSeconds: int32,
    successThreshold: int32,
    failureThreshold: int32
  )

  datatype PullPolicy = PullAlways
  datatype RestartPolicy = RestartPolicyAlways
  datatype DNSPolicy = DNSClusterFirst

  datatype Container = Container(
    name: string,
    image: string,
    ports: seq<ContainerPort>,
    env: seq<EnvVar>,
    limits: map<string, string>,
    imagePullPolicy: PullPolicy,
    livenessProbe: Option<Probe>
  )

  /** `LocalObjectReference`: a reference to a secret by name. */
  datatype LocalObjectReference = LocalObjectReference(name: string)

  datatype PodSpec = PodSpec(
    nodeSelector: map<string, string>,
    imagePullSecrets: seq<LocalObjectReference>,
    containers: seq<Container>,
    restartPolicy: RestartPolicy,
    dnsPolicy: DNSPolicy
  )

  datatype PodTemplateSpec = PodTemplateSpec(name: string, labels: map<string, string>, spec: PodSpec)

  /** The RollingUpdate strategy with its two integer bounds. */
  datatype DeploymentStrategy = RollingUpdate(maxUnavailable: int32, maxSurge: int32)

  datatype DeploymentSpec = DeploymentSpec(
    replicas: Option<int32>,
    strategy: DeploymentStrategy,
    revisionHistoryLimit: Option<int32>,
    template: PodTemplateSpec
  )

  /** The Deployment's metadata carries only its name. */
  datatype Deployment = Deployment(typeMeta: TypeMeta, name: string, spec: DeploymentSpec)

  datatype ServiceType = ClusterIP

  datatype ServicePort = ServicePort(protocol: Protocol, port: int32, targetPort: int32)

  datatype Service = Service(
    typeMeta: TypeMeta,
    name: string,
    serviceType: ServiceType,
    selector: map<string, string>,
    ports: seq<ServicePort>
  )
}
