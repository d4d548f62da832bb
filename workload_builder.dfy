/**
 * `makeDeploymentSpec` and `makeServiceSpec`: the Deployment and the Service
 * built for one create-function request.
 */
module WorkloadBuilder {
  import opened Wrappers
  import opened GoInts
  import opened DeployObjects
  import opened ConstraintSelector
  import opened EnvComposer

  /** Port the function watchdog listens on, in the container and in the Service. */
  const WatchdogPort: int32 := 8080
  /** Replica count every new Deployment starts with. */
  const InitialReplicas: int32 := 1
  /** Revisions kept for rollback. */
  const RevisionHistoryLimit: int32 := 10
  /** The label that ties a function's pods to its Service. */
  const FunctionLabel := "faas_function"
  const LockFileName := ".lock"

  /**
   * `filepath.Join(dir, file)` for an absolute directory in clean form, such
   * as `/tmp` or `/`: the directory, then exactly one separator, then the
   * file. Relative directories (`.` joins to the bare file name) are not
   * modelled.
   */
  function JoinPath(dir: string, file: string): (path: string)
    ensures dir == [] ==> path == file
    ensures dir != [] ==> |path| >= |dir| + |file| && path[..|dir|] == dir && path[|path| - |file|..] == file
    ensures dir != [] && dir[|dir| - 1] == '/' ==> |path| == |dir| + |file|
    ensures dir != [] && dir[|dir| - 1] != '/' ==> |path| == |dir| + 1 + |file| && path[|dir|] == '/'
  {
    if dir == [] then file
    else if dir[|dir| - 1] == '/' then dir + file
    else dir + "/" + file
  }

  /** The liveness probe: `cat <tmpdir>/.lock`, delay 3s, timeout 1s, period 10s, 1 success, 3 failures. */
  function LockProbe(tmpDir: string): (probe: Probe)
    ensures |probe.command| == 2 && probe.command[0] == "cat"
    ensures tmpDir != [] && tmpDir[|tmpDir| - 1] != '/' ==> probe.command[1] == tmpDir + "/" + LockFileName
    ensures probe.initialDelaySeconds == 3 && probe.timeoutSeconds == 1 && probe.periodSeconds == 10
    ensures probe.successThreshold == 1 && probe.failureThreshold == 3
  {
    Probe(["cat", JoinPath(tmpDir, LockFileName)], 3, 1, 10, 1, 3)
  }

  /** One reference per secret, in the order given, duplicates kept. */
  ghost predicate PullSecretsFor(refs: seq<LocalObjectReference>, secrets: seq<string>)
  {
    |refs| == |secrets| && forall i :: 0 <= i < |refs| ==> refs[i].name == secrets[i]
  }

  /** The loop that fills `imagePullSecrets`. */
  method BuildImagePullSecrets(secrets: seq<string>) returns (refs: seq<LocalObjectReference>)
    ensures PullSecretsFor(refs, secrets)
  {
    refs := [];
    for i := 0 to |secrets|
      invariant PullSecretsFor(refs, secrets[..i])
    {
      refs := refs + [LocalObjectReference(secrets[i])];
    }
  }

  /** The identity label overlaid with the request's labels, which win on a clash. */
  function PodLabels(service: string, user: Option<map<string, string>>): map<string, string>
  {
    map[FunctionLabel := service] + (if user.Some? then user.value else map[])
  }

  /** The loop that copies the request's labels over the identity label. */
  method MergeLabels(service: string, user: Option<map<string, string>>) returns (labels: map<string, string>)
    ensures labels == PodLabels(service, user)
  {
    labels := map[FunctionLabel := service];
    if user.Some? {
      var m := user.value;
      var remaining := m.Keys;
      while remaining != {}
        invariant remaining <= m.Keys
        invariant labels == map[FunctionLabel := service] + (map k | k in m.Keys - remaining :: m[k])
        decreases remaining
      {
        var k :| k in remaining;
        ghost var before := map j | j in m.Keys - remaining :: m[j];
        labels := labels[k := m[k]];
        remaining := remaining - {k};
        assert (map j | j in m.Keys - remaining :: m[j]) == before[k := m[k]];
      }
      assert (map k | k in m.Keys - remaining :: m[k]) == m;
    }
  }

  /**
   * The pod labels hold exactly the identity label and the request's labels;
   * every request label keeps its value, and the identity label keeps the
   * service name unless the request overrides it.
   */
  lemma PodLabelsMeaning(service: string, user: Option<map<string, string>>)
    ensures forall k :: k in PodLabels(service, user) <==> k == FunctionLabel || (user.Some? && k in user.value)
    ensures user.Some? ==> forall k :: k in user.value ==> PodLabels(service, user)[k] == user.value[k]
    ensures PodLabels(service, user)[FunctionLabel] == service <==>
      (user.None? || FunctionLabel !in user.value || user.value[FunctionLabel] == service)
  {
  }

  /** What the built container holds. */
  ghost predicate ContainerFor(c: Container, request: CreateFunctionRequest, config: DeployHandlerConfig, tmpDir: string)
  {
    && c.name == request.service
    && c.image == request.image
    && c.ports == [ContainerPort(WatchdogPort, TCP)]
    && ComposedEnv(c.env, request.envProcess, request.envVars)
    && c.limits == map[]
    && c.imagePullPolicy == PullAlways
    && (c.livenessProbe.None? <==> !config.enableFunctionReadinessProbe)
    && (c.livenessProbe.Some? ==> c.livenessProbe.value == LockProbe(tmpDir))
  }

  /** `d` is a Deployment `makeDeploymentSpec` may return for this request. */
  ghost predicate DeploymentFor(d: Deployment, request: CreateFunctionRequest, config: DeployHandlerConfig, tmpDir: string)
  {
    && d.typeMeta == TypeMeta("Deployment", "extensions/v1beta1")
    && d.name == request.service
    && d.spec.replicas == Some(InitialReplicas)
    && d.spec.strategy == RollingUpdate(0, 1)
    && d.spec.revisionHistoryLimit == Some(RevisionHistoryLimit)
    && d.spec.template.name == request.service
    && d.spec.template.labels == PodLabels(request.service, request.labels)
    && d.spec.template.spec.nodeSelector == SelectorOf(request.constraints)
    && PullSecretsFor(d.spec.template.spec.imagePullSecrets, request.secrets)
    && d.spec.template.spec.restartPolicy == RestartPolicyAlways
    && d.spec.template.spec.dnsPolicy == DNSClusterFirst
    && |d.spec.template.spec.containers| == 1
    && ContainerFor(d.spec.template.spec.containers[0], request, config, tmpDir)
  }

  /** `makeDeploymentSpec`; `tmpDir` stands for `os.TempDir()`. */
  method MakeDeploymentSpec(request: CreateFunctionRequest, config: DeployHandlerConfig, tmpDir: string)
    returns (d: Deployment)
    ensures DeploymentFor(d, request, config, tmpDir)
  {
    var envVars := BuildEnvVars(request);
    var path := JoinPath(tmpDir, LockFileName);
    var probe := Some(Probe(["cat", path], 3, 1, 10, 1, 3));
    if !config.enableFunctionReadinessProbe {
      probe := None;
    }
    var imagePullSecrets := BuildImagePullSecrets(request.secrets);
    var labels := MergeLabels(request.service, request.labels);
    var nodeSelector := CreateSelector(request.constraints);
    var initialReplicas := Some(InitialReplicas);
    var container := Container(
      request.service, request.image, [ContainerPort(WatchdogPort, TCP)], envVars,
      map[], PullAlways, probe);
    d := Deployment(
      TypeMeta("Deployment", "extensions/v1beta1"),
      request.service,
      DeploymentSpec(
        initialReplicas,
        RollingUpdate(0, 1),
        Some(RevisionHistoryLimit),
        PodTemplateSpec(
          request.service,
          labels,
          PodSpec(nodeSelector, imagePullSecrets, [container], RestartPolicyAlways, DNSClusterFirst))));
  }

  /** The deployment with its single container's environment replaced. */
  function WithEnv(d: Deployment, env: seq<EnvVar>): Deployment
    requires |d.spec.template.spec.containers| == 1
  {
    var pod := d.spec.template.spec;
    var container := pod.containers[0].(env := env);
    d.(spec := d.spec.(template := d.spec.template.(spec := pod.(containers := [container]))))
  }

  /**
   * Building twice from the same request gives the same Deployment up to the
   * order of the environment variables after `fprocess`.
   */
  lemma DeploymentForUnique(d1: Deployment, d2: Deployment, request: CreateFunctionRequest,
                            config: DeployHandlerConfig, tmpDir: string)
    requires DeploymentFor(d1, request, config, tmpDir) && DeploymentFor(d2, request, config, tmpDir)
    ensures d1 == WithEnv(d2, d1.spec.template.spec.containers[0].env)
    ensures multiset(d1.spec.template.spec.containers[0].env) == multiset(d2.spec.template.spec.containers[0].env)
  {
    var c1, c2 := d1.spec.template.spec.containers[0], d2.spec.template.spec.containers[0];
    ComposedEnvUniqueUpToOrder(c1.env, c2.env, request.envProcess, request.envVars);
    var s1, s2 := d1.spec.template.spec.imagePullSecrets, d2.spec.template.spec.imagePullSecrets;
    assert s1 == s2 by {
      assert forall i :: 0 <= i < |s1| ==> s1[i] == LocalObjectReference(request.secrets[i]) == s2[i];
    }
    assert c1.livenessProbe == c2.livenessProbe;
    assert c1 == c2.(env := c1.env);
  }

  /** `makeServiceSpec`. */
  function MakeServiceSpec(request: CreateFunctionRequest): (s: Service)
    ensures s.name == request.service
    ensures s.serviceType == ClusterIP
    ensures s.selector == map[FunctionLabel := request.service]
    ensures s.ports == [ServicePort(TCP, WatchdogPort, WatchdogPort)]
  {
    Service(
      TypeMeta("Service", "v1"),
      request.service,
      ClusterIP,
      map[FunctionLabel := request.service],
      [ServicePort(TCP, 8080, 8080)])
  }

  /** A selector matches a label set when every selector entry is among the labels. */
  predicate Selects(selector: map<string, string>, labels: map<string, string>)
  {
    forall k :: k in selector ==> k in labels && labels[k] == selector[k]
  }

  /**
   * The Service reaches the Deployment's pods on the watchdog port exactly
   * when the request does not override the identity label with another value.
   */
  lemma ServiceSelectsDeployment(d: Deployment, request: CreateFunctionRequest,
                                 config: DeployHandlerConfig, tmpDir: string)
    requires DeploymentFor(d, request, config, tmpDir)
    ensures MakeServiceSpec(request).name == d.name
    ensures MakeServiceSpec(request).ports[0].targetPort == d.spec.template.spec.containers[0].ports[0].containerPort
    ensures Selects(MakeServiceSpec(request).selector, d.spec.template.labels) <==>
      (request.labels.None? || FunctionLabel !in request.labels.value ||
       request.labels.value[FunctionLabel] == request.service)
  {
  }
}
