# faas-netes core, modelled in Dafny

This project models the core of faas-netes, the OpenFaaS provider for Kubernetes. It covers two independent components:

- **handlers/deploy.go** is the older deploy path, built on extensions/v1beta1. It checks the function name against the RFC 1123 label pattern (section 2.1 of RFC 1123) and turns placement constraints into a node selector. It composes the container environment and builds the Deployment and the Service for a create-function request. The handler then creates the Deployment and the Service, in that order, and stops at the first failure.
- **pkg/server** contains three handlers: the replica reader, the scaler and the list handler. They work on the Function custom resource, on apps/v1 Deployments and on the informer's cached view of Deployments. The list handler resolves the effective namespace and refuses `kube-system`. It projects each Function into a status, and a failed replica lookup gives zeros instead of aborting. The reader and the scaler assign a non-empty `namespace` query parameter to the variable their closure captures. That namespace therefore stays the default for later requests, so it is a field of the handler classes.

The orchestrator is modelled as two classes of maps, one per component:

- `DeployStore.Store` holds Deployments and Services.
- `Cluster.Orchestrator` holds Functions listed per namespace, Deployments and the informer cache.

Each class also has a fixed `refused` map, which gives the error text for any API call that fails for reasons outside the model (quota, permissions, conflicts). Each keeps a `calls` log, so "no orchestrator call was made" can be stated. HTTP responses are a status code, an optional Content-Type and a body: nothing, text, or the JSON value before encoding.

Layout, one module per file:

- `wrappers`, `go_ints`, `go_strings`, `http`: Option/Result, Go's integer conversions, `strings.Split`, and responses.
- `deploy_objects`, `deploy_validation`, `constraint_selector`, `env_composer`, `workload_builder`, `deploy_store`, `deploy`: handlers/deploy.go.
- `server_types`, `cluster`, `namespaces`, `replicas`, `list`: pkg/server and the types in pkg/apis/openfaas/v1/types.go.
- `namespace_race`: the captured namespace of the reader and the scaler under concurrent requests.

Points of the code's behaviour worth knowing before reading the model:

- A constraint counts when it holds exactly one `=`. Its key or value may be empty.
- The identity label `faas_function` is set only on the pod template. The Deployment's own metadata carries only its name.
- The environment variables after `fprocess` come from iterating a Go map, so two builds from one request agree only up to that order, and the output is not byte-identical. `WorkloadBuilder.DeploymentForUnique` states this.
- Only the list handler refuses `kube-system`. The reader and the scaler have no namespace guard.
- The reader answers 404 for any failure of the Function lookup, not only for a missing Function.
- The reader reports the replica counts from the cached Deployment *status*. After a scale, the reader shows the new count only once the controller and the cache catch up, not right after the scaler returns.
- The scaler leaves the count at 0 when the body is nil. It converts the count with `int32(...)`, which wraps modulo 2^32, so a request for 2^32 replicas scales to zero.
- The list handler reads replica counts through the lister it was built with, whatever namespace the query names.
- In the reader and the scaler, the namespace returned by `GetNamespace` is a new local variable (`:=`), so only the query parameter's value persists in the captured variable.
- The reader and the scaler assign and then read that captured variable with no lock, while net/http serves requests concurrently. `NamespaceRace` models the interleaving; see "## Findings". The handler classes run each request as one step, which is the locked behaviour `NamespaceRace.LockedServe` describes.

## Model

| member | source | states |
|---|---|---|
| `DeployValidation.ValidateDeployRequest` | handlers/deploy.go:35-46 | accepts a name iff it is a DNS label (non-empty, only `[a-z0-9-]`, no hyphen at either end); the rejection text holds the name in parentheses |
| `DeployValidation.PatternIsDnsLabel` | handlers/deploy.go:39 | the pattern `^[a-z0-9]([-a-z0-9]*[a-z0-9])?$`, read clause by clause, matches exactly the DNS labels |
| `DeployValidation.InvalidNameMessage` | handlers/deploy.go:45 | the rejection text starts with the service name in parentheses, so the name can be read back from it |
| `DeployValidation.ValidationExamples` | handlers/deploy.go:39-45 | "echo" is accepted; "Bad_Name", "-echo" and "" are refused |
| `GoStrings.Split` | handlers/deploy.go:264 | `strings.Split` always gives at least one piece, the empty string for empty input |
| `GoStrings.SplitLength` | handlers/deploy.go:264-266 | `strings.Split` on `=` gives one more piece than there are `=`, so two pieces means exactly one `=` |
| `GoStrings.JoinSplit` | handlers/deploy.go:264 | joining the pieces of `strings.Split` with the separator gives back the constraint |
| `GoStrings.SplitAtOnlySeparator` | handlers/deploy.go:264-267 | with exactly one `=`, the two pieces are the text before it and the text after it |
| `ConstraintSelector.ParseConstraint` | handlers/deploy.go:264-268 | a constraint that contributes is exactly `key=value`, and neither part holds an `=` |
| `ConstraintSelector.ParseConstraintMeaning` | handlers/deploy.go:264-268 | a constraint contributes iff it holds exactly one `=`; the key is the text before it and the value the text after, either possibly empty |
| `ConstraintSelector.ParseFormatted` | handlers/deploy.go:264-268 | `key=value` with no `=` in either part parses back to (key, value) |
| `ConstraintSelector.CreateSelector` | handlers/deploy.go:258-274 | the loop builds exactly the selector obtained by applying the constraints left to right |
| `ConstraintSelector.SelectorOfDomain` | handlers/deploy.go:262-270 | a key is in the selector iff some constraint sets it |
| `ConstraintSelector.SelectorOfLastWins` | handlers/deploy.go:262-270 | a key's value is the one given by the last constraint that sets it |
| `ConstraintSelector.SelectorOfSwap` | handlers/deploy.go:262-270 | two constraints on different keys give the same selector in either order |
| `ConstraintSelector.SelectorExampleTwoKeys` | handlers/deploy.go:258-274 | `["disk=ssd","zone=eu"]` gives `{disk: ssd, zone: eu}` |
| `ConstraintSelector.SelectorExampleMalformed` | handlers/deploy.go:264-268 | `["bad"]` gives the empty selector |
| `ConstraintSelector.SelectorExampleLastWins` | handlers/deploy.go:267 | `["a=1","a=2"]` gives `{a: 2}` |
| `EnvComposer.BuildEnvVars` | handlers/deploy.go:231-252 | an empty process gives an empty list whatever the variables; otherwise `fprocess` comes first, followed by one entry per variable with its value and distinct names, so the length is 1 + the number of variables |
| `EnvComposer.ComposedEnvCovers` | handlers/deploy.go:242-250 | every environment variable of the request appears in the list with its value |
| `EnvComposer.ComposedEnvUniqueUpToOrder` | handlers/deploy.go:231-252 | any two lists the loop may build for one request have the same first entry and the same entries with the same multiplicities |
| `WorkloadBuilder.JoinPath` | handlers/deploy.go:107 | `filepath.Join` of an absolute clean directory and a file is the directory, exactly one separator (none added after a trailing `/`), then the file |
| `WorkloadBuilder.LockProbe` | handlers/deploy.go:107-119 | the liveness probe runs `cat <tmpdir>/.lock`, with delay 3, timeout 1, period 10, success threshold 1 and failure threshold 3 |
| `WorkloadBuilder.BuildImagePullSecrets` | handlers/deploy.go:124-131 | one pull-secret reference per secret, in order, with duplicates kept |
| `WorkloadBuilder.MergeLabels` | handlers/deploy.go:133-140 | the pod labels are `{faas_function: service}` overlaid with the request's labels, whatever order the map is iterated in |
| `WorkloadBuilder.PodLabelsMeaning` | handlers/deploy.go:133-140 | the pod labels are exactly the identity label and the request's labels; a request label wins, and the identity label equals the service name iff the request does not override it |
| `WorkloadBuilder.MakeDeploymentSpec` | handlers/deploy.go:105-202 | the service name is the Deployment, template and container name; image from the request; replicas 1; RollingUpdate with maxUnavailable 0 and maxSurge 1; revision history 10; one TCP port 8080; the composed env; pull policy Always; merged pod labels; node selector from the constraints; one pull secret per secret; the probe `cat <tmpdir>/.lock` with 3/1/10/1/3 iff the probe flag is set |
| `WorkloadBuilder.DeploymentForUnique` | handlers/deploy.go:105-202 | two Deployments built from one request differ only in the order of the environment entries |
| `WorkloadBuilder.MakeServiceSpec` | handlers/deploy.go:204-229 | the Service is named after the function, has type ClusterIP and selector exactly `{faas_function: service}`, and has one TCP port 8080 targeting 8080 |
| `WorkloadBuilder.ServiceSelectsDeployment` | handlers/deploy.go:133-229 | the Service has the Deployment's name and targets its container port; its selector matches the pod labels iff the request does not override `faas_function` with another value |
| `DeployStore.Store.CreateDeploymentIn` | handlers/deploy.go:74-76 | a create succeeds and stores the Deployment unless the call is refused or the name is taken; the call is logged |
| `DeployStore.Store.CreateServiceIn` | handlers/deploy.go:86-88 | the same for the Service |
| `Deploy.DeployHandler.Handle` | handlers/deploy.go:53-103 | malformed JSON gives 400 with no body; an invalid name gives 400 with the message; in both cases the store is untouched and no call is made. A failed Deployment create gives 500 with the error and no Service is created. A failed Service create gives 500 and the new Deployment stays. Success gives 202 with both objects stored |
| `GoInts.Int32FromUint64` | pkg/server/replicas.go:111 | Go's `int32(u)` agrees with u modulo 2^32 |
| `GoInts.Uint64FromInt32` | pkg/server/replicas.go:72-73 | Go's `uint64(i)` agrees with i modulo 2^64 |
| `Cluster.FindFunction` | pkg/server/replicas.go:34-35 | the Function a Get returns is a listed one with that name, and none is returned only when no listed Function has the name |
| `Cluster.FindFunctionUnique` | pkg/server/replicas.go:34-35 | with Function names unique in a namespace, as the API server keeps them, the Get returns the one Function listed under that name |
| `Cluster.Orchestrator.GetFunctionIn` | pkg/server/replicas.go:34-35 | the Function Get answers with the refusal, the Function, or "not found", and is logged |
| `Cluster.Orchestrator.ListFunctionsIn` | pkg/server/list.go:42 | the Function List answers with the refusal or the namespace's Functions in list order, and is logged |
| `Cluster.Orchestrator.GetDeploymentIn` | pkg/server/replicas.go:102-103 | the Deployment Get answers with the refusal, the stored Deployment, or "not found", and is logged |
| `Cluster.Orchestrator.UpdateDeploymentIn` | pkg/server/replicas.go:112 | an Update that is not refused and finds the object replaces it wholesale, and is logged |
| `Replicas.GetReplicas` | pkg/server/replicas.go:67-76 | the cached Deployment's status counts, widened to uint64, with no error when the lister has it; zeros and an error otherwise |
| `Replicas.GetReplicasExact` | pkg/server/replicas.go:72-73 | non-negative status counts come back unchanged |
| `Replicas.ReaderResponse` | pkg/server/replicas.go:33-63 | a failed Function lookup gives 404 with the error text and no status; otherwise 200 with a JSON status copying name, image, labels, annotations and handler (as EnvProcess) from the spec, in the resolved namespace, with 0/0 when the replica lookup fails |
| `Replicas.ReplicaReader.Handle` | pkg/server/replicas.go:21-65 | a non-empty query namespace replaces the captured default for this and later requests; one Function Get is made and the answer is the reader response for its outcome |
| `Replicas.RequestedReplicas` | pkg/server/replicas.go:90-100 | the count to scale to is the decoded request's, or 0 when there is no body |
| `Replicas.Scaled` | pkg/server/replicas.go:111 | only `Spec.Replicas` changes, to `int32(replicas)`; metadata, selector, template and status are written back as read |
| `Replicas.ScaledCount` | pkg/server/replicas.go:111 | counts below 2^31 are written exactly; larger ones wrap, and 2^32 becomes 0 |
| `Replicas.ReplicaHandler.Handle` | pkg/server/replicas.go:78-123 | the query namespace persists as in the reader. Malformed JSON gives 400 with no call; a nil body scales to 0. A failed get gives 500 with no update. A failed update gives 500 and leaves the store unchanged. Success gives 202 and stores the read Deployment with only its replica count replaced |
| `Namespaces.QueryGet` | pkg/server/list.go:26 | `Query().Get` gives the parameter's value, or "" when it is absent |
| `Namespaces.EffectiveNamespace` | pkg/server/list.go:25-32 | the lookup namespace is the query's `namespace` when non-empty, else the default, which is not modified |
| `List.ListEntry` | pkg/server/list.go:52-65 | each entry takes name, image, labels and annotations from the item's spec, the lookup namespace, an empty process, and the cached counts, or 0/0 when the lookup fails |
| `List.StatusesAt` | pkg/server/list.go:50-68 | exactly one status per listed Function, in the list's order, each the entry of its item; a failed replica lookup neither drops nor shortens anything |
| `List.StatusesAppend` | pkg/server/list.go:50-68 | the statuses of a concatenation are the concatenation of the statuses |
| `List.ListResponse` | pkg/server/list.go:39-73 | a failed list call gives 400 with the error text; otherwise 200 with the JSON array of statuses |
| `List.EmptyListIsEmptyArray` | pkg/server/list.go:70-73 | no Functions gives an empty JSON array, not null |
| `Http.Error` | pkg/server/list.go:35 | `http.Error` writes the code, Content-Type `text/plain; charset=utf-8`, and the message followed by one newline |
| `NamespaceRace.Accesses` | pkg/server/replicas.go:27-31 | a request assigns the captured namespace iff its query names one, and then reads it |
| `NamespaceRace.InterleavedReadSeesOtherRequest` | pkg/server/replicas.go:27-35 | with requests for `a` and `b` interleaved as assign, assign, read, read, the request for `a` looks its Function up in `b` |
| `NamespaceRace.LockedServe` | pkg/server/replicas.go:27-31 | a request whose assignment and read run together leaves the captured namespace at the effective namespace and reads it, as one `Handle` call does |
| `NamespaceRace.LockedStaysSettled` | pkg/server/replicas.go:27-31 | with each request's assignment and read run together, every request that has run and names a namespace saw exactly that one |
| `NamespaceRace.LockedServesOwnNamespace` | pkg/server/replicas.go:27-31 | with each request's assignment and read run together, a request that names a namespace works in it, under any schedule of other requests |
| `List.ListHandler.Handle` | pkg/server/list.go:16-76 | `kube-system` as lookup namespace gives 401 with the `http.Error` text and makes no call; otherwise exactly one List call is made and the answer is the list response for its outcome, with counts from the handler's lister |

## Left out

- Replicas.ReplicaReader.Handle, Replicas.ReplicaHandler.Handle: requests are modelled one at a time, each `Handle` call running to completion. Concurrent requests share the captured namespace without synchronization, so a request can run in another request's namespace; `NamespaceRace` models that interleaving for the namespace only.
- EnvComposer.BuildEnvVars: the order of the entries after `fprocess` is not fixed, because Go iterates maps in an unspecified order. The contract fixes the entries, not their order.
- WorkloadBuilder.MakeDeploymentSpec: the Deployment is specified only up to the order of its environment entries, for the same reason.
- HTTP transport and `encoding/json`. Request bodies arrive already decoded, or as a parse failure with its error text. Responses keep the JSON value, not its bytes. Headers other than Content-Type are not modelled, such as the `X-Content-Type-Options` that `http.Error` sets.
- `ioutil.ReadAll` errors, which the source ignores, and the `defer r.Body.Close()` calls.
- Logging through `log` and `glog`.
- main.go and server.go: process start-up, flags, environment and handler wiring. Their handler signatures disagree with each other and with deploy.go, and the packages they use are not part of this model.
- The Kubernetes clientset and the informer are abstract maps. Watches, resource versions, optimistic-concurrency conflicts and the cache's lag are not modelled, except that an API call may fail through `refused`, and the cache is an input the handlers only read.
- `pk8s.GetNamespace` is not part of this model. The reader and the scaler take it as a function parameter.
- `os.TempDir()` is a parameter. `filepath.Join` is modelled for an absolute directory already in clean form; relative directories such as `.`, and removal of `.`, `..` and repeated separators, are not modelled.
- The HTTP Content-Type that net/http sniffs for a raw `w.Write` (`text/plain; charset=utf-8` for the error texts) is not modelled; such responses carry no Content-Type in the model.
- The regular-expression engine. The pattern is read as a structural predicate.
- `requests.CreateFunctionRequest` and the provider's `types.FunctionStatus` and `types.ScaleServiceRequest` are not part of this model. Their fields are inferred from use, and fields that no core line reads are left out.
- The update, delete and function-reader handlers are not part of the core modelled here.
- The `TypeMeta` and resource `Limits` that the deploy path sets are kept as constants, not checked further. `Limits` is an empty map in the source.
- Request-context cancellation (`context.TODO()`).

## Findings

| source | as written | input that shows it | evidently intended | confidence | as-written member | corrected member |
|---|---|---|---|---|---|---|
| pkg/server/replicas.go:27-31, :84-88 | each request assigns the namespace its closure captured, then reads it again, with no lock, while net/http serves requests concurrently | one reader; request A with `?namespace=a`, request B with `?namespace=b`; A assigns, B assigns, A reads: A's Function Get goes to `b` (and the unsynchronized string write is a data race) | a request that names a namespace works in it | not executed | `NamespaceRace.InterleavedReadSeesOtherRequest` | `NamespaceRace.LockedServesOwnNamespace` |
