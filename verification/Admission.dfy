/**
 The admission webhooks as a state machine over environments and runtimes.

 Every step is admitted by the webhooks' own checks, run with a client that serves the
 current state; code repositories, their bindings and the hook metadata may be anything.
 An environment and a deployment runtime live in their product's namespace. The names of
 environments and of their namespaces, like all such names, hold no bar. Clusters do
 not change, and neither does the cluster of an environment. Each admission is atomic.
*/
module Admission {
  import opened Wrappers
  import opened Resources
  import opened NamespaceUsage
  import opened EnvironmentGuard
  import opened PipelineChecks
  import P = PipelineValidate
  import D = DeploymentChecks

  datatype Key = Key(namespace: string, name: string)

  datatype Deployment = Deployment(spec: DeploymentSpec, history: Option<DeployHistory>)

  // `envs` holds the cluster of each environment.
  datatype State = State(
    clusters: map<string, Cluster>, envs: map<Key, string>,
    deployments: map<Key, Deployment>, pipelines: map<Key, PipelineSpec>)

  datatype Action =
    | CreateEnv(key: Key, cluster: string)
    | DeleteEnv(key: Key)
    | CreateDeployment(key: Key, spec: DeploymentSpec)
    | UpdateDeployment(key: Key, spec: DeploymentSpec)
    | DeleteDeployment(key: Key)
    | RecordDeploy(key: Key)           // the operator has deployed the current spec
    | CreatePipeline(key: Key, pipeline: PipelineSpec)
    | UpdatePipeline(key: Key, pipeline: PipelineSpec)
    | DeletePipeline(key: Key)

  function DeploymentOf(k: Key, d: Deployment): DeploymentRuntime {
    DeploymentRuntime(k.namespace, k.name, d.spec, d.history)
  }

  function PipelineOf(k: Key, spec: PipelineSpec): PipelineRuntime {
    PipelineRuntime(k.namespace, k.name, spec)
  }

  // The client's answers are the stored objects, in any order.
  ghost predicate Serves(cl: Client, s: State) {
    && cl.clusters == s.clusters
    && (forall e :: e in cl.envs <==>
          var k := Key(e.namespace, e.name);
          k in s.envs && e == Environment(k.namespace, k.name, k.namespace, s.envs[k]))
    && (forall d :: d in cl.deployments <==>
          var k := Key(d.namespace, d.name); k in s.deployments && d == DeploymentOf(k, s.deployments[k]))
    && (forall p :: p in cl.pipelines <==>
          var k := Key(p.namespace, p.name); k in s.pipelines && p == PipelineOf(k, s.pipelines[k]))
  }

  predicate AdmitsDeployment(cl: Client, d: DeploymentRuntime) {
    D.Verdict(cl, d) == Ok([])
  }

  predicate AdmitsPipeline(cl: Client, p: PipelineRuntime) {
    P.Verdict(cl, p) == Ok([])
  }

  // An update that leaves the spec alone is accepted without validation.
  predicate Enabled(cl: Client, s: State, a: Action) {
    match a
    case CreateEnv(k, _) => k !in s.envs && '|' !in k.namespace && '|' !in k.name
    case DeleteEnv(k) => k in s.envs && !Referenced(cl, k.namespace, k.name)
    case CreateDeployment(k, spec) =>
      k !in s.deployments && spec.product == k.namespace
      && AdmitsDeployment(cl, DeploymentOf(k, Deployment(spec, None)))
    case UpdateDeployment(k, spec) =>
      k in s.deployments && spec.product == k.namespace
      && (spec == s.deployments[k].spec || AdmitsDeployment(cl, DeploymentOf(k, s.deployments[k].(spec := spec))))
    case DeleteDeployment(k) => k in s.deployments
    case RecordDeploy(k) => k in s.deployments
    case CreatePipeline(k, spec) => k !in s.pipelines && AdmitsPipeline(cl, PipelineOf(k, spec))
    case UpdatePipeline(k, spec) =>
      k in s.pipelines && (spec == s.pipelines[k] || AdmitsPipeline(cl, PipelineOf(k, spec)))
    case DeletePipeline(k) => k in s.pipelines
  }

  function Recorded(d: Deployment): Deployment {
    d.(history := Some(DeployHistory(d.spec.manifest, d.spec.environment, d.spec.namespaces)))
  }

  function Next(s: State, a: Action): State {
    match a
    case CreateEnv(k, cluster) => s.(envs := s.envs[k := cluster])
    case DeleteEnv(k) => s.(envs := s.envs - {k})
    case CreateDeployment(k, spec) => s.(deployments := s.deployments[k := Deployment(spec, None)])
    case UpdateDeployment(k, spec) =>
      if k in s.deployments then s.(deployments := s.deployments[k := s.deployments[k].(spec := spec)]) else s
    case DeleteDeployment(k) => s.(deployments := s.deployments - {k})
    case RecordDeploy(k) =>
      if k in s.deployments then s.(deployments := s.deployments[k := Recorded(s.deployments[k])]) else s
    case CreatePipeline(k, spec) => s.(pipelines := s.pipelines[k := spec])
    case UpdatePipeline(k, spec) => s.(pipelines := s.pipelines[k := spec])
    case DeletePipeline(k) => s.(pipelines := s.pipelines - {k})
  }

  datatype Request = Request(cl: Client, action: Action)

  ghost predicate Admitted(s: State, r: Request) {
    Serves(r.cl, s) && Enabled(r.cl, s, r.action)
  }

  ghost predicate Runnable(s: State, run: seq<Request>)
    decreases |run|
  {
    |run| == 0 || (Admitted(s, run[0]) && Runnable(Next(s, run[0].action), run[1..]))
  }

  function After(s: State, run: seq<Request>): State
    decreases |run|
  {
    if |run| == 0 then s else After(Next(s, run[0].action), run[1..])
  }

  predicate Initial(s: State) {
    && s.envs == map[] && s.deployments == map[] && s.pipelines == map[]
    && forall c :: c in s.clusters ==> s.clusters[c].name == c
  }

  /******* The invariant *******/

  function EnvOf(k: Key, environment: string): Key {
    Key(k.namespace, environment)
  }

  predicate HostsWork(s: State, env: Key, w: WorkType) {
    && env in s.envs && s.envs[env] in s.clusters
    && s.clusters[s.envs[env]].usage == Worker && s.clusters[s.envs[env]].workType == w
  }

  // Every runtime has its environment, on a worker cluster of its kind.
  predicate Placed(s: State) {
    && (forall k :: k in s.deployments ==> HostsWork(s, EnvOf(k, s.deployments[k].spec.environment), DeploymentWork))
    && (forall k :: k in s.pipelines ==> HostsWork(s, EnvOf(k, s.pipelines[k].environment), PipelineWork))
  }

  predicate Aligned(s: State) {
    && (forall c :: c in s.clusters ==> s.clusters[c].name == c)
    && (forall k :: k in s.envs ==> '|' !in k.namespace && '|' !in k.name)
    && (forall k :: k in s.deployments ==> s.deployments[k].spec.product == k.namespace)
  }

  predicate Frozen(d: Deployment) {
    d.history.Some? ==> d.history.value.environment == d.spec.environment
  }

  function ClusterAt(s: State, k: Key, environment: string): Option<string> {
    if EnvOf(k, environment) in s.envs then Some(s.envs[EnvOf(k, environment)]) else None
  }

  // Two pipeline runtimes in the same namespace of the same cluster: the one they name or,
  // if they name none, their own name.
  predicate PipelinesClash(s: State, j: Key, x: PipelineSpec, k: Key, y: PipelineSpec) {
    && ClusterAt(s, j, x.environment) == ClusterAt(s, k, y.environment)
    && (if x.namespace == "" then j.name else x.namespace) == (if y.namespace == "" then k.name else y.namespace)
  }

  // Two deployment runtimes that deploy the same thing to the same place, or runtimes of
  // two products that list the same namespace of one cluster.
  predicate Collide(s: State, j: Key, x: Deployment, k: Key, y: Deployment) {
    || (j.namespace == k.namespace && x.spec.manifest == y.spec.manifest && x.spec.environment == y.spec.environment)
    || (j.namespace != k.namespace && ClusterAt(s, j, x.spec.environment) == ClusterAt(s, k, y.spec.environment)
        && D.Shares(x.spec.namespaces, y.spec.namespaces))
  }

  predicate Settled(d: Deployment) {
    d.history.Some? && d.history.value.manifest == d.spec.manifest && d.history.value.environment == d.spec.environment
  }

  predicate PipelinesApart(s: State) {
    forall j, k :: j in s.pipelines && k in s.pipelines && j != k ==>
      !PipelinesClash(s, j, s.pipelines[j], k, s.pipelines[k])
  }

  predicate CollisionsSettled(s: State) {
    forall j, k :: j in s.deployments && k in s.deployments && j != k ==>
      Collide(s, j, s.deployments[j], k, s.deployments[k]) ==>
      Settled(s.deployments[j]) || Settled(s.deployments[k])
  }

  predicate AllFrozen(s: State) {
    forall k :: k in s.deployments ==> Frozen(s.deployments[k])
  }

  predicate AllStatic(s: State) {
    forall k :: k in s.pipelines ==> StaticOk(s.pipelines[k])
  }

  predicate Inv(s: State) {
    Aligned(s) && Placed(s) && AllFrozen(s) && AllStatic(s) && PipelinesApart(s) && CollisionsSettled(s)
  }

  /******* What the client says about the state *******/

  lemma ServedEnv(cl: Client, s: State, k: Key)
    requires Serves(cl, s)
    ensures LookupEnv(cl.envs, k.namespace, k.name) ==
      if k in s.envs then Some(Environment(k.namespace, k.name, k.namespace, s.envs[k])) else None
  {
    if k in s.envs {
      assert Environment(k.namespace, k.name, k.namespace, s.envs[k]) in cl.envs;
    }
  }

  lemma ServedEnvsUnique(cl: Client, s: State)
    requires Serves(cl, s)
    ensures UniqueEnvs(cl.envs) && forall e :: e in cl.envs ==> e.namespace == e.product
  {
  }

  lemma ServedCluster(cl: Client, s: State, product: string, environment: string, w: WorkType)
    requires Serves(cl, s)
    requires var c := GetClusterByRuntime(cl, product, environment);
      c.Some? && c.value.usage == Worker && c.value.workType == w
    ensures HostsWork(s, Key(product, environment), w)
    ensures GetClusterByRuntime(cl, product, environment) == Some(s.clusters[s.envs[Key(product, environment)]])
  {
    ServedEnv(cl, s, Key(product, environment));
  }

  lemma ServedRuntime(cl: Client, s: State, x: Runtime)
    requires Serves(cl, s) && Key(x.GetProduct(), x.GetDestination()) in s.envs
    ensures Resolve(cl.envs, x) == Ok(s.envs[Key(x.GetProduct(), x.GetDestination())])
  {
    var k := Key(x.GetProduct(), x.GetDestination());
    ServedEnv(cl, s, k);
    ServedEnvsUnique(cl, s);
    CacheAgrees(cl.envs, k.namespace, k.name);
    assert Environment(k.namespace, k.name, k.namespace, s.envs[k]) in cl.envs;
  }
}
