/** The guarantees of the webhooks, for every run of admitted requests. */
module AdmissionGuarantees {
  import opened Wrappers
  import opened Resources
  import opened NamespaceUsage
  import opened EnvironmentGuard
  import opened PipelineChecks
  import opened Admission
  import opened AdmissionSafety

  predicate Stored(s: State, x: Runtime) {
    match x
    case Deploy(d) => var k := Key(d.namespace, d.name); k in s.deployments && d == DeploymentOf(k, s.deployments[k])
    case Pipe(p) => var k := Key(p.namespace, p.name); k in s.pipelines && p == PipelineOf(k, s.pipelines[k])
  }

  function ClusterOfRuntime(s: State, x: Runtime): Option<string> {
    ClusterAt(s, Key(x.GetProduct(), x.GetName()), x.GetDestination())
  }

  /******* Referential integrity *******/

  /** The environment of every runtime exists, on a worker cluster of the runtime's kind. */
  lemma EnvironmentsExist(s: State, x: Runtime)
    requires Reachable(s) && Stored(s, x)
    ensures HostsWork(s, Key(x.GetProduct(), x.GetDestination()), if x.Deploy? then DeploymentWork else PipelineWork)
  {
    InvReachable(s);
    match x {
      case Deploy(d) => assert HostsWork(s, EnvOf(Key(d.namespace, d.name), d.spec.environment), DeploymentWork);
      case Pipe(p) => assert HostsWork(s, EnvOf(Key(p.namespace, p.name), p.spec.environment), PipelineWork);
    }
  }

  /** No listing of used namespaces ever fails: neither the map over all runtimes, whatever
      it excludes, nor the one whose error checkNamespacesIsUsed ignores. */
  lemma UsageNeverFails(s: State, cl: Client, excluded: seq<Runtime>, inCluster: string)
    requires Reachable(s) && Serves(cl, s)
    ensures UsedNamespaces(cl, excluded, inCluster).Ok?
    ensures AllResolve(cl.deployments, cl.envs) && AllFound(cl.deployments, cl.envs)
  {
    InvReachable(s);
    AllServedResolve(cl, s);
    ServedBarFree(cl, s);
    MemoRightWithoutBars(cl.deployments, cl.envs);
    forall x | x in AllRuntimes(cl) ensures Resolve(cl.envs, x).Ok? {
      D.RuntimeListed(cl, x);
      assert Stored(s, x);
      EnvironmentsExist(s, x);
      ServedRuntime(cl, s, x);
    }
    ErrorMeaning(AllRuntimes(cl), cl.envs, excluded);
  }

  predicate RefersTo(x: Runtime, k: Key) {
    Key(x.GetProduct(), x.GetDestination()) == k
  }

  lemma ReferenceIsListed(s: State, cl: Client, k: Key, x: Runtime)
    requires Inv(s) && Serves(cl, s) && Stored(s, x) && RefersTo(x, k)
    ensures Referenced(cl, k.namespace, k.name)
  {
    match x
    case Deploy(d) => assert d in ListDeploymentRuntimes(cl, k.namespace);
    case Pipe(p) => assert p in ListProjectPipelineRuntimes(cl, k.namespace);
  }

  lemma ListedIsReference(s: State, cl: Client, k: Key) returns (x: Runtime)
    requires Inv(s) && Serves(cl, s) && Referenced(cl, k.namespace, k.name) && k.namespace != ""
    ensures Stored(s, x) && RefersTo(x, k)
  {
    if d :| d in ListDeploymentRuntimes(cl, k.namespace) && d.spec.environment == k.name {
      x := Deploy(d);
    } else {
      var p :| p in ListProjectPipelineRuntimes(cl, k.namespace) && p.spec.environment == k.name;
      x := Pipe(p);
    }
  }

  /** An environment may be deleted iff no runtime refers to it. */
  lemma GuardExact(s: State, cl: Client, k: Key)
    requires Reachable(s) && Serves(cl, s) && k in s.envs && k.namespace != ""
    ensures Enabled(cl, s, DeleteEnv(k)) <==> forall x :: Stored(s, x) ==> !RefersTo(x, k)
  {
    InvReachable(s);
    if Referenced(cl, k.namespace, k.name) {
      var x := ListedIsReference(s, cl, k);
    }
    if x :| Stored(s, x) && RefersTo(x, k) {
      ReferenceIsListed(s, cl, k, x);
    }
  }

  /******* Namespaces of pipelines *******/

  /** A pipeline runtime shares its namespace with no other runtime of its cluster, of
      either kind. */
  lemma NamespaceExclusive(s: State, x: Runtime, y: Runtime)
    requires Reachable(s) && Stored(s, x) && Stored(s, y) && x.Pipe? && x != y
    requires ClusterOfRuntime(s, x) == ClusterOfRuntime(s, y)
    ensures !D.Shares(x.GetNamespaces(), y.GetNamespaces())
  {
    InvReachable(s);
    EnvironmentsExist(s, x);
    EnvironmentsExist(s, y);
    if y.Pipe? {
      var j, k := Key(x.pipeline.namespace, x.pipeline.name), Key(y.pipeline.namespace, y.pipeline.name);
      assert !PipelinesClash(s, j, s.pipelines[j], k, s.pipelines[k]);
      assert ClusterAt(s, j, s.pipelines[j].environment) == ClusterOfRuntime(s, x);
      assert ClusterAt(s, k, s.pipelines[k].environment) == ClusterOfRuntime(s, y);
    }
  }

  lemma StoredKeepsNamespace(s: State, cl: Client, p: PipelineRuntime, cluster: string)
    requires Reachable(s) && Serves(cl, s) && Stored(s, Pipe(p)) && ClusterOfRuntime(s, Pipe(p)) == Some(cluster)
    ensures P.OthersResolve(cl, p) && P.NamespaceFree(cl, p, cluster)
  {
    InvReachable(s);
    forall x | x in AllRuntimes(cl) && !SameRuntime(x, Pipe(p))
      ensures Resolve(cl.envs, x).Ok?
      ensures Resolve(cl.envs, x) == Ok(cluster) ==> p.GetNamespaces()[0] !in x.GetNamespaces()
    {
      D.RuntimeListed(cl, x);
      assert Stored(s, x);
      EnvironmentsExist(s, x);
      ServedRuntime(cl, s, x);
      if Resolve(cl.envs, x) == Ok(cluster) {
        NamespaceExclusive(s, Pipe(p), x);
      }
    }
  }

  // What other people can change under a stored runtime.
  predicate MayChange(e: P.Refusal) {
    match e
    case StaticallyWrong | ClusterNotFound | NotAPipelineCluster | UsageUnknown | NamespaceUsed => false
    case _ => true
  }

  lemma OnlyWhatMayChange(cl: Client, p: PipelineRuntime, c: Cluster)
    requires StaticOk(p.spec) && GetClusterByRuntime(cl, p.namespace, p.spec.environment) == Some(c)
    requires c.usage == Worker && c.workType == PipelineWork
    requires P.OthersResolve(cl, p) && P.NamespaceFree(cl, p, c.name)
    ensures P.Verdict(cl, p).Err? ==> MayChange(P.Verdict(cl, p).error)
  {
    P.NamespaceMeaning(cl, p, c);
  }

  /** A stored pipeline runtime never fails a later validation for its spec, its place or
      its namespace: only a permission or the hooks can have changed. */
  lemma StoredPipelineStillFits(s: State, cl: Client, p: PipelineRuntime)
    requires Reachable(s) && Serves(cl, s) && Stored(s, Pipe(p))
    ensures P.Verdict(cl, p).Err? ==> MayChange(P.Verdict(cl, p).error)
  {
    InvReachable(s);
    EnvironmentsExist(s, Pipe(p));
    ServedEnv(cl, s, Key(p.namespace, p.spec.environment));
    var c := GetClusterByRuntime(cl, p.namespace, p.spec.environment).value;
    StoredKeepsNamespace(s, cl, p, c.name);
    OnlyWhatMayChange(cl, p, c);
  }

  /******* Deployments *******/

  /** Of two colliding deployment runtimes one is deployed as its spec says. */
  lemma OneOfTwoIsDeployed(s: State, j: Key, k: Key)
    requires Reachable(s) && j in s.deployments && k in s.deployments && j != k
    requires Collide(s, j, s.deployments[j], k, s.deployments[k])
    ensures var x, y := s.deployments[j], s.deployments[k];
      || (x.history.Some? && x.history.value.manifest == x.spec.manifest
          && x.history.value.environment == x.spec.environment)
      || (y.history.Some? && y.history.value.manifest == y.spec.manifest
          && y.history.value.environment == y.spec.environment)
  {
    InvReachable(s);
    assert Settled(s.deployments[j]) || Settled(s.deployments[k]);
  }

  lemma NeverDeployedApart(s: State, j: Key, k: Key)
    requires Reachable(s) && j in s.deployments && k in s.deployments && j != k
    requires s.deployments[j].history.None? && s.deployments[k].history.None?
    ensures !Collide(s, j, s.deployments[j], k, s.deployments[k])
  {
    InvReachable(s);
  }

  /** Two never deployed runtimes of different products share a namespace of a cluster only
      if one of them lists none and takes its own name. */
  lemma SharedByDefaultOnly(s: State, j: Key, k: Key)
    requires Reachable(s) && j in s.deployments && k in s.deployments && j.namespace != k.namespace
    requires s.deployments[j].history.None? && s.deployments[k].history.None?
    requires ClusterAt(s, j, s.deployments[j].spec.environment) == ClusterAt(s, k, s.deployments[k].spec.environment)
    requires var x, y := DeploymentOf(j, s.deployments[j]), DeploymentOf(k, s.deployments[k]);
      D.Shares(x.GetNamespaces(), y.GetNamespaces())
    ensures |s.deployments[j].spec.namespaces| == 0 || |s.deployments[k].spec.namespaces| == 0
  {
    NeverDeployedApart(s, j, k);
  }

  // From now on the runtime is deployed in this environment, on this cluster.
  predicate Pinned(s: State, k: Key, environment: string, cluster: string) {
    && k in s.deployments && s.deployments[k].history.Some?
    && s.deployments[k].history.value.environment == environment
    && s.deployments[k].spec.environment == environment
    && ClusterAt(s, k, environment) == Some(cluster)
    && HostsWork(s, EnvOf(k, environment), DeploymentWork)
  }

  lemma PinnedByEnvs(s: State, r: Request, k: Key, environment: string, cluster: string)
    requires Admitted(s, r) && Pinned(s, k, environment, cluster) && (r.action.CreateEnv? || r.action.DeleteEnv?)
    ensures Pinned(Next(s, r.action), k, environment, cluster)
  {
    assert DeploymentOf(k, s.deployments[k]) in ListDeploymentRuntimes(r.cl, k.namespace);
  }

  // An update of the runtime itself passes only with the environment it is deployed in.
  lemma PinnedByUpdate(s: State, r: Request, k: Key, environment: string, cluster: string)
    requires Admitted(s, r) && Pinned(s, k, environment, cluster) && r.action.UpdateDeployment?
    ensures Pinned(Next(s, r.action), k, environment, cluster)
  {
  }

  lemma PinnedByOthers(s: State, r: Request, k: Key, environment: string, cluster: string)
    requires Admitted(s, r) && Pinned(s, k, environment, cluster) && r.action != DeleteDeployment(k)
    requires !r.action.CreateEnv? && !r.action.DeleteEnv? && !r.action.UpdateDeployment?
    ensures Pinned(Next(s, r.action), k, environment, cluster)
  {
  }

  lemma PinnedStep(s: State, r: Request, k: Key, environment: string, cluster: string)
    requires Admitted(s, r) && Pinned(s, k, environment, cluster) && r.action != DeleteDeployment(k)
    ensures Pinned(Next(s, r.action), k, environment, cluster)
  {
    match r.action
    case CreateEnv(_, _) => PinnedByEnvs(s, r, k, environment, cluster);
    case DeleteEnv(_) => PinnedByEnvs(s, r, k, environment, cluster);
    case UpdateDeployment(_, _) => PinnedByUpdate(s, r, k, environment, cluster);
    case _ => PinnedByOthers(s, r, k, environment, cluster);
  }

  /** Once a deployment runtime is deployed it keeps its environment and its deployment
      cluster until it is deleted, through every path an update can take. */
  lemma {:induction false} FrozenEnvironment(s: State, run: seq<Request>, k: Key, environment: string, cluster: string)
    requires Inv(s) && Runnable(s, run) && Pinned(s, k, environment, cluster)
    requires forall i :: 0 <= i < |run| ==> run[i].action != DeleteDeployment(k)
    ensures Pinned(After(s, run), k, environment, cluster)
    decreases |run|
  {
    if |run| > 0 {
      InvStep(s, run[0]);
      PinnedStep(s, run[0], k, environment, cluster);
      FrozenEnvironment(Next(s, run[0].action), run[1..], k, environment, cluster);
    }
  }

  /** Recording a deploy pins the runtime to the environment and cluster it has now. */
  lemma RecordedIsPinned(s: State, k: Key)
    requires Reachable(s) && k in s.deployments
    ensures var e := s.deployments[k].spec.environment;
      EnvOf(k, e) in s.envs && Pinned(Next(s, RecordDeploy(k)), k, e, s.envs[EnvOf(k, e)])
  {
    InvReachable(s);
    assert HostsWork(s, EnvOf(k, s.deployments[k].spec.environment), DeploymentWork);
  }
}
