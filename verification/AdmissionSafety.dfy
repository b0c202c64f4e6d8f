/** What every reachable state of the admitted environments and runtimes satisfies. */
module AdmissionSafety {
  import opened Wrappers
  import opened Resources
  import opened NamespaceUsage
  import opened EnvironmentGuard
  import opened PipelineChecks
  import opened Admission

  /******* One step *******/

  lemma EnvsKeep(s: State, s': State)
    requires Inv(s) && s' == s.(envs := s'.envs) && Aligned(s')
    requires forall k :: k in s.deployments ==>
      ClusterAt(s, k, s.deployments[k].spec.environment) == ClusterAt(s', k, s.deployments[k].spec.environment)
    requires forall k :: k in s.pipelines ==>
      ClusterAt(s, k, s.pipelines[k].environment) == ClusterAt(s', k, s.pipelines[k].environment)
    ensures Inv(s')
  {
    forall k | k in s.deployments ensures HostsWork(s', EnvOf(k, s.deployments[k].spec.environment), DeploymentWork) {
      assert HostsWork(s, EnvOf(k, s.deployments[k].spec.environment), DeploymentWork);
    }
    forall k | k in s.pipelines ensures HostsWork(s', EnvOf(k, s.pipelines[k].environment), PipelineWork) {
      assert HostsWork(s, EnvOf(k, s.pipelines[k].environment), PipelineWork);
    }
    forall j, k | j in s.pipelines && k in s.pipelines && j != k
      ensures !PipelinesClash(s', j, s.pipelines[j], k, s.pipelines[k])
    {
      assert !PipelinesClash(s, j, s.pipelines[j], k, s.pipelines[k]);
    }
    forall j, k | j in s.deployments && k in s.deployments && j != k
                  && Collide(s', j, s.deployments[j], k, s.deployments[k])
      ensures Settled(s.deployments[j]) || Settled(s.deployments[k])
    {
      assert Collide(s, j, s.deployments[j], k, s.deployments[k]);
    }
  }

  lemma CreateEnvKeeps(s: State, k: Key, cluster: string)
    requires Inv(s) && k !in s.envs && '|' !in k.namespace && '|' !in k.name
    ensures Inv(s.(envs := s.envs[k := cluster]))
  {
    var s' := s.(envs := s.envs[k := cluster]);
    forall j | j in s.deployments
      ensures ClusterAt(s, j, s.deployments[j].spec.environment) == ClusterAt(s', j, s.deployments[j].spec.environment)
    {
      assert HostsWork(s, EnvOf(j, s.deployments[j].spec.environment), DeploymentWork);
    }
    forall j | j in s.pipelines
      ensures ClusterAt(s, j, s.pipelines[j].environment) == ClusterAt(s', j, s.pipelines[j].environment)
    {
      assert HostsWork(s, EnvOf(j, s.pipelines[j].environment), PipelineWork);
    }
    EnvsKeep(s, s');
  }

  // The guard sees every runtime that refers to the environment.
  lemma DeleteEnvKeeps(cl: Client, s: State, k: Key)
    requires Inv(s) && Serves(cl, s) && !Referenced(cl, k.namespace, k.name)
    ensures Inv(s.(envs := s.envs - {k}))
  {
    var s' := s.(envs := s.envs - {k});
    forall j | j in s.deployments
      ensures ClusterAt(s, j, s.deployments[j].spec.environment) == ClusterAt(s', j, s.deployments[j].spec.environment)
    {
      assert DeploymentOf(j, s.deployments[j]) in ListDeploymentRuntimes(cl, j.namespace);
    }
    forall j | j in s.pipelines
      ensures ClusterAt(s, j, s.pipelines[j].environment) == ClusterAt(s', j, s.pipelines[j].environment)
    {
      assert PipelineOf(j, s.pipelines[j]) in ListProjectPipelineRuntimes(cl, j.namespace);
    }
    EnvsKeep(s, s');
  }

  // A deployment may be stored if it is placed and frozen, and is settled or collides with no other.
  predicate Fits(s: State, k: Key, d: Deployment) {
    && d.spec.product == k.namespace && HostsWork(s, EnvOf(k, d.spec.environment), DeploymentWork) && Frozen(d)
    && (Settled(d) || forall j :: j in s.deployments && j != k ==> !Collide(s, j, s.deployments[j], k, d))
  }

  lemma CollideSymmetric(s: State, j: Key, x: Deployment, k: Key, y: Deployment)
    ensures Collide(s, j, x, k, y) <==> Collide(s, k, y, j, x)
  {
  }

  lemma PutDeployment(s: State, s': State, k: Key, d: Deployment)
    requires Inv(s) && Fits(s, k, d) && s' == s.(deployments := s.deployments[k := d])
    ensures Inv(s')
  {
    forall j | j in s'.deployments ensures HostsWork(s', EnvOf(j, s'.deployments[j].spec.environment), DeploymentWork) {
      assert j != k ==> HostsWork(s, EnvOf(j, s.deployments[j].spec.environment), DeploymentWork);
    }
    forall j | j in s.pipelines ensures HostsWork(s', EnvOf(j, s.pipelines[j].environment), PipelineWork) {
      assert HostsWork(s, EnvOf(j, s.pipelines[j].environment), PipelineWork);
    }
    PipelinesStayApart(s, s');
    CollisionsStaySettled(s, s', k, d);
  }

  lemma PipelinesStayApart(s: State, s': State)
    requires PipelinesApart(s) && s'.envs == s.envs && s'.pipelines == s.pipelines
    ensures PipelinesApart(s')
  {
    forall j, i | j in s.pipelines && i in s.pipelines && j != i
      ensures !PipelinesClash(s', j, s.pipelines[j], i, s.pipelines[i])
    {
      assert !PipelinesClash(s, j, s.pipelines[j], i, s.pipelines[i]);
    }
  }

  lemma CollisionsStaySettled(s: State, s': State, k: Key, d: Deployment)
    requires CollisionsSettled(s) && Fits(s, k, d) && s' == s.(deployments := s.deployments[k := d])
    ensures CollisionsSettled(s')
  {
    forall j, i | j in s'.deployments && i in s'.deployments && j != i
                  && Collide(s', j, s'.deployments[j], i, s'.deployments[i])
      ensures Settled(s'.deployments[j]) || Settled(s'.deployments[i])
    {
      assert Collide(s, j, s'.deployments[j], i, s'.deployments[i]);
      CollideSymmetric(s, j, s'.deployments[j], i, s'.deployments[i]);
    }
  }

  lemma PutPipeline(s: State, s': State, k: Key, spec: PipelineSpec)
    requires Inv(s) && StaticOk(spec) && HostsWork(s, EnvOf(k, spec.environment), PipelineWork)
    requires forall j :: j in s.pipelines && j != k ==> !PipelinesClash(s, j, s.pipelines[j], k, spec)
    requires s' == s.(pipelines := s.pipelines[k := spec])
    ensures Inv(s')
  {
    forall j | j in s.deployments ensures HostsWork(s', EnvOf(j, s.deployments[j].spec.environment), DeploymentWork) {
      assert HostsWork(s, EnvOf(j, s.deployments[j].spec.environment), DeploymentWork);
    }
    forall j | j in s'.pipelines ensures HostsWork(s', EnvOf(j, s'.pipelines[j].environment), PipelineWork) {
      assert j != k ==> HostsWork(s, EnvOf(j, s.pipelines[j].environment), PipelineWork);
    }
    forall j, i | j in s'.pipelines && i in s'.pipelines && j != i
      ensures !PipelinesClash(s', j, s'.pipelines[j], i, s'.pipelines[i])
    {
      assert j != k && i != k ==> !PipelinesClash(s, j, s.pipelines[j], i, s.pipelines[i]);
    }
    CollisionsUntouched(s, s');
  }

  lemma CollisionsUntouched(s: State, s': State)
    requires CollisionsSettled(s) && s'.envs == s.envs && s'.deployments == s.deployments
    ensures CollisionsSettled(s')
  {
    forall j, i | j in s.deployments && i in s.deployments && j != i
                  && Collide(s', j, s.deployments[j], i, s.deployments[i])
      ensures Settled(s.deployments[j]) || Settled(s.deployments[i])
    {
      assert Collide(s, j, s.deployments[j], i, s.deployments[i]);
    }
  }

  lemma DropKeeps(s: State, s': State)
    requires Inv(s) && s' == s.(deployments := s'.deployments, pipelines := s'.pipelines)
    requires forall k :: k in s'.deployments ==> k in s.deployments && s'.deployments[k] == s.deployments[k]
    requires forall k :: k in s'.pipelines ==> k in s.pipelines && s'.pipelines[k] == s.pipelines[k]
    ensures Inv(s')
  {
    forall j | j in s'.deployments ensures HostsWork(s', EnvOf(j, s'.deployments[j].spec.environment), DeploymentWork) {
      assert HostsWork(s, EnvOf(j, s.deployments[j].spec.environment), DeploymentWork);
    }
    forall j | j in s'.pipelines ensures HostsWork(s', EnvOf(j, s'.pipelines[j].environment), PipelineWork) {
      assert HostsWork(s, EnvOf(j, s.pipelines[j].environment), PipelineWork);
    }
    forall j, i | j in s'.pipelines && i in s'.pipelines && j != i
      ensures !PipelinesClash(s', j, s'.pipelines[j], i, s'.pipelines[i])
    {
      assert !PipelinesClash(s, j, s.pipelines[j], i, s.pipelines[i]);
    }
    forall j, i | j in s'.deployments && i in s'.deployments && j != i
                  && Collide(s', j, s'.deployments[j], i, s'.deployments[i])
      ensures Settled(s'.deployments[j]) || Settled(s'.deployments[i])
    {
      assert Collide(s, j, s.deployments[j], i, s.deployments[i]);
    }
  }

  /******* What validation gives *******/

  lemma ServedDeployment(cl: Client, s: State, j: Key)
    requires Inv(s) && Serves(cl, s) && j in s.deployments
    ensures var x := DeploymentOf(j, s.deployments[j]);
      x in cl.deployments && ClusterOf(cl.envs, x) == ClusterAt(s, j, x.spec.environment) && ClusterOf(cl.envs, x).Some?
  {
    assert HostsWork(s, EnvOf(j, s.deployments[j].spec.environment), DeploymentWork);
    ServedEnv(cl, s, EnvOf(j, s.deployments[j].spec.environment));
  }

  lemma AllServedResolve(cl: Client, s: State)
    requires Inv(s) && Serves(cl, s)
    ensures AllResolve(cl.deployments, cl.envs)
  {
    forall x | x in cl.deployments ensures ClusterOf(cl.envs, x).Some? {
      ServedDeployment(cl, s, Key(x.namespace, x.name));
    }
  }

  lemma ServedBarFree(cl: Client, s: State)
    requires Aligned(s) && Serves(cl, s)
    ensures NoBars(cl.envs)
  {
    forall e | e in cl.envs ensures '|' !in e.namespace && '|' !in e.name {
      assert Key(e.namespace, e.name) in s.envs;
    }
  }

  lemma FullCheckSeesCollisions(cl: Client, s: State, k: Key, d: Deployment, j: Key)
    requires Inv(s) && Serves(cl, s) && d.spec.product == k.namespace && j in s.deployments && j != k
    requires D.FullRefusal(cl, DeploymentOf(k, d)).None?
    ensures !Collide(s, j, s.deployments[j], k, d)
  {
    var x, y := DeploymentOf(j, s.deployments[j]), DeploymentOf(k, d);
    ServedDeployment(cl, s, j);
    ServedEnv(cl, s, EnvOf(k, d.spec.environment));
    AllServedResolve(cl, s);
    if j.namespace == k.namespace {
      assert x in ListDeploymentRuntimes(cl, y.spec.product);
      assert !(x.name != y.name && D.SameDeployment(y, x));
    } else if ClusterAt(s, j, x.spec.environment) == ClusterAt(s, k, y.spec.environment) {
      ServedBarFree(cl, s);
      D.TakenWithoutBars(cl, y);
      assert ClusterOf(cl.envs, x) == ClusterOf(cl.envs, y);
      assert !D.Shares(x.spec.namespaces, y.spec.namespaces);
    }
  }

  // The early path keeps the environment, so the runtime stays where it was placed.
  lemma AdmittedFits(cl: Client, s: State, k: Key, d: Deployment)
    requires Inv(s) && Serves(cl, s) && AdmitsDeployment(cl, DeploymentOf(k, d))
    requires d.spec.product == k.namespace
    requires d.history.Some? ==> k in s.deployments && s.deployments[k].history == d.history
    ensures Fits(s, k, d)
  {
    var y := DeploymentOf(k, d);
    if D.MatchesHistory(y) {
      assert Frozen(s.deployments[k]);
      assert HostsWork(s, EnvOf(k, s.deployments[k].spec.environment), DeploymentWork);
    } else {
      assert D.FullRefusal(cl, y).None?;
      ServedCluster(cl, s, k.namespace, d.spec.environment, DeploymentWork);
      forall j | j in s.deployments && j != k ensures !Collide(s, j, s.deployments[j], k, d) {
        FullCheckSeesCollisions(cl, s, k, d, j);
      }
    }
  }

  lemma AdmittedPlaced(cl: Client, s: State, k: Key, spec: PipelineSpec)
    requires Serves(cl, s) && AdmitsPipeline(cl, PipelineOf(k, spec))
    ensures StaticOk(spec) && HostsWork(s, EnvOf(k, spec.environment), PipelineWork)
  {
    P.AcceptanceMeaning(cl, PipelineOf(k, spec));
    ServedCluster(cl, s, k.namespace, spec.environment, PipelineWork);
  }

  lemma AdmittedApart(cl: Client, s: State, k: Key, spec: PipelineSpec, j: Key)
    requires Inv(s) && Serves(cl, s) && AdmitsPipeline(cl, PipelineOf(k, spec)) && j in s.pipelines && j != k
    ensures !PipelinesClash(s, j, s.pipelines[j], k, spec)
  {
    var x, y := Pipe(PipelineOf(j, s.pipelines[j])), PipelineOf(k, spec);
    P.AcceptanceMeaning(cl, y);
    ServedCluster(cl, s, k.namespace, spec.environment, PipelineWork);
    assert HostsWork(s, EnvOf(j, s.pipelines[j].environment), PipelineWork);
    ServedRuntime(cl, s, x);
    D.RuntimeListed(cl, x);
    assert !SameRuntime(x, Pipe(y));
    var c := s.envs[EnvOf(k, spec.environment)];
    assert Resolve(cl.envs, x) == Ok(c) ==> y.GetNamespaces()[0] !in x.GetNamespaces();
  }

  lemma PutAdmittedPipeline(cl: Client, s: State, k: Key, spec: PipelineSpec)
    requires Inv(s) && Serves(cl, s) && AdmitsPipeline(cl, PipelineOf(k, spec))
    ensures Inv(s.(pipelines := s.pipelines[k := spec]))
  {
    AdmittedPlaced(cl, s, k, spec);
    forall j | j in s.pipelines && j != k ensures !PipelinesClash(s, j, s.pipelines[j], k, spec) {
      AdmittedApart(cl, s, k, spec, j);
    }
    PutPipeline(s, s.(pipelines := s.pipelines[k := spec]), k, spec);
  }

  lemma PutAdmittedDeployment(cl: Client, s: State, k: Key, d: Deployment)
    requires Inv(s) && Serves(cl, s) && AdmitsDeployment(cl, DeploymentOf(k, d))
    requires d.spec.product == k.namespace
    requires d.history.Some? ==> k in s.deployments && s.deployments[k].history == d.history
    ensures Inv(s.(deployments := s.deployments[k := d]))
  {
    AdmittedFits(cl, s, k, d);
    PutDeployment(s, s.(deployments := s.deployments[k := d]), k, d);
  }

  lemma UpdateDeploymentKeeps(cl: Client, s: State, k: Key, spec: DeploymentSpec)
    requires Inv(s) && Serves(cl, s) && Enabled(cl, s, UpdateDeployment(k, spec))
    ensures Inv(Next(s, UpdateDeployment(k, spec)))
  {
    if spec == s.deployments[k].spec {
      assert s.deployments[k := s.deployments[k].(spec := spec)] == s.deployments;
    } else {
      PutAdmittedDeployment(cl, s, k, s.deployments[k].(spec := spec));
    }
  }

  lemma UpdatePipelineKeeps(cl: Client, s: State, k: Key, spec: PipelineSpec)
    requires Inv(s) && Serves(cl, s) && Enabled(cl, s, UpdatePipeline(k, spec))
    ensures Inv(Next(s, UpdatePipeline(k, spec)))
  {
    if spec == s.pipelines[k] {
      assert s.pipelines[k := spec] == s.pipelines;
    } else {
      PutAdmittedPipeline(cl, s, k, spec);
    }
  }

  lemma RecordDeployKeeps(s: State, k: Key)
    requires Inv(s) && k in s.deployments
    ensures Inv(Next(s, RecordDeploy(k)))
  {
    var d := s.deployments[k];
    assert HostsWork(s, EnvOf(k, d.spec.environment), DeploymentWork);
    assert Settled(Recorded(d));
    PutDeployment(s, Next(s, RecordDeploy(k)), k, Recorded(d));
  }

  /** Every admitted request keeps the invariant. */
  lemma InvStep(s: State, r: Request)
    requires Inv(s) && Admitted(s, r)
    ensures Inv(Next(s, r.action))
  {
    match r.action
    case CreateEnv(k, cluster) => CreateEnvKeeps(s, k, cluster);
    case DeleteEnv(k) => DeleteEnvKeeps(r.cl, s, k);
    case CreateDeployment(k, spec) => PutAdmittedDeployment(r.cl, s, k, Deployment(spec, None));
    case UpdateDeployment(k, spec) => UpdateDeploymentKeeps(r.cl, s, k, spec);
    case DeleteDeployment(k) => DropKeeps(s, Next(s, r.action));
    case RecordDeploy(k) => RecordDeployKeeps(s, k);
    case CreatePipeline(k, spec) => PutAdmittedPipeline(r.cl, s, k, spec);
    case UpdatePipeline(k, spec) => UpdatePipelineKeeps(r.cl, s, k, spec);
    case DeletePipeline(k) => DropKeeps(s, Next(s, r.action));
  }

  lemma {:induction false} InvRun(s: State, run: seq<Request>)
    requires Inv(s) && Runnable(s, run)
    ensures Inv(After(s, run))
    decreases |run|
  {
    if |run| > 0 {
      InvStep(s, run[0]);
      InvRun(Next(s, run[0].action), run[1..]);
    }
  }

  // A state that some run of admitted requests leads to.
  ghost predicate Reachable(s: State) {
    exists s0: State, run: seq<Request> :: Leads(s0, run, s)
  }

  ghost predicate Leads(s0: State, run: seq<Request>, s: State) {
    Initial(s0) && Runnable(s0, run) && After(s0, run) == s
  }

  lemma InvReachable(s: State)
    requires Reachable(s)
    ensures Inv(s)
  {
    var s0: State, run: seq<Request> :| Leads(s0, run, s);
    InvRun(s0, run);
  }
}
