/** What is stored, told by the admitted requests alone, and the guarantees on its fields. */
module AdmissionHistory {
  import opened Wrappers
  import opened Resources
  import opened Admission
  import opened AdmissionSafety
  import opened AdmissionGuarantees
  import opened AdmissionMeanings
  import opened Selections

  /******* The last admitted request counts *******/

  // The spec that was admitted last for the deployment runtime, if it was not deleted since.
  function LastDeployment(run: seq<Request>, k: Key): Option<DeploymentSpec> {
    if |run| == 0 then None
    else
      var before := LastDeployment(run[..|run| - 1], k);
      match run[|run| - 1].action
      case CreateDeployment(j, spec) => if j == k then Some(spec) else before
      case UpdateDeployment(j, spec) => if j == k then Some(spec) else before
      case DeleteDeployment(j) => if j == k then None else before
      case _ => before
  }

  // The spec that was the last one when the runtime's deploy was recorded last.
  function LastDeployed(run: seq<Request>, k: Key): Option<DeploymentSpec> {
    if |run| == 0 then None
    else
      var before := LastDeployed(run[..|run| - 1], k);
      match run[|run| - 1].action
      case RecordDeploy(j) => if j == k then LastDeployment(run[..|run| - 1], k) else before
      case CreateDeployment(j, _) => if j == k then None else before
      case DeleteDeployment(j) => if j == k then None else before
      case _ => before
  }

  function LastPipeline(run: seq<Request>, k: Key): Option<PipelineSpec> {
    if |run| == 0 then None
    else
      var before := LastPipeline(run[..|run| - 1], k);
      match run[|run| - 1].action
      case CreatePipeline(j, spec) => if j == k then Some(spec) else before
      case UpdatePipeline(j, spec) => if j == k then Some(spec) else before
      case DeletePipeline(j) => if j == k then None else before
      case _ => before
  }

  // The cluster an environment was created on, if it was not deleted since.
  function LastEnv(run: seq<Request>, k: Key): Option<string> {
    if |run| == 0 then None
    else
      var before := LastEnv(run[..|run| - 1], k);
      match run[|run| - 1].action
      case CreateEnv(j, cluster) => if j == k then Some(cluster) else before
      case DeleteEnv(j) => if j == k then None else before
      case _ => before
  }

  lemma {:induction false} LastRequest(s: State, run: seq<Request>)
    requires |run| > 0 && Runnable(s, run)
    ensures Runnable(s, run[..|run| - 1]) && Admitted(After(s, run[..|run| - 1]), run[|run| - 1])
    ensures After(s, run) == Next(After(s, run[..|run| - 1]), run[|run| - 1].action)
    decreases |run|
  {
    if |run| == 1 {
      assert run[1..] == [];
    } else {
      LastRequest(Next(s, run[0].action), run[1..]);
      assert run[1..][..|run| - 2] == run[..|run| - 1][1..];
    }
  }

  // The stored objects are those of the run.
  predicate TellsEnv(run: seq<Request>, s: State, k: Key) {
    if k in s.envs then LastEnv(run, k) == Some(s.envs[k]) else LastEnv(run, k).None?
  }

  predicate TellsPipeline(run: seq<Request>, s: State, k: Key) {
    if k in s.pipelines then LastPipeline(run, k) == Some(s.pipelines[k]) else LastPipeline(run, k).None?
  }

  predicate TellsDeployment(run: seq<Request>, s: State, k: Key) {
    if k in s.deployments then
      && LastDeployment(run, k) == Some(s.deployments[k].spec)
      && TellsHistory(LastDeployed(run, k), s.deployments[k].history)
    else LastDeployment(run, k).None? && LastDeployed(run, k).None?
  }

  predicate TellsHistory(deployed: Option<DeploymentSpec>, history: Option<DeployHistory>) {
    match deployed
    case None => history.None?
    case Some(spec) =>
      history.Some? && history.value.manifest == spec.manifest && history.value.environment == spec.environment
      && history.value.namespaces == spec.namespaces
  }

  lemma TellsEnvStep(run: seq<Request>, s: State, r: Request, k: Key)
    requires Enabled(r.cl, s, r.action) && TellsEnv(run, s, k)
    ensures TellsEnv(run + [r], Next(s, r.action), k)
  {
    assert (run + [r])[..|run|] == run;
  }

  lemma TellsPipelineStep(run: seq<Request>, s: State, r: Request, k: Key)
    requires Enabled(r.cl, s, r.action) && TellsPipeline(run, s, k)
    ensures TellsPipeline(run + [r], Next(s, r.action), k)
  {
    assert (run + [r])[..|run|] == run;
  }

  lemma TellsDeploymentStep(run: seq<Request>, s: State, r: Request, k: Key)
    requires Enabled(r.cl, s, r.action) && TellsDeployment(run, s, k)
    ensures TellsDeployment(run + [r], Next(s, r.action), k)
  {
    assert (run + [r])[..|run|] == run;
  }

  lemma TellsStep(most: seq<Request>, run: seq<Request>, s: State, s': State, k: Key)
    requires |run| > 0 && most == run[..|run| - 1]
    requires Enabled(run[|run| - 1].cl, s, run[|run| - 1].action) && s' == Next(s, run[|run| - 1].action)
    requires TellsEnv(most, s, k) && TellsPipeline(most, s, k) && TellsDeployment(most, s, k)
    ensures TellsEnv(run, s', k) && TellsPipeline(run, s', k) && TellsDeployment(run, s', k)
  {
    TellsEnvStep(most, s, run[|run| - 1], k);
    TellsPipelineStep(most, s, run[|run| - 1], k);
    TellsDeploymentStep(most, s, run[|run| - 1], k);
    assert most + [run[|run| - 1]] == run;
  }

  /** Every stored spec is the one that was admitted last, every history tells what the spec
      was when the deploy was recorded, and nothing else is stored. */
  lemma {:induction false} StoredIsLastAdmitted(s0: State, run: seq<Request>, k: Key)
    requires Initial(s0) && Runnable(s0, run)
    ensures var s := After(s0, run); TellsEnv(run, s, k) && TellsPipeline(run, s, k) && TellsDeployment(run, s, k)
    decreases |run|
  {
    if |run| > 0 {
      var most := run[..|run| - 1];
      LastRequest(s0, run);
      StoredIsLastAdmitted(s0, most, k);
      TellsStep(most, run, After(s0, most), After(s0, run), k);
    }
  }

  /******* The guarantees, field by field *******/

  // The cluster of the environment that a runtime in this namespace names.
  predicate OnCluster(s: State, namespace: string, environment: string, cluster: string) {
    Key(namespace, environment) in s.envs && s.envs[Key(namespace, environment)] == cluster
  }

  /** Every pipeline runtime is on a pipeline worker cluster and every deployment runtime on a
      deployment worker cluster. */
  lemma EveryRuntimePlaced(s: State, k: Key)
    requires Reachable(s)
    ensures k in s.pipelines ==>
      exists c ::
        && c in s.clusters && OnCluster(s, k.namespace, s.pipelines[k].environment, c)
        && s.clusters[c].usage == Worker && s.clusters[c].workType == PipelineWork
    ensures k in s.deployments ==>
      exists c ::
        && c in s.clusters && OnCluster(s, k.namespace, s.deployments[k].spec.environment, c)
        && s.clusters[c].usage == Worker && s.clusters[c].workType == DeploymentWork
  {
    InvReachable(s);
    if k in s.pipelines {
      assert HostsWork(s, EnvOf(k, s.pipelines[k].environment), PipelineWork);
    }
    if k in s.deployments {
      assert HostsWork(s, EnvOf(k, s.deployments[k].spec.environment), DeploymentWork);
    }
  }

  /** Two pipeline runtimes on one cluster never have the same namespace, be it the one they
      name or, if they name none, their own name. */
  lemma PipelineNamespacesDiffer(s: State, j: Key, k: Key, cluster: string)
    requires Reachable(s) && j in s.pipelines && k in s.pipelines && j != k
    requires OnCluster(s, j.namespace, s.pipelines[j].environment, cluster)
    requires OnCluster(s, k.namespace, s.pipelines[k].environment, cluster)
    ensures (if s.pipelines[j].namespace == "" then j.name else s.pipelines[j].namespace)
      != (if s.pipelines[k].namespace == "" then k.name else s.pipelines[k].namespace)
  {
    InvReachable(s);
    assert !PipelinesClash(s, j, s.pipelines[j], k, s.pipelines[k]);
  }

  /** A deployment runtime is never on a pipeline runtime's cluster. */
  lemma KindsApart(s: State, j: Key, k: Key, cluster: string)
    requires Reachable(s) && j in s.pipelines && k in s.deployments
    requires OnCluster(s, j.namespace, s.pipelines[j].environment, cluster)
    ensures !OnCluster(s, k.namespace, s.deployments[k].spec.environment, cluster)
  {
    EveryRuntimePlaced(s, j);
    EveryRuntimePlaced(s, k);
  }

  // What is deployed is what the spec asks for.
  predicate DeployedAsAsked(d: Deployment) {
    && d.history.Some? && d.history.value.environment == d.spec.environment
    && d.history.value.manifest.codeRepo == d.spec.manifest.codeRepo
    && d.history.value.manifest.path == d.spec.manifest.path
    && d.history.value.manifest.targetRevision == d.spec.manifest.targetRevision
  }

  /** Of two runtimes of a product that agree on repository, path, revision and environment,
      one is deployed as it asks. */
  lemma TwinIsDeployed(s: State, j: Key, k: Key)
    requires Reachable(s) && j in s.deployments && k in s.deployments && j != k && j.namespace == k.namespace
    requires var x, y := s.deployments[j].spec, s.deployments[k].spec;
      && x.environment == y.environment && x.manifest.codeRepo == y.manifest.codeRepo
      && x.manifest.path == y.manifest.path && x.manifest.targetRevision == y.manifest.targetRevision
    ensures DeployedAsAsked(s.deployments[j]) || DeployedAsAsked(s.deployments[k])
  {
    OneOfTwoIsDeployed(s, j, k);
  }

  /** Of two runtimes of different products on one cluster that list a common namespace, one
      is deployed as it asks. */
  lemma RivalIsDeployed(s: State, j: Key, k: Key, cluster: string, n: string)
    requires Reachable(s) && j in s.deployments && k in s.deployments && j.namespace != k.namespace
    requires OnCluster(s, j.namespace, s.deployments[j].spec.environment, cluster)
    requires OnCluster(s, k.namespace, s.deployments[k].spec.environment, cluster)
    requires n in s.deployments[j].spec.namespaces && n in s.deployments[k].spec.namespaces
    ensures DeployedAsAsked(s.deployments[j]) || DeployedAsAsked(s.deployments[k])
  {
    OneOfTwoIsDeployed(s, j, k);
  }

  /** A deployed runtime asks for the environment it is deployed in. */
  lemma DeployedStays(s: State, k: Key)
    requires Reachable(s) && k in s.deployments && s.deployments[k].history.Some?
    ensures s.deployments[k].history.value.environment == s.deployments[k].spec.environment
  {
    InvReachable(s);
    assert Frozen(s.deployments[k]);
  }

  /******* What the webhooks let in *******/

  lemma NothingSelected<T(!new)>(xs: seq<T>, ys: seq<T>, keep: T -> bool)
    requires Selects(xs, ys, keep)
    ensures ys == [] <==> forall x :: x in xs ==> !keep(x)
  {
    forall x ensures x in ys <==> x in xs && keep(x) {
      SelectsMembers(xs, ys, keep, x);
    }
    assert ys != [] ==> ys[0] in ys;
  }

  /** A pipeline runtime is let in iff it is accepted and its project may use the repository of
      every one of its event sources. */
  lemma PipelineLetIn(cl: Client, r: PipelineRuntime)
    ensures AdmitsPipeline(cl, r) <==>
      && P.Verdict(cl, r).Ok?
      && forall e :: e in r.spec.eventSources && e.gitlab.Some? && e.gitlab.value.repoName != "" ==>
        HasCodeRepoPermission(cl, r.namespace, r.spec.project, e.gitlab.value.repoName)
  {
    if P.Verdict(cl, r).Ok? {
      PipelineAnswer(cl, r);
      NothingSelected(r.spec.eventSources, P.Verdict(cl, r).value, (e: EventSource) =>
        e.gitlab.Some? && e.gitlab.value.repoName != ""
        && !HasCodeRepoPermission(cl, r.namespace, r.spec.project, e.gitlab.value.repoName));
    }
  }

  /** A deployment runtime is let in iff it is accepted and every project it refers to may use
      the manifest repository. */
  lemma DeploymentLetIn(cl: Client, d: DeploymentRuntime, i: nat)
    requires TheRepo(cl, i, d.spec.manifest.codeRepo)
    ensures AdmitsDeployment(cl, d) <==>
      && D.Verdict(cl, d).Ok?
      && forall p :: p in d.spec.projectsRef ==> HasCodeRepoPermission(cl, cl.repos[i].product, p, cl.repos[i].name)
  {
    if D.Verdict(cl, d).Ok? {
      DeploymentAnswer(cl, d, i);
      NothingSelected(d.spec.projectsRef, D.Verdict(cl, d).value, (p: string) =>
        !HasCodeRepoPermission(cl, cl.repos[i].product, p, cl.repos[i].name));
    }
  }
}
