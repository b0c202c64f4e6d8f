/** Validation of a deployment runtime. */
module DeploymentChecks {
  import opened Wrappers
  import opened Resources
  import opened NamespaceUsage
  import PipelineValidate

  datatype Refusal =
    | EnvironmentFrozen
    | ClusterNotFound
    | NotADeploymentCluster
    | ComponentNamespace
    | Duplicate
    | NamespaceUsed
    | RepoNotFound

  predicate Shares(a: seq<string>, b: seq<string>) {
    exists n :: n in a && n in b
  }

  function ComponentNamespaces(c: Cluster): set<string> {
    set kind | kind in c.components :: c.components[kind].namespace
  }

  // Same manifests, same product, same environment.
  predicate SameDeployment(d: DeploymentRuntime, x: DeploymentRuntime) {
    d.spec.manifest == x.spec.manifest && x.spec.product == d.spec.product && x.spec.environment == d.spec.environment
  }

  // What is deployed is what the spec asks for.
  predicate MatchesHistory(d: DeploymentRuntime) {
    d.history.Some? && d.history.value.environment == d.spec.environment && d.history.value.manifest == d.spec.manifest
  }

  predicate MovedAway(d: DeploymentRuntime) {
    d.history.Some? && d.history.value.environment != d.spec.environment
  }

  function ClusterRefusal(cl: Client, d: DeploymentRuntime): Option<Refusal> {
    match GetClusterByRuntime(cl, d.spec.product, d.spec.environment)
    case None => Some(ClusterNotFound)
    case Some(c) =>
      if c.usage != Worker || c.workType != DeploymentWork then Some(NotADeploymentCluster)
      else if exists n :: n in d.spec.namespaces && n in ComponentNamespaces(c) then Some(ComponentNamespace)
      else None
  }

  predicate IsDuplicate(cl: Client, d: DeploymentRuntime) {
    exists x :: x in ListDeploymentRuntimes(cl, d.spec.product) && x.name != d.name && SameDeployment(d, x)
  }

  predicate Competes(x: DeploymentRuntime, d: DeploymentRuntime) {
    x.spec.product != d.spec.product && Shares(x.spec.namespaces, d.spec.namespaces)
  }

  // Another product on the cluster, as far as the memo tells, lists one of the namespaces.
  predicate Taken(ds: seq<DeploymentRuntime>, envs: seq<Environment>, cluster: string, d: DeploymentRuntime) {
    exists x :: x in ds && OnCluster(ds, envs, x, cluster) && Competes(x, d)
  }

  // The check passes if the environment is missing, or any lookup of the listing fails.
  predicate NamespacesTaken(cl: Client, d: DeploymentRuntime) {
    var env := LookupEnv(cl.envs, d.spec.product, d.spec.environment);
    env.Some? && AllFound(cl.deployments, cl.envs) && Taken(cl.deployments, cl.envs, env.value.cluster, d)
  }

  function IllegalRefs(cl: Client, repo: CodeRepo, projects: seq<string>): seq<string> {
    if |projects| == 0 then []
    else
      var p := projects[|projects| - 1];
      IllegalRefs(cl, repo, projects[..|projects| - 1])
      + (if HasCodeRepoPermission(cl, repo.product, p, repo.name) then [] else [p])
  }

  function RefsVerdict(cl: Client, d: DeploymentRuntime): Result<seq<string>, Refusal> {
    match GetCodeRepo(cl, d.spec.manifest.codeRepo)
    case None => Err(RepoNotFound)
    case Some(repo) => Ok(IllegalRefs(cl, repo, d.spec.projectsRef))
  }

  function FullRefusal(cl: Client, d: DeploymentRuntime): Option<Refusal> {
    match ClusterRefusal(cl, d)
    case Some(e) => Some(e)
    case None =>
      if IsDuplicate(cl, d) then Some(Duplicate) else if NamespacesTaken(cl, d) then Some(NamespaceUsed) else None
  }

  // What Validate answers: the illegal project references, or the first check that failed.
  function Verdict(cl: Client, d: DeploymentRuntime): Result<seq<string>, Refusal> {
    if MovedAway(d) then Err(EnvironmentFrozen)
    else if MatchesHistory(d) then RefsVerdict(cl, d)
    else
      match FullRefusal(cl, d)
      case Some(e) => Err(e)
      case None => RefsVerdict(cl, d)
  }

  /******* The webhook *******/

  method CheckRuntimeCanDeployOnCluster(cl: Client, d: DeploymentRuntime) returns (e: Option<Refusal>)
    ensures e == ClusterRefusal(cl, d)
  {
    var c := GetClusterByRuntime(cl, d.spec.product, d.spec.environment);
    if c.None? {
      return Some(ClusterNotFound);
    }
    if c.value.usage != Worker || c.value.workType != DeploymentWork {
      return Some(NotADeploymentCluster);
    }
    for i := 0 to |d.spec.namespaces|
      invariant forall k :: 0 <= k < i ==> d.spec.namespaces[k] !in ComponentNamespaces(c.value)
    {
      if d.spec.namespaces[i] in ComponentNamespaces(c.value) {
        return Some(ComponentNamespace);
      }
    }
    return None;
  }

  method CheckRuntimeIsDuplicate(cl: Client, d: DeploymentRuntime) returns (duplicate: bool)
    ensures duplicate <==> IsDuplicate(cl, d)
  {
    var xs := ListDeploymentRuntimes(cl, d.spec.product);
    for i := 0 to |xs|
      invariant forall k :: 0 <= k < i ==> xs[k].name == d.name || !SameDeployment(d, xs[k])
    {
      if xs[i].name == d.name {
        continue;
      }
      if SameDeployment(d, xs[i]) {
        return true;
      }
    }
    return false;
  }

  // The namespaces of one usage entry that the runtime lists too.
  method CommonNamespaces(namespaces: seq<string>, wanted: seq<string>) returns (common: seq<string>)
    ensures common != [] <==> Shares(namespaces, wanted)
  {
    common := [];
    for i := 0 to |namespaces|
      invariant common != [] <==> exists k :: 0 <= k < i && namespaces[k] in wanted
    {
      if namespaces[i] in wanted {
        common := common + [namespaces[i]];
      }
    }
  }

  method CheckNamespacesIsUsed(cl: Client, d: DeploymentRuntime) returns (taken: bool)
    ensures taken <==> NamespacesTaken(cl, d)
  {
    var env := LookupEnv(cl.envs, d.spec.product, d.spec.environment);
    if env.None? {
      return false;
    }
    var usage := GetUsedNamespacesInCluster(cl, env.value.cluster);
    var list := usage.GetOr([]);
    var used: seq<string> := [];
    for i := 0 to |list|
      invariant used != [] <==> exists k :: 0 <= k < i && Blocks(list[k], d)
    {
      if list[i].product == d.spec.product {
        continue;
      }
      var common := CommonNamespaces(list[i].namespaces, d.spec.namespaces);
      used := used + common;
    }
    if usage.Some? {
      ListedUsage(cl, env.value.cluster, list, d);
    }
    return used != [];
  }

  predicate Blocks(u: ProductUsage, d: DeploymentRuntime) {
    u.product != d.spec.product && Shares(u.namespaces, d.spec.namespaces)
  }

  // An entry of the usage list blocks the runtime iff some runtime of another product does.
  lemma ListedUsage(cl: Client, cluster: string, list: seq<ProductUsage>, d: DeploymentRuntime)
    requires ListsUsage(list, UsageByProduct(cl.deployments, cl.deployments, cl.envs, cluster))
    ensures (exists k :: 0 <= k < |list| && Blocks(list[k], d)) <==> Taken(cl.deployments, cl.envs, cluster, d)
  {
    var ds, envs := cl.deployments, cl.envs;
    var m := UsageByProduct(ds, ds, envs, cluster);
    if k :| 0 <= k < |list| && Blocks(list[k], d) {
      var u := list[k];
      var n :| n in u.namespaces && n in d.spec.namespaces;
      assert u in list;
      UsageByProductMeaning(ds, ds, envs, cluster, u.product, n);
    }
    if Taken(ds, envs, cluster, d) {
      var x :| x in ds && OnCluster(ds, envs, x, cluster) && Competes(x, d);
      var n :| n in x.spec.namespaces && n in d.spec.namespaces;
      UsageByProductMeaning(ds, ds, envs, cluster, x.spec.product, n);
      assert x.spec.product in Products(list);
      var u :| u in list && u.product == x.spec.product;
      assert n in u.namespaces;
      assert Blocks(u, d);
    }
  }

  method ValidateProjectRef(cl: Client, d: DeploymentRuntime) returns (answer: Result<seq<string>, Refusal>)
    ensures answer == RefsVerdict(cl, d)
  {
    var repo := GetCodeRepo(cl, d.spec.manifest.codeRepo);
    if repo.None? {
      return Err(RepoNotFound);
    }
    var projects, illegal := d.spec.projectsRef, [];
    for i := 0 to |projects|
      invariant illegal == IllegalRefs(cl, repo.value, projects[..i])
    {
      assert projects[..i + 1][..i] == projects[..i];
      var ok := PipelineValidate.CheckPermission(cl, repo.value.product, projects[i], repo.value.name);
      if !ok {
        illegal := illegal + [projects[i]];
      }
    }
    assert projects[..|projects|] == projects;
    return Ok(illegal);
  }

  method Validate(cl: Client, d: DeploymentRuntime) returns (answer: Result<seq<string>, Refusal>)
    ensures answer == Verdict(cl, d)
  {
    if d.history.Some? {
      var manifest := d.history.value.manifest;
      if d.spec.environment != d.history.value.environment {
        return Err(EnvironmentFrozen);
      } else if d.spec.manifest.codeRepo == manifest.codeRepo && d.spec.manifest.path == manifest.path
                && d.spec.manifest.targetRevision == manifest.targetRevision {
        answer := ValidateProjectRef(cl, d);
        return;
      }
    }
    var cluster := CheckRuntimeCanDeployOnCluster(cl, d);
    if cluster.Some? {
      return Err(cluster.value);
    }
    var duplicate := CheckRuntimeIsDuplicate(cl, d);
    if duplicate {
      return Err(Duplicate);
    }
    var taken := CheckNamespacesIsUsed(cl, d);
    if taken {
      return Err(NamespaceUsed);
    }
    answer := ValidateProjectRef(cl, d);
  }

  /******* What the checks miss *******/

  lemma {:induction false} IllegalRefsMeaning(cl: Client, repo: CodeRepo, projects: seq<string>, p: string)
    ensures p in IllegalRefs(cl, repo, projects) <==>
      p in projects && !HasCodeRepoPermission(cl, repo.product, p, repo.name)
    decreases |projects|
  {
    if |projects| > 0 {
      var rest, last := projects[..|projects| - 1], projects[|projects| - 1];
      IllegalRefsMeaning(cl, repo, rest, p);
      assert projects == rest + [last];
    }
  }

  // What the namespace check is for: every environment is known, and a runtime of another
  // product on the cluster lists one of the namespaces.
  predicate ReallyTaken(cl: Client, d: DeploymentRuntime) {
    && ClusterOf(cl.envs, d).Some? && AllResolve(cl.deployments, cl.envs)
    && exists x :: x in cl.deployments && ClusterOf(cl.envs, x) == ClusterOf(cl.envs, d) && Competes(x, d)
  }

  /** The memo does not spoil the check when environments have the names that are stored. */
  lemma TakenWithoutBars(cl: Client, d: DeploymentRuntime)
    requires NoBars(cl.envs)
    ensures NamespacesTaken(cl, d) <==> ReallyTaken(cl, d)
  {
    MemoRightWithoutBars(cl.deployments, cl.envs);
  }

  // Runtimes of two products that would use the same namespace of one cluster.
  predicate Clash(envs: seq<Environment>, x: DeploymentRuntime, d: DeploymentRuntime) {
    && x.spec.product != d.spec.product && ClusterOf(envs, x) == ClusterOf(envs, d)
    && Shares(x.GetNamespaces(), d.GetNamespaces())
  }

  /** The namespace a runtime takes by default is not compared: with every environment known,
      a runtime is refused iff it lists namespaces and some runtime it clashes with does. */
  lemma DefaultsNotCompared(cl: Client, d: DeploymentRuntime)
    requires NoBars(cl.envs) && AllResolve(cl.deployments, cl.envs) && ClusterOf(cl.envs, d).Some?
    ensures NamespacesTaken(cl, d) <==>
      |d.spec.namespaces| > 0
      && exists x :: x in cl.deployments && |x.spec.namespaces| > 0 && Clash(cl.envs, x, d)
  {
    TakenWithoutBars(cl, d);
    forall x ensures ClusterOf(cl.envs, x) == ClusterOf(cl.envs, d) && Competes(x, d) <==>
      |d.spec.namespaces| > 0 && |x.spec.namespaces| > 0 && Clash(cl.envs, x, d)
    {
      if Shares(d.GetNamespaces(), x.GetNamespaces()) {
        SharedIsListed(d, x);
      }
      assert |d.spec.namespaces| > 0 && |x.spec.namespaces| > 0 && Shares(x.spec.namespaces, d.spec.namespaces) ==>
        Shares(x.GetNamespaces(), d.GetNamespaces());
    }
  }

  // A namespace that both use is one that both list iff neither takes its default.
  lemma SharedIsListed(d: DeploymentRuntime, x: DeploymentRuntime)
    requires Shares(d.GetNamespaces(), x.GetNamespaces())
    ensures Shares(x.spec.namespaces, d.spec.namespaces) <==> |d.spec.namespaces| > 0 && |x.spec.namespaces| > 0
  {
    var n :| n in d.GetNamespaces() && n in x.GetNamespaces();
    assert |d.spec.namespaces| > 0 && |x.spec.namespaces| > 0 ==> n in x.spec.namespaces && n in d.spec.namespaces;
  }

  /** One deployment runtime without an environment, anywhere, lets every other pass the
      namespace check and keeps every pipeline runtime from being accepted. */
  lemma StrandedRuntime(cl: Client, x: DeploymentRuntime, d: DeploymentRuntime, p: PipelineRuntime)
    requires x in cl.deployments && ClusterOf(cl.envs, x).None?
    requires UniqueEnvs(cl.envs) && forall e :: e in cl.envs ==> e.namespace == e.product
    ensures NoBars(cl.envs) ==> !NamespacesTaken(cl, d)
    ensures PipelineValidate.Verdict(cl, p).Err?
  {
    if NoBars(cl.envs) {
      TakenWithoutBars(cl, d);
    }
    CacheAgrees(cl.envs, x.spec.product, x.spec.environment);
    RuntimeListed(cl, Deploy(x));
    assert Resolve(cl.envs, Deploy(x)).Err?;
    PipelineValidate.AcceptanceMeaning(cl, p);
    assert !SameRuntime(Deploy(x), Pipe(p));
  }

  lemma RuntimeListed(cl: Client, x: Runtime)
    ensures x in AllRuntimes(cl) <==> match x case Deploy(d) => d in cl.deployments case Pipe(p) => p in cl.pipelines
  {
    var ds, ps := Deploys(cl.deployments), Pipes(cl.pipelines);
    if x.Deploy? && x.deployment in cl.deployments {
      var i :| 0 <= i < |cl.deployments| && cl.deployments[i] == x.deployment;
      assert ds[i] == x;
    }
    if x.Pipe? && x.pipeline in cl.pipelines {
      var i :| 0 <= i < |cl.pipelines| && cl.pipelines[i] == x.pipeline;
      assert ps[i] == x;
    }
    if x in ds {
      var i :| 0 <= i < |ds| && ds[i] == x;
      assert cl.deployments[i] == x.deployment;
    }
    if x in ps {
      var i :| 0 <= i < |ps| && ps[i] == x;
      assert cl.pipelines[i] == x.pipeline;
    }
  }
}
