/** What the two validations accept, told by the fields of the stored objects. */
module AdmissionMeanings {
  import opened Wrappers
  import opened Resources
  import opened PipelineChecks
  import opened NamespaceUsage
  import opened Selections
  import P = PipelineValidate
  import D = DeploymentChecks

  /******* Permissions *******/

  lemma {:induction false} ReposSelected(repos: seq<CodeRepo>, name: string)
    ensures Selects(repos, ReposNamed(repos, name), (r: CodeRepo) => r.name == name)
  {
    if |repos| == 0 {
      SelectsNothing<CodeRepo>((r: CodeRepo) => r.name == name);
    } else {
      ReposSelected(repos[1..], name);
      SelectsCons(repos[1..], ReposNamed(repos[1..], name), repos[0], (r: CodeRepo) => r.name == name);
      assert repos == [repos[0]] + repos[1..];
    }
  }

  // One code repository has the name.
  predicate TheRepo(cl: Client, i: nat, name: string) {
    i < |cl.repos| && cl.repos[i].name == name
    && forall j :: 0 <= j < |cl.repos| && j != i ==> cl.repos[j].name != name
  }

  lemma RepoFound(cl: Client, name: string)
    ensures GetCodeRepo(cl, name).Some? ==>
      exists i: nat :: TheRepo(cl, i, name) && GetCodeRepo(cl, name) == Some(cl.repos[i])
    ensures forall i: nat :: TheRepo(cl, i, name) ==> GetCodeRepo(cl, name) == Some(cl.repos[i])
  {
    var found := ReposNamed(cl.repos, name);
    ReposSelected(cl.repos, name);
    if |found| > 0 {
      var i := FirstSelected(cl.repos, found, (r: CodeRepo) => r.name == name);
      assert |found| == 1 <==> TheRepo(cl, i, name);
      assert forall j: nat :: TheRepo(cl, j, name) ==> j == i;
    } else {
      forall r ensures r in cl.repos ==> r.name != name {
        SelectsMembers(cl.repos, found, (r: CodeRepo) => r.name == name, r);
      }
      forall j: nat | j < |cl.repos| ensures cl.repos[j].name != name {
        assert cl.repos[j] in cl.repos;
      }
    }
  }

  // A live binding gives the repository to every project of the product, or to this one.
  // Bindings without a product or a repository are not found.
  predicate Bound(cl: Client, product: string, project: string, repo: string) {
    product != "" && repo != ""
    && exists b :: b in cl.bindings && b.product == product && b.codeRepo == repo && !b.deleting
                && (b.projects == [] || project in b.projects)
  }

  /** A project may use a repository iff exactly one has the name, and it is live and the
      project's own, or a live binding gives it to the project. */
  lemma PermissionExactly(cl: Client, product: string, project: string, repo: string)
    ensures HasCodeRepoPermission(cl, product, project, repo) <==>
      exists i: nat :: TheRepo(cl, i, repo)
        && ((!cl.repos[i].deleting && cl.repos[i].product == product && cl.repos[i].project == project)
            || Bound(cl, product, project, repo))
  {
    RepoFound(cl, repo);
  }

  /******* The static check and the hooks *******/

  /** StaticCheck, field by field, for the names that the resource definition admits. */
  lemma StaticFields(s: PipelineSpec)
    requires BarFree(s)
    ensures StaticOk(s) <==>
      && (forall i, j :: 0 <= i < j < |s.eventSources| ==> s.eventSources[i].name != s.eventSources[j].name)
      && (forall i, j :: 0 <= i < j < |s.pipelines| ==> s.pipelines[i].name != s.pipelines[j].name)
      && (s.additionalGit.Some? ==> s.additionalGit.value.codeRepo != "" || s.additionalGit.value.url != "")
      && (forall t :: t in s.triggers ==>
            && (exists e :: e in s.eventSources && e.name == t.eventSource)
            && (exists p :: p in s.pipelines && p.name == t.pipeline))
      && (forall i, j :: 0 <= i < j < |s.triggers| ==>
            || s.triggers[i].eventSource != s.triggers[j].eventSource
            || s.triggers[i].pipeline != s.triggers[j].pipeline
            || s.triggers[i].revision != s.triggers[j].revision)
      && (forall t, n :: t in s.triggers && n in t.inputs ==>
            n.builtInVar.Some? != n.fromEvent.Some? && n.kustomization.Some?)
  {
    StaticMeaning(s);
    assert forall i :: 0 <= i < |s.eventSources| ==> SourceNames(s.eventSources)[i] == s.eventSources[i].name;
    assert forall i :: 0 <= i < |s.pipelines| ==> PipelineNames(s.pipelines)[i] == s.pipelines[i].name;
    assert (forall t :: t in s.triggers ==> InputsOk(t)) <==>
      forall t, n :: t in s.triggers && n in t.inputs ==>
        n.builtInVar.Some? != n.fromEvent.Some? && n.kustomization.Some?;
    forall t: PipelineTrigger ensures t.eventSource in SourceNames(s.eventSources) <==>
      exists e :: e in s.eventSources && e.name == t.eventSource
    {
      SourceNamed(s.eventSources, t.eventSource);
    }
    forall t: PipelineTrigger ensures t.pipeline in PipelineNames(s.pipelines) <==>
      exists p :: p in s.pipelines && p.name == t.pipeline
    {
      PipelineNamed(s.pipelines, t.pipeline);
    }
  }

  lemma SourceNamed(sources: seq<EventSource>, n: string)
    ensures n in SourceNames(sources) <==> exists e :: e in sources && e.name == n
  {
    assert forall i :: 0 <= i < |sources| ==> SourceNames(sources)[i] == sources[i].name;
    if e :| e in sources && e.name == n {
      var i :| 0 <= i < |sources| && sources[i] == e;
      assert SourceNames(sources)[i] == n;
    }
  }

  lemma PipelineNamed(pipelines: seq<Pipeline>, n: string)
    ensures n in PipelineNames(pipelines) <==> exists p :: p in pipelines && p.name == n
  {
    assert forall i :: 0 <= i < |pipelines| ==> PipelineNames(pipelines)[i] == pipelines[i].name;
    if p :| p in pipelines && p.name == n {
      var i :| 0 <= i < |pipelines| && pipelines[i] == p;
      assert PipelineNames(pipelines)[i] == n;
    }
  }

  // The entry that counts for a hook is the last one of its name.
  predicate LastRule(rules: seq<HookMetadata>, i: nat, name: string) {
    i < |rules| && rules[i].name == name && forall j :: i < j < |rules| ==> rules[j].name != name
  }

  lemma {:induction false} RuleIsLast(rules: seq<HookMetadata>, name: string)
    ensures RuleFor(rules, name).Some? ==>
      exists i: nat :: LastRule(rules, i, name) && RuleFor(rules, name) == Some(rules[i])
    ensures forall i: nat :: LastRule(rules, i, name) ==> RuleFor(rules, name) == Some(rules[i])
    decreases |rules|
  {
    if |rules| > 0 && rules[|rules| - 1].name != name {
      var rest := rules[..|rules| - 1];
      RuleIsLast(rest, name);
      assert forall i: nat :: LastRule(rules, i, name) <==> LastRule(rest, i, name);
    } else if |rules| > 0 {
      assert LastRule(rules, |rules| - 1, name);
    }
  }

  // The hook is known, allowed before or after the pipeline, and supports every event type.
  ghost predicate Allowed(h: Hook, pre: bool, types: seq<string>, rules: seq<HookMetadata>) {
    exists i: nat ::
      && LastRule(rules, i, h.name)
      && (if pre then rules[i].isPreHook else rules[i].isPostHook)
      && (rules[i].supportEventSourceTypes == [] || forall t :: t in types ==> t in rules[i].supportEventSourceTypes)
  }

  lemma AllowedExactly(h: Hook, pre: bool, types: seq<string>, rules: seq<HookMetadata>)
    ensures HookAllowed(h, pre, types, rules) <==> Allowed(h, pre, types, rules)
  {
    RuleIsLast(rules, h.name);
  }

  // A hook goes by its alias, if it has one.
  predicate SameHookName(a: Hook, b: Hook) {
    (if a.alias.Some? then a.alias.value else a.name) == (if b.alias.Some? then b.alias.value else b.name)
  }

  /** validateHooks, field by field: every hook is allowed in its phase, no type comes twice in
      a phase, and no name comes twice in both. */
  lemma HookFields(hooks: Hooks, types: seq<string>, rules: seq<HookMetadata>)
    ensures var pre, post := hooks.preHooks, hooks.postHooks;
      HooksOk(hooks, types, rules) <==>
        && (forall h :: h in pre ==> Allowed(h, true, types, rules))
        && (forall h :: h in post ==> Allowed(h, false, types, rules))
        && (forall i, j :: 0 <= i < j < |pre| ==> pre[i].name != pre[j].name && !SameHookName(pre[i], pre[j]))
        && (forall i, j :: 0 <= i < j < |post| ==> post[i].name != post[j].name && !SameHookName(post[i], post[j]))
        && (forall i, j :: 0 <= i < |pre| && 0 <= j < |post| ==> !SameHookName(pre[i], post[j]))
  {
    var pre, post := hooks.preHooks, hooks.postHooks;
    forall h, p ensures HookAllowed(h, p, types, rules) <==> Allowed(h, p, types, rules) {
      AllowedExactly(h, p, types, rules);
    }
    DistinctConcat(pre, post);
    NamesApart(pre, post);
    HookTypesDistinct(pre);
    HookTypesDistinct(post);
    HookNamesDistinct(pre);
    HookNamesDistinct(post);
  }

  lemma HookTypesDistinct(hooks: seq<Hook>)
    ensures Distinct(HookTypes(hooks)) <==> forall i, j :: 0 <= i < j < |hooks| ==> hooks[i].name != hooks[j].name
  {
    var names := HookTypes(hooks);
    assert forall i :: 0 <= i < |hooks| ==> names[i] == hooks[i].name;
  }

  lemma HookNamesDistinct(hooks: seq<Hook>)
    ensures Distinct(HookNames(hooks)) <==> forall i, j :: 0 <= i < j < |hooks| ==> !SameHookName(hooks[i], hooks[j])
  {
    var names := HookNames(hooks);
    forall i, j | 0 <= i < |hooks| && 0 <= j < |hooks|
      ensures names[i] == names[j] <==> SameHookName(hooks[i], hooks[j])
    {
    }
  }

  lemma NamesApart(a: seq<Hook>, b: seq<Hook>)
    ensures (forall n :: n in HookNames(b) ==> n !in HookNames(a)) <==>
      forall i, j :: 0 <= i < |a| && 0 <= j < |b| ==> !SameHookName(a[i], b[j])
  {
    var x, y := HookNames(a), HookNames(b);
    forall i, j | 0 <= i < |a| && 0 <= j < |b| ensures x[i] == y[j] <==> SameHookName(a[i], b[j]) {
    }
    if forall n :: n in y ==> n !in x {
      forall i, j | 0 <= i < |a| && 0 <= j < |b| ensures !SameHookName(a[i], b[j]) {
        assert y[j] in y && x[i] in x;
      }
    }
  }

  /******* The namespace of a pipeline runtime *******/

  // Environments and clusters as they are stored: one per name, in the product's namespace.
  predicate Sound(cl: Client) {
    && UniqueEnvs(cl.envs) && (forall e :: e in cl.envs ==> e.namespace == e.product)
    && (forall c :: c in cl.clusters ==> cl.clusters[c].name == c)
  }

  // The product's environment of that name is on the cluster.
  predicate EnvOn(cl: Client, product: string, environment: string, cluster: string) {
    exists e :: e in cl.envs && e.namespace == product && e.name == environment && e.cluster == cluster
  }

  predicate EnvExists(cl: Client, product: string, environment: string) {
    exists e :: e in cl.envs && e.namespace == product && e.name == environment
  }

  lemma EnvLookup(cl: Client, product: string, environment: string, cluster: string)
    requires Sound(cl)
    ensures EnvExists(cl, product, environment) <==> LookupEnv(cl.envs, product, environment).Some?
    ensures EnvOn(cl, product, environment, cluster) <==>
      var env := LookupEnv(cl.envs, product, environment);
      env.Some? && env.value.cluster == cluster
  {
  }

  lemma DeploymentPlace(cl: Client, d: DeploymentRuntime, cluster: string)
    requires Sound(cl)
    ensures Resolve(cl.envs, Deploy(d)).Ok? <==> EnvExists(cl, d.spec.product, d.spec.environment)
    ensures Resolve(cl.envs, Deploy(d)) == Ok(cluster) <==> EnvOn(cl, d.spec.product, d.spec.environment, cluster)
  {
    EnvLookup(cl, d.spec.product, d.spec.environment, cluster);
    CacheAgrees(cl.envs, d.spec.product, d.spec.environment);
  }

  lemma PipelinePlace(cl: Client, p: PipelineRuntime, cluster: string)
    requires Sound(cl)
    ensures Resolve(cl.envs, Pipe(p)).Ok? <==> EnvExists(cl, p.namespace, p.spec.environment)
    ensures Resolve(cl.envs, Pipe(p)) == Ok(cluster) <==> EnvOn(cl, p.namespace, p.spec.environment, cluster)
  {
    EnvLookup(cl, p.namespace, p.spec.environment, cluster);
    CacheAgrees(cl.envs, p.namespace, p.spec.environment);
  }

  // The runtime `d` uses the namespace: it lists it, or lists none and has its name.
  predicate DeploymentUses(d: DeploymentRuntime, namespace: string) {
    if d.spec.namespaces == [] then d.name == namespace else namespace in d.spec.namespaces
  }

  predicate PipelineUses(p: PipelineRuntime, namespace: string) {
    if p.spec.namespace == "" then p.name == namespace else p.spec.namespace == namespace
  }

  // Every other runtime has its environment.
  predicate OthersPlaced(cl: Client, r: PipelineRuntime) {
    && (forall d :: d in cl.deployments ==> EnvExists(cl, d.spec.product, d.spec.environment))
    && (forall p :: p in cl.pipelines && (p.namespace != r.namespace || p.name != r.name) ==>
          EnvExists(cl, p.namespace, p.spec.environment))
  }

  lemma OthersPlacedExactly(cl: Client, r: PipelineRuntime)
    requires Sound(cl)
    ensures P.OthersResolve(cl, r) <==> OthersPlaced(cl, r)
  {
    forall d ensures Deploy(d) in AllRuntimes(cl) <==> d in cl.deployments { D.RuntimeListed(cl, Deploy(d)); }
    forall p ensures Pipe(p) in AllRuntimes(cl) <==> p in cl.pipelines { D.RuntimeListed(cl, Pipe(p)); }
    forall d ensures Resolve(cl.envs, Deploy(d)).Ok? <==> EnvExists(cl, d.spec.product, d.spec.environment) {
      DeploymentPlace(cl, d, "");
    }
    forall p ensures Resolve(cl.envs, Pipe(p)).Ok? <==> EnvExists(cl, p.namespace, p.spec.environment) {
      PipelinePlace(cl, p, "");
    }
    if P.OthersResolve(cl, r) {
      forall d | d in cl.deployments ensures EnvExists(cl, d.spec.product, d.spec.environment) {
        assert Deploy(d) in AllRuntimes(cl);
      }
      forall p | p in cl.pipelines && (p.namespace != r.namespace || p.name != r.name)
        ensures EnvExists(cl, p.namespace, p.spec.environment)
      {
        assert Pipe(p) in AllRuntimes(cl);
      }
    }
  }

  // No other runtime on the cluster uses the namespace.
  predicate NobodyUses(cl: Client, r: PipelineRuntime, cluster: string, namespace: string) {
    && (forall d :: d in cl.deployments && EnvOn(cl, d.spec.product, d.spec.environment, cluster) ==>
          !DeploymentUses(d, namespace))
    && (forall p :: p in cl.pipelines && EnvOn(cl, p.namespace, p.spec.environment, cluster) ==>
          (p.namespace == r.namespace && p.name == r.name) || !PipelineUses(p, namespace))
  }

  lemma NobodyUsesExactly(cl: Client, r: PipelineRuntime, cluster: string)
    requires Sound(cl)
    ensures P.NamespaceFree(cl, r, cluster) <==>
      NobodyUses(cl, r, cluster, if r.spec.namespace == "" then r.name else r.spec.namespace)
  {
    var n := if r.spec.namespace == "" then r.name else r.spec.namespace;
    forall d ensures Deploy(d) in AllRuntimes(cl) <==> d in cl.deployments { D.RuntimeListed(cl, Deploy(d)); }
    forall p ensures Pipe(p) in AllRuntimes(cl) <==> p in cl.pipelines { D.RuntimeListed(cl, Pipe(p)); }
    forall d ensures Resolve(cl.envs, Deploy(d)) == Ok(cluster) <==>
      EnvOn(cl, d.spec.product, d.spec.environment, cluster)
    {
      DeploymentPlace(cl, d, cluster);
    }
    forall p ensures Resolve(cl.envs, Pipe(p)) == Ok(cluster) <==> EnvOn(cl, p.namespace, p.spec.environment, cluster) {
      PipelinePlace(cl, p, cluster);
    }
    assert r.GetNamespaces()[0] == n;
    assert forall d :: n in Deploy(d).GetNamespaces() <==> DeploymentUses(d, n);
    assert forall p :: n in Pipe(p).GetNamespaces() <==> PipelineUses(p, n);
    if P.NamespaceFree(cl, r, cluster) {
      forall d | d in cl.deployments && EnvOn(cl, d.spec.product, d.spec.environment, cluster)
        ensures !DeploymentUses(d, n)
      {
        assert Deploy(d) in AllRuntimes(cl);
      }
      forall p | p in cl.pipelines && (p.namespace != r.namespace || p.name != r.name)
                 && EnvOn(cl, p.namespace, p.spec.environment, cluster)
        ensures !PipelineUses(p, n)
      {
        assert Pipe(p) in AllRuntimes(cl);
      }
    }
  }

  predicate DeploymentLeftOut(d: DeploymentRuntime, excluded: seq<Runtime>) {
    exists y :: y in excluded && y.Deploy? && y.deployment.spec.product == d.spec.product && y.deployment.name == d.name
  }

  predicate PipelineLeftOut(p: PipelineRuntime, excluded: seq<Runtime>) {
    exists y :: y in excluded && y.Pipe? && y.pipeline.namespace == p.namespace && y.pipeline.name == p.name
  }

  /** A namespace is in the usage of a cluster iff a runtime that is not left out is there and
      lists it, or lists none and has its name. */
  lemma UsageFields(cl: Client, excluded: seq<Runtime>, inCluster: string, c: string, n: string)
    requires Sound(cl) && UsedNamespaces(cl, excluded, inCluster).Ok?
    ensures var m := UsedNamespaces(cl, excluded, inCluster).value;
      c in m && n in m[c] <==>
        && (inCluster == "" || inCluster == c)
        && (|| (exists d :: d in cl.deployments && !DeploymentLeftOut(d, excluded) && DeploymentUses(d, n)
                            && EnvOn(cl, d.spec.product, d.spec.environment, c))
            || (exists p :: p in cl.pipelines && !PipelineLeftOut(p, excluded) && PipelineUses(p, n)
                            && EnvOn(cl, p.namespace, p.spec.environment, c)))
  {
    UsageMapAt(AllRuntimes(cl), cl.envs, excluded, inCluster, c);
    CollectedMeaning(AllRuntimes(cl), cl.envs, excluded, c, n);
    forall d ensures (Deploy(d) in AllRuntimes(cl) <==> d in cl.deployments)
      && (Uses(Deploy(d), cl.envs, excluded, c) <==>
            !DeploymentLeftOut(d, excluded) && EnvOn(cl, d.spec.product, d.spec.environment, c))
      && (n in Deploy(d).GetNamespaces() <==> DeploymentUses(d, n))
    {
      D.RuntimeListed(cl, Deploy(d));
      DeploymentPlace(cl, d, c);
    }
    forall p ensures (Pipe(p) in AllRuntimes(cl) <==> p in cl.pipelines)
      && (Uses(Pipe(p), cl.envs, excluded, c) <==>
            !PipelineLeftOut(p, excluded) && EnvOn(cl, p.namespace, p.spec.environment, c))
      && (n in Pipe(p).GetNamespaces() <==> PipelineUses(p, n))
    {
      D.RuntimeListed(cl, Pipe(p));
      PipelinePlace(cl, p, c);
    }
    SomeRuntime(cl, excluded, c, n);
  }

  // A runtime that uses the namespace is a deployment runtime or a pipeline runtime.
  lemma SomeRuntime(cl: Client, excluded: seq<Runtime>, c: string, n: string)
    ensures (exists x :: x in AllRuntimes(cl) && Uses(x, cl.envs, excluded, c) && n in x.GetNamespaces()) <==>
      || (exists d :: Deploy(d) in AllRuntimes(cl) && Uses(Deploy(d), cl.envs, excluded, c)
                      && n in Deploy(d).GetNamespaces())
      || (exists p :: Pipe(p) in AllRuntimes(cl) && Uses(Pipe(p), cl.envs, excluded, c) && n in Pipe(p).GetNamespaces())
  {
    if x :| x in AllRuntimes(cl) && Uses(x, cl.envs, excluded, c) && n in x.GetNamespaces() {
      match x
      case Deploy(d) => assert Deploy(d) in AllRuntimes(cl);
      case Pipe(p) => assert Pipe(p) in AllRuntimes(cl);
    }
  }

  // The hooks pass on the cluster.
  predicate HooksPass(cl: Client, r: PipelineRuntime, c: Cluster) {
    && "pipeline" in c.components
    && var component := c.components["pipeline"].name;
       (component in cl.hookMetadata ==> cl.hookMetadata[component].Some?)
       && (r.spec.hooks.Some? ==>
             && "eventListener" in c.components
             && var rules := if component in cl.hookMetadata then cl.hookMetadata[component].value else [];
                HooksOk(r.spec.hooks.value, P.TypesOf(r.spec.eventSources), rules))
  }

  /** The event source types are those of the sources. */
  lemma TypesFields(sources: seq<EventSource>, t: string)
    ensures t in P.TypesOf(sources) <==>
      || (t == "gitlab" && exists e :: e in sources && e.gitlab.Some?)
      || (t == "calendar" && exists e :: e in sources && e.calendar.Some?)
  {
  }

  /** A pipeline runtime is accepted iff its spec is right, its environment is on a pipeline
      worker cluster, it may use its repositories, every other runtime has its environment,
      nobody else on the cluster uses the namespace it names, or its own name if it names
      none, and its hooks pass. */
  lemma PipelineAccepted(cl: Client, r: PipelineRuntime)
    requires Sound(cl)
    ensures P.Verdict(cl, r).Ok? <==>
      && StaticOk(r.spec)
      && (exists c :: c in cl.clusters && EnvOn(cl, r.namespace, r.spec.environment, c)
            && cl.clusters[c].usage == Worker && cl.clusters[c].workType == PipelineWork
            && NobodyUses(cl, r, c, if r.spec.namespace == "" then r.name else r.spec.namespace)
            && HooksPass(cl, r, cl.clusters[c]))
      && OthersPlaced(cl, r)
      && HasCodeRepoPermission(cl, r.namespace, r.spec.project, r.spec.pipelineSource)
      && (r.spec.additionalGit.Some? && r.spec.additionalGit.value.codeRepo != "" ==>
            HasCodeRepoPermission(cl, r.namespace, r.spec.project, r.spec.additionalGit.value.codeRepo))
  {
    P.AcceptanceMeaning(cl, r);
    OthersPlacedExactly(cl, r);
    var env := LookupEnv(cl.envs, r.namespace, r.spec.environment);
    if env.Some? {
      NobodyUsesExactly(cl, r, env.value.cluster);
    }
    forall c ensures EnvOn(cl, r.namespace, r.spec.environment, c) <==> env.Some? && env.value.cluster == c {
      EnvLookup(cl, r.namespace, r.spec.environment, c);
    }
  }

  /** The accepted runtime's illegal sources, in order: those that name a repository which the
      project may not use. */
  lemma {:induction false} IllegalSelected(cl: Client, product: string, project: string, sources: seq<EventSource>)
    ensures Selects(sources, P.IllegalSources(cl, product, project, sources), (e: EventSource) =>
      e.gitlab.Some? && e.gitlab.value.repoName != ""
      && !HasCodeRepoPermission(cl, product, project, e.gitlab.value.repoName))
    decreases |sources|
  {
    if |sources| == 0 {
      SelectsNothing<EventSource>((e: EventSource) =>
        e.gitlab.Some? && e.gitlab.value.repoName != ""
        && !HasCodeRepoPermission(cl, product, project, e.gitlab.value.repoName));
    } else {
      var rest, last := sources[..|sources| - 1], sources[|sources| - 1];
      IllegalSelected(cl, product, project, rest);
      SelectsSnoc(rest, P.IllegalSources(cl, product, project, rest), last, (e: EventSource) =>
        e.gitlab.Some? && e.gitlab.value.repoName != ""
        && !HasCodeRepoPermission(cl, product, project, e.gitlab.value.repoName));
      assert sources == rest + [last];
    }
  }

  lemma {:induction false} SourcesSelected(sources: seq<EventSource>, illegal: set<string>)
    ensures Selects(sources, P.KeepSources(sources, illegal), (e: EventSource) => e.name !in illegal)
    decreases |sources|
  {
    if |sources| == 0 {
      SelectsNothing<EventSource>((e: EventSource) => e.name !in illegal);
    } else {
      var rest, last := sources[..|sources| - 1], sources[|sources| - 1];
      SourcesSelected(rest, illegal);
      SelectsSnoc(rest, P.KeepSources(rest, illegal), last, (e: EventSource) => e.name !in illegal);
      assert sources == rest + [last];
    }
  }

  lemma {:induction false} TriggersSelected(triggers: seq<PipelineTrigger>, illegal: set<string>)
    ensures Selects(triggers, P.KeepTriggers(triggers, illegal), (t: PipelineTrigger) => t.eventSource !in illegal)
    decreases |triggers|
  {
    if |triggers| == 0 {
      SelectsNothing<PipelineTrigger>((t: PipelineTrigger) => t.eventSource !in illegal);
    } else {
      var rest, last := triggers[..|triggers| - 1], triggers[|triggers| - 1];
      TriggersSelected(rest, illegal);
      SelectsSnoc(rest, P.KeepTriggers(rest, illegal), last, (t: PipelineTrigger) => t.eventSource !in illegal);
      assert triggers == rest + [last];
    }
  }

  /** The filter keeps, in order and as often as they come, the sources whose name no illegal
      source has and the triggers of such sources, and touches nothing else. */
  lemma FilteredExactly(r: PipelineRuntime, illegal: seq<EventSource>)
    ensures var r' := P.WithoutIllegal(r, illegal);
      && r' == r.(spec := r.spec.(eventSources := r'.spec.eventSources, triggers := r'.spec.triggers))
      && Selects(r.spec.eventSources, r'.spec.eventSources, (e: EventSource) => e.name !in P.Names(illegal))
      && Selects(r.spec.triggers, r'.spec.triggers, (t: PipelineTrigger) => t.eventSource !in P.Names(illegal))
      && forall n :: n in P.Names(illegal) <==> exists e :: e in illegal && e.name == n
  {
    SourcesSelected(r.spec.eventSources, P.Names(illegal));
    TriggersSelected(r.spec.triggers, P.Names(illegal));
    if |illegal| == 0 {
      assert P.Names(illegal) == {};
      KeepsAllSources(r.spec.eventSources);
      KeepsAllTriggers(r.spec.triggers);
    }
  }

  lemma {:induction false} KeepsAllSources(sources: seq<EventSource>)
    ensures P.KeepSources(sources, {}) == sources
    decreases |sources|
  {
    if |sources| > 0 {
      KeepsAllSources(sources[..|sources| - 1]);
      assert sources == sources[..|sources| - 1] + [sources[|sources| - 1]];
    }
  }

  lemma {:induction false} KeepsAllTriggers(triggers: seq<PipelineTrigger>)
    ensures P.KeepTriggers(triggers, {}) == triggers
    decreases |triggers|
  {
    if |triggers| > 0 {
      KeepsAllTriggers(triggers[..|triggers| - 1]);
      assert triggers == triggers[..|triggers| - 1] + [triggers[|triggers| - 1]];
    }
  }

  /******* Deployment runtimes *******/

  // What is deployed is this manifest in this environment.
  predicate DeployedAs(d: DeploymentRuntime) {
    && d.history.Some? && d.history.value.environment == d.spec.environment
    && d.history.value.manifest.codeRepo == d.spec.manifest.codeRepo
    && d.history.value.manifest.path == d.spec.manifest.path
    && d.history.value.manifest.targetRevision == d.spec.manifest.targetRevision
  }

  // The cluster of the environment is a deployment worker, and none of its components is in
  // a namespace that the runtime lists.
  predicate Deployable(cl: Client, d: DeploymentRuntime) {
    exists c :: c in cl.clusters && EnvOn(cl, d.spec.product, d.spec.environment, c)
                && cl.clusters[c].usage == Worker && cl.clusters[c].workType == DeploymentWork
                && forall k :: k in cl.clusters[c].components ==>
                  cl.clusters[c].components[k].namespace !in d.spec.namespaces
  }

  // Another runtime that the product's listing gives has the same manifest and environment.
  predicate HasTwin(cl: Client, d: DeploymentRuntime) {
    exists x :: x in cl.deployments && (d.spec.product == "" || x.namespace == d.spec.product) && x.name != d.name
                && x.spec.product == d.spec.product && x.spec.environment == d.spec.environment
                && x.spec.manifest.codeRepo == d.spec.manifest.codeRepo && x.spec.manifest.path == d.spec.manifest.path
                && x.spec.manifest.targetRevision == d.spec.manifest.targetRevision
  }

  // A runtime of another product on the same cluster lists a namespace that this one lists.
  ghost predicate HasRival(cl: Client, d: DeploymentRuntime) {
    exists x, c, n :: x in cl.deployments && x.spec.product != d.spec.product
                      && EnvOn(cl, x.spec.product, x.spec.environment, c)
                      && EnvOn(cl, d.spec.product, d.spec.environment, c)
                      && n in x.spec.namespaces && n in d.spec.namespaces
  }

  lemma TwinIsDuplicate(cl: Client, d: DeploymentRuntime)
    ensures D.IsDuplicate(cl, d) <==> HasTwin(cl, d)
  {
    if HasTwin(cl, d) {
      var x :| x in cl.deployments && (d.spec.product == "" || x.namespace == d.spec.product) && x.name != d.name
        && x.spec.product == d.spec.product && x.spec.environment == d.spec.environment
        && x.spec.manifest.codeRepo == d.spec.manifest.codeRepo && x.spec.manifest.path == d.spec.manifest.path
        && x.spec.manifest.targetRevision == d.spec.manifest.targetRevision;
      assert x in ListDeploymentRuntimes(cl, d.spec.product);
    }
  }

  lemma RivalIsTaken(cl: Client, d: DeploymentRuntime)
    requires Sound(cl) && NoBars(cl.envs) && EnvExists(cl, d.spec.product, d.spec.environment)
    ensures D.NamespacesTaken(cl, d) <==>
      HasRival(cl, d) && forall x :: x in cl.deployments ==> EnvExists(cl, x.spec.product, x.spec.environment)
  {
    D.TakenWithoutBars(cl, d);
    forall x, c ensures ClusterOf(cl.envs, x) == Some(c) <==> EnvOn(cl, x.spec.product, x.spec.environment, c) {
      EnvLookup(cl, x.spec.product, x.spec.environment, c);
    }
    forall x ensures ClusterOf(cl.envs, x).Some? <==> EnvExists(cl, x.spec.product, x.spec.environment) {
      EnvLookup(cl, x.spec.product, x.spec.environment, "");
    }
    if D.ReallyTaken(cl, d) {
      var x :| x in cl.deployments && ClusterOf(cl.envs, x) == ClusterOf(cl.envs, d) && D.Competes(x, d);
      var n :| n in x.spec.namespaces && n in d.spec.namespaces;
      assert EnvOn(cl, x.spec.product, x.spec.environment, ClusterOf(cl.envs, d).value);
    }
    if HasRival(cl, d) {
      var x, c, n :| x in cl.deployments && x.spec.product != d.spec.product
        && EnvOn(cl, x.spec.product, x.spec.environment, c) && EnvOn(cl, d.spec.product, d.spec.environment, c)
        && n in x.spec.namespaces && n in d.spec.namespaces;
      assert ClusterOf(cl.envs, x) == ClusterOf(cl.envs, d) && D.Competes(x, d);
    }
  }

  lemma DeployableExactly(cl: Client, d: DeploymentRuntime)
    requires Sound(cl)
    ensures D.ClusterRefusal(cl, d).None? <==> Deployable(cl, d)
  {
    var env := LookupEnv(cl.envs, d.spec.product, d.spec.environment);
    forall c ensures EnvOn(cl, d.spec.product, d.spec.environment, c) <==> env.Some? && env.value.cluster == c {
      EnvLookup(cl, d.spec.product, d.spec.environment, c);
    }
    if env.Some? && env.value.cluster in cl.clusters {
      var c := cl.clusters[env.value.cluster];
      assert forall k :: k in c.components ==> c.components[k].namespace in D.ComponentNamespaces(c);
    }
  }

  /** A deployment runtime is accepted iff one code repository has the manifests' name, the
      environment is the deployed one if there is one, and it is deployed as it asks, or can
      be deployed on its cluster, has no twin in its product, and no rival in a namespace,
      which a runtime without an environment would hide. */
  lemma DeploymentAccepted(cl: Client, d: DeploymentRuntime)
    requires Sound(cl) && NoBars(cl.envs)
    ensures D.Verdict(cl, d).Ok? <==>
      && (exists i: nat :: TheRepo(cl, i, d.spec.manifest.codeRepo))
      && (d.history.Some? ==> d.history.value.environment == d.spec.environment)
      && (DeployedAs(d)
          || (Deployable(cl, d) && !HasTwin(cl, d)
              && !(HasRival(cl, d)
                   && forall x :: x in cl.deployments ==> EnvExists(cl, x.spec.product, x.spec.environment))))
  {
    RepoFound(cl, d.spec.manifest.codeRepo);
    TwinIsDuplicate(cl, d);
    DeployableExactly(cl, d);
    assert D.MatchesHistory(d) <==> DeployedAs(d);
    if EnvExists(cl, d.spec.product, d.spec.environment) {
      RivalIsTaken(cl, d);
    }
  }

  /** A deployed runtime that asks for another repository, path or revision is accepted only
      without a twin. */
  lemma ChangedManifestChecked(cl: Client, d: DeploymentRuntime)
    requires d.history.Some? && D.Verdict(cl, d).Ok?
    requires || d.history.value.manifest.codeRepo != d.spec.manifest.codeRepo
      || d.history.value.manifest.path != d.spec.manifest.path
      || d.history.value.manifest.targetRevision != d.spec.manifest.targetRevision
    ensures !HasTwin(cl, d)
  {
    TwinIsDuplicate(cl, d);
  }

  /** The illegal project references, in order: the projects that may not use the repository. */
  lemma {:induction false} RefsSelected(cl: Client, repo: CodeRepo, projects: seq<string>)
    ensures Selects(projects, D.IllegalRefs(cl, repo, projects), (p: string) =>
      !HasCodeRepoPermission(cl, repo.product, p, repo.name))
    decreases |projects|
  {
    if |projects| == 0 {
      SelectsNothing<string>((p: string) => !HasCodeRepoPermission(cl, repo.product, p, repo.name));
    } else {
      var rest, last := projects[..|projects| - 1], projects[|projects| - 1];
      RefsSelected(cl, repo, rest);
      SelectsSnoc(rest, D.IllegalRefs(cl, repo, rest), last, (p: string) =>
        !HasCodeRepoPermission(cl, repo.product, p, repo.name));
      assert projects == rest + [last];
    }
  }

  /******* The answers of the validations *******/

  /** The answer for an accepted pipeline runtime is the sources whose repository its project
      may not use in its product. */
  lemma PipelineAnswer(cl: Client, r: PipelineRuntime)
    requires P.Verdict(cl, r).Ok?
    ensures Selects(r.spec.eventSources, P.Verdict(cl, r).value, (e: EventSource) =>
      e.gitlab.Some? && e.gitlab.value.repoName != ""
      && !HasCodeRepoPermission(cl, r.namespace, r.spec.project, e.gitlab.value.repoName))
  {
    IllegalSelected(cl, r.namespace, r.spec.project, r.spec.eventSources);
  }

  /** The answer for an accepted deployment runtime is the projects that may not use the
      manifest repository in that repository's product. */
  lemma DeploymentAnswer(cl: Client, d: DeploymentRuntime, i: nat)
    requires D.Verdict(cl, d).Ok? && TheRepo(cl, i, d.spec.manifest.codeRepo)
    ensures Selects(d.spec.projectsRef, D.Verdict(cl, d).value, (p: string) =>
      !HasCodeRepoPermission(cl, cl.repos[i].product, p, cl.repos[i].name))
  {
    RepoFound(cl, d.spec.manifest.codeRepo);
    RefsSelected(cl, cl.repos[i], d.spec.projectsRef);
  }
}
