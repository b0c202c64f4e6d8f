/** Validation of a pipeline runtime, and the runtime without its illegal event sources. */
module PipelineValidate {
  import opened Wrappers
  import opened Resources
  import opened PipelineChecks
  import opened NamespaceUsage

  datatype Refusal =
    | StaticallyWrong
    | ClusterNotFound
    | NotAPipelineCluster
    | SourceNotPermitted
    | GitNotPermitted
    | UsageUnknown
    | NamespaceUsed
    | NoPipelineComponent
    | BadMetadata
    | HookRefused
    | NilEventListener      // not an error value: the webhook dereferences a nil pointer

  predicate GitPermitted(cl: Client, r: PipelineRuntime) {
    r.spec.additionalGit.Some? && r.spec.additionalGit.value.codeRepo != "" ==>
      HasCodeRepoPermission(cl, r.namespace, r.spec.project, r.spec.additionalGit.value.codeRepo)
  }

  predicate SourceIllegal(cl: Client, product: string, project: string, e: EventSource) {
    e.gitlab.Some? && e.gitlab.value.repoName != ""
    && !HasCodeRepoPermission(cl, product, project, e.gitlab.value.repoName)
  }

  function IllegalSources(cl: Client, product: string, project: string, sources: seq<EventSource>): seq<EventSource> {
    if |sources| == 0 then []
    else
      var e := sources[|sources| - 1];
      IllegalSources(cl, product, project, sources[..|sources| - 1])
      + (if SourceIllegal(cl, product, project, e) then [e] else [])
  }

  // The event source types in use, in one order.
  function TypesOf(sources: seq<EventSource>): seq<string> {
    (if exists e :: e in sources && e.gitlab.Some? then ["gitlab"] else [])
    + (if exists e :: e in sources && e.calendar.Some? then ["calendar"] else [])
  }

  // No metadata for the pipeline component means no hook is known; None means malformed.
  function MetadataOf(cl: Client, component: string): Option<seq<HookMetadata>> {
    if component in cl.hookMetadata then cl.hookMetadata[component] else Some([])
  }

  function NamespaceRefusal(usage: Result<map<string, seq<string>>, UsageError>, cluster: string, namespace: string)
    : Option<Refusal>
  {
    match usage
    case Err(_) => Some(UsageUnknown)
    case Ok(m) => if cluster in m && namespace in m[cluster] then Some(NamespaceUsed) else None
  }

  function HookRefusal(cl: Client, r: PipelineRuntime, c: Cluster): Option<Refusal> {
    if "pipeline" !in c.components then Some(NoPipelineComponent)
    else match MetadataOf(cl, c.components["pipeline"].name)
      case None => Some(BadMetadata)
      case Some(rules) =>
        match HooksAnswer(r.spec.hooks, TypesOf(r.spec.eventSources), c, rules)
        case Accepted => None
        case Rejected => Some(HookRefused)
        case Panic => Some(NilEventListener)
  }

  // What the cluster and the other runtimes have against the runtime.
  function PlaceRefusal(cl: Client, r: PipelineRuntime, c: Cluster): Option<Refusal> {
    if c.usage != Worker || c.workType != PipelineWork then Some(NotAPipelineCluster)
    else if !HasCodeRepoPermission(cl, r.namespace, r.spec.project, r.spec.pipelineSource) then Some(SourceNotPermitted)
    else if !GitPermitted(cl, r) then Some(GitNotPermitted)
    else NamespaceRefusal(UsedNamespaces(cl, [Pipe(r)], c.name), c.name, r.GetNamespaces()[0])
  }

  // What Validate answers: the illegal event sources, or the first check that failed.
  function Verdict(cl: Client, r: PipelineRuntime): Result<seq<EventSource>, Refusal> {
    if !StaticOk(r.spec) then Err(StaticallyWrong)
    else match GetClusterByRuntime(cl, r.namespace, r.spec.environment)
      case None => Err(ClusterNotFound)
      case Some(c) =>
        match PlaceRefusal(cl, r, c)
        case Some(e) => Err(e)
        case None =>
          match HookRefusal(cl, r, c)
          case Some(e) => Err(e)
          case None => Ok(IllegalSources(cl, r.namespace, r.spec.project, r.spec.eventSources))
  }

  /******* The webhook *******/

  method CheckPermission(cl: Client, product: string, project: string, repo: string) returns (ok: bool)
    ensures ok <==> HasCodeRepoPermission(cl, product, project, repo)
  {
    var r := GetCodeRepo(cl, repo);
    if r.None? {
      return false;
    }
    if !r.value.deleting && r.value.product == product && r.value.project == project {
      return true;
    }
    for i := 0 to |cl.bindings|
      invariant forall k :: 0 <= k < i ==> !Grants(cl.bindings[k], product, project, repo)
    {
      var binding := cl.bindings[i];
      if !Indexed(binding, product, repo) || binding.deleting {
        continue;
      }
      if |binding.projects| == 0 {
        assert Grants(binding, product, project, repo);
        return true;
      }
      for j := 0 to |binding.projects|
        invariant forall k :: 0 <= k < j ==> binding.projects[k] != project
      {
        if binding.projects[j] == project {
          assert project in binding.projects && Grants(binding, product, project, repo);
          return true;
        }
      }
    }
    return false;
  }

  method CollectIllegal(cl: Client, product: string, project: string, sources: seq<EventSource>)
    returns (illegal: seq<EventSource>)
    ensures illegal == IllegalSources(cl, product, project, sources)
  {
    illegal := [];
    for i := 0 to |sources|
      invariant illegal == IllegalSources(cl, product, project, sources[..i])
    {
      var e := sources[i];
      assert sources[..i + 1][..i] == sources[..i];
      if e.gitlab.Some? && e.gitlab.value.repoName != "" {
        var ok := CheckPermission(cl, product, project, e.gitlab.value.repoName);
        if !ok {
          illegal := illegal + [e];
        }
      }
    }
    assert sources[..|sources|] == sources;
  }

  // The types come out of a set, in any order.
  method GetEventSourceTypes(sources: seq<EventSource>) returns (types: seq<string>)
    ensures forall t :: t in types <==> t in TypesOf(sources)
    ensures forall t :: t in types <==>
      || (t == "gitlab" && exists e :: e in sources && e.gitlab.Some?)
      || (t == "calendar" && exists e :: e in sources && e.calendar.Some?)
  {
    var found := {};
    for i := 0 to |sources|
      invariant forall t :: t in found <==> t in TypesOf(sources[..i])
    {
      assert sources[..i + 1] == sources[..i] + [sources[i]];
      if sources[i].gitlab.Some? {
        found := found + {"gitlab"};
      }
      if sources[i].calendar.Some? {
        found := found + {"calendar"};
      }
    }
    assert sources[..|sources|] == sources;
    types := ListSet(found);
  }

  method CheckHooks(cl: Client, r: PipelineRuntime, c: Cluster) returns (e: Option<Refusal>)
    ensures e == HookRefusal(cl, r, c)
  {
    if "pipeline" !in c.components {
      return Some(NoPipelineComponent);
    }
    var rules := MetadataOf(cl, c.components["pipeline"].name);
    if rules.None? {
      return Some(BadMetadata);
    }
    var types := GetEventSourceTypes(r.spec.eventSources);
    SameTypes(r.spec.hooks, types, TypesOf(r.spec.eventSources), c, rules.value);
    var answer := ValidateHooks(r.spec.hooks, types, c, rules.value);
    match answer
    case Accepted => return None;
    case Rejected => return Some(HookRefused);
    case Panic => return Some(NilEventListener);
  }

  // The checks between the cluster lookup and the event sources.
  method CheckPlace(cl: Client, r: PipelineRuntime, c: Cluster) returns (e: Option<Refusal>)
    ensures e == PlaceRefusal(cl, r, c)
  {
    if c.usage != Worker || c.workType != PipelineWork {
      return Some(NotAPipelineCluster);
    }
    var sourceOk := CheckPermission(cl, r.namespace, r.spec.project, r.spec.pipelineSource);
    if !sourceOk {
      return Some(SourceNotPermitted);
    }
    if r.spec.additionalGit.Some? && r.spec.additionalGit.value.codeRepo != "" {
      var gitOk := CheckPermission(cl, r.namespace, r.spec.project, r.spec.additionalGit.value.codeRepo);
      if !gitOk {
        return Some(GitNotPermitted);
      }
    }
    var usage := GetUsedNamespaces(cl, [Pipe(r)], c.name);
    return NamespaceRefusal(usage, c.name, r.GetNamespaces()[0]);
  }

  method Validate(cl: Client, r: PipelineRuntime) returns (answer: Result<seq<EventSource>, Refusal>)
    ensures answer == Verdict(cl, r)
  {
    var ok := StaticCheck(r.spec);
    if !ok {
      return Err(StaticallyWrong);
    }
    var c := GetClusterByRuntime(cl, r.namespace, r.spec.environment);
    if c.None? {
      return Err(ClusterNotFound);
    }
    var place := CheckPlace(cl, r, c.value);
    if place.Some? {
      return Err(place.value);
    }
    var illegal := CollectIllegal(cl, r.namespace, r.spec.project, r.spec.eventSources);
    var hooks := CheckHooks(cl, r, c.value);
    return if hooks.Some? then Err(hooks.value) else Ok(illegal);
  }

  /** The order of the event source types does not matter. */
  lemma SameTypes(hooks: Option<Hooks>, types: seq<string>, others: seq<string>, c: Cluster, rules: seq<HookMetadata>)
    requires forall t :: t in types <==> t in others
    ensures HooksAnswer(hooks, types, c, rules) == HooksAnswer(hooks, others, c, rules)
  {
    if HooksAnswer(hooks, types, c, rules) == Accepted { FewerTypes(hooks, types, others, c, rules); }
    if HooksAnswer(hooks, others, c, rules) == Accepted { FewerTypes(hooks, others, types, c, rules); }
  }

  /******* What acceptance means *******/

  lemma {:induction false} IllegalMeaning(cl: Client, product: string, project: string, sources: seq<EventSource>,
                                          e: EventSource)
    ensures e in IllegalSources(cl, product, project, sources) <==>
      e in sources && SourceIllegal(cl, product, project, e)
    decreases |sources|
  {
    if |sources| > 0 {
      var rest, last := sources[..|sources| - 1], sources[|sources| - 1];
      IllegalMeaning(cl, product, project, rest, e);
      assert sources == rest + [last];
    }
  }

  predicate OthersResolve(cl: Client, r: PipelineRuntime) {
    forall x :: x in AllRuntimes(cl) && !SameRuntime(x, Pipe(r)) ==> Resolve(cl.envs, x).Ok?
  }

  predicate NamespaceFree(cl: Client, r: PipelineRuntime, cluster: string) {
    forall x :: x in AllRuntimes(cl) && !SameRuntime(x, Pipe(r)) && Resolve(cl.envs, x) == Ok(cluster) ==>
      r.GetNamespaces()[0] !in x.GetNamespaces()
  }

  lemma NamespaceMeaning(cl: Client, r: PipelineRuntime, c: Cluster)
    ensures NamespaceRefusal(UsedNamespaces(cl, [Pipe(r)], c.name), c.name, r.GetNamespaces()[0]).None? <==>
      OthersResolve(cl, r) && NamespaceFree(cl, r, c.name)
  {
    var xs, excluded, n := AllRuntimes(cl), [Pipe(r)], r.GetNamespaces()[0];
    ErrorMeaning(xs, cl.envs, excluded);
    forall x ensures Excluded(x, excluded) <==> SameRuntime(x, Pipe(r)) { ExcludedOne(x, Pipe(r)); }
    if UsedNamespaces(cl, excluded, c.name).Ok? {
      UsageIsScan(cl, excluded, c.name, c.name, n);
    }
  }

  /** Acceptance, check by check: in particular every runtime but this one has an
      environment, and none of those on the cluster, of either kind, lists its namespace. */
  lemma AcceptanceMeaning(cl: Client, r: PipelineRuntime)
    ensures Verdict(cl, r).Ok? <==>
      && StaticOk(r.spec)
      && var c := GetClusterByRuntime(cl, r.namespace, r.spec.environment);
         && c.Some? && c.value.usage == Worker && c.value.workType == PipelineWork
         && HasCodeRepoPermission(cl, r.namespace, r.spec.project, r.spec.pipelineSource) && GitPermitted(cl, r)
         && OthersResolve(cl, r) && NamespaceFree(cl, r, c.value.name)
         && HookRefusal(cl, r, c.value).None?
  {
    var c := GetClusterByRuntime(cl, r.namespace, r.spec.environment);
    if c.Some? {
      NamespaceMeaning(cl, r, c.value);
    }
  }

  /** Validate panics exactly when the runtime passes every earlier check, asks for hooks, and
      the cluster has no event listener. */
  lemma PanicsWithoutListener(cl: Client, r: PipelineRuntime)
    ensures Verdict(cl, r) == Err(NilEventListener) <==>
      && StaticOk(r.spec)
      && var c := GetClusterByRuntime(cl, r.namespace, r.spec.environment);
         && c.Some? && PlaceRefusal(cl, r, c.value).None?
         && "pipeline" in c.value.components && MetadataOf(cl, c.value.components["pipeline"].name).Some?
         && r.spec.hooks.Some? && "eventListener" !in c.value.components
  {
  }

  // A pipeline cluster without an event listener, and a product that owns its repository.
  function NoListener(): Client {
    var c := Cluster("c1", Worker, PipelineWork, map["pipeline" := Component("tekton", "tekton")]);
    Client([Environment("shop", "build", "shop", "c1")], map["c1" := c], [], [],
           [CodeRepo("src", "shop", "web", false)], [], map[])
  }

  function EmptyHooks(): PipelineRuntime {
    PipelineRuntime("shop", "ci", PipelineSpec("web", "src", [], "build", "", [], [], None, Some(Hooks([], []))))
  }

  /** A runtime whose hook lists are empty is enough. */
  lemma PanicWitness()
    ensures Verdict(NoListener(), EmptyHooks()) == Err(NilEventListener)
  {
    var cl, r := NoListener(), EmptyHooks();
    assert LookupEnv(cl.envs, "shop", "build") == Some(cl.envs[0]);
    var c := cl.clusters["c1"];
    var none: seq<CodeRepo> := [];
    assert cl.repos[1..] == none && ReposNamed(none, "src") == [];
    assert ReposNamed(cl.repos, "src") == [cl.repos[0]];
    assert AllRuntimes(cl) == [];
    NamespaceMeaning(cl, r, c);
    assert PlaceRefusal(cl, r, c).None?;
    PanicsWithoutListener(cl, r);
  }

  /******* The runtime without its illegal event sources *******/

  function KeepSources(sources: seq<EventSource>, illegal: set<string>): seq<EventSource> {
    if |sources| == 0 then []
    else
      var e := sources[|sources| - 1];
      KeepSources(sources[..|sources| - 1], illegal) + (if e.name in illegal then [] else [e])
  }

  function KeepTriggers(triggers: seq<PipelineTrigger>, illegal: set<string>): seq<PipelineTrigger> {
    if |triggers| == 0 then []
    else
      var t := triggers[|triggers| - 1];
      KeepTriggers(triggers[..|triggers| - 1], illegal) + (if t.eventSource in illegal then [] else [t])
  }

  function Names(sources: seq<EventSource>): set<string> {
    set e | e in sources :: e.name
  }

  function WithoutIllegal(r: PipelineRuntime, illegal: seq<EventSource>): PipelineRuntime {
    if |illegal| == 0 then r
    else
      r.(spec := r.spec.(
        eventSources := KeepSources(r.spec.eventSources, Names(illegal)),
        triggers := KeepTriggers(r.spec.triggers, Names(illegal))))
  }

  // The copy gets resource version "0", so that nobody can store it.
  method NewPipelineRuntimeWithOutIllegalEventSource(r: PipelineRuntime, illegal: seq<EventSource>)
    returns (r': PipelineRuntime, resourceVersion: string)
    ensures r' == WithoutIllegal(r, illegal) && resourceVersion == "0"
  {
    resourceVersion := "0";
    if |illegal| == 0 {
      return r, resourceVersion;
    }
    var index := {};
    for i := 0 to |illegal|
      invariant index == Names(illegal[..i])
    {
      assert illegal[..i + 1] == illegal[..i] + [illegal[i]];
      index := index + {illegal[i].name};
    }
    assert illegal[..|illegal|] == illegal;

    var sources, legalSources := r.spec.eventSources, [];
    for i := 0 to |sources|
      invariant legalSources == KeepSources(sources[..i], index)
    {
      assert sources[..i + 1][..i] == sources[..i];
      if sources[i].name !in index {
        legalSources := legalSources + [sources[i]];
      }
    }
    assert sources[..|sources|] == sources;

    var triggers, legalTriggers := r.spec.triggers, [];
    for i := 0 to |triggers|
      invariant legalTriggers == KeepTriggers(triggers[..i], index)
    {
      assert triggers[..i + 1][..i] == triggers[..i];
      if triggers[i].eventSource !in index {
        legalTriggers := legalTriggers + [triggers[i]];
      }
    }
    assert triggers[..|triggers|] == triggers;
    return r.(spec := r.spec.(eventSources := legalSources, triggers := legalTriggers)), resourceVersion;
  }
}
