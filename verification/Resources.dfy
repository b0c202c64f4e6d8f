/** The resources the admission webhooks read, and the client they read them with. */
module Resources {
  import opened Wrappers

  datatype Usage = Host | Worker

  datatype WorkType = NoWork | DeploymentWork | PipelineWork

  datatype Component = Component(name: string, namespace: string)

  // `components` holds the components that are set, by their kind.
  datatype Cluster = Cluster(name: string, usage: Usage, workType: WorkType, components: map<string, Component>)

  datatype Environment = Environment(namespace: string, name: string, product: string, cluster: string)

  datatype CodeRepo = CodeRepo(name: string, product: string, project: string, deleting: bool)

  datatype CodeRepoBinding = CodeRepoBinding(product: string, codeRepo: string, projects: seq<string>, deleting: bool)

  /******* Deployment runtimes *******/

  datatype ManifestSource = ManifestSource(codeRepo: string, targetRevision: string, path: string)

  datatype DeploymentSpec = DeploymentSpec(
    product: string, projectsRef: seq<string>, manifest: ManifestSource,
    environment: string, namespaces: seq<string>, account: string)

  datatype DeployHistory = DeployHistory(manifest: ManifestSource, environment: string, namespaces: seq<string>)

  datatype DeploymentRuntime = DeploymentRuntime(
    namespace: string, name: string, spec: DeploymentSpec, history: Option<DeployHistory>)
  {
    function GetNamespaces(): seq<string> {
      if |spec.namespaces| == 0 then [name] else spec.namespaces
    }
  }

  /******* Pipeline runtimes *******/

  datatype Gitlab = Gitlab(repoName: string, revision: string)

  datatype EventSource = EventSource(name: string, gitlab: Option<Gitlab>, calendar: Option<string>)

  datatype Input = Input(builtInVar: Option<string>, fromEvent: Option<string>, kustomization: Option<string>)

  datatype PipelineTrigger = PipelineTrigger(
    eventSource: string, pipeline: string, revision: string, inputs: seq<Input>)

  datatype Pipeline = Pipeline(name: string, path: string)

  datatype Hook = Hook(name: string, alias: Option<string>)

  datatype Hooks = Hooks(preHooks: seq<Hook>, postHooks: seq<Hook>)

  datatype AdditionalGit = AdditionalGit(codeRepo: string, url: string)

  datatype PipelineSpec = PipelineSpec(
    project: string, pipelineSource: string, pipelines: seq<Pipeline>,
    environment: string, namespace: string,
    eventSources: seq<EventSource>, triggers: seq<PipelineTrigger>,
    additionalGit: Option<AdditionalGit>, hooks: Option<Hooks>)

  datatype PipelineRuntime = PipelineRuntime(namespace: string, name: string, spec: PipelineSpec)
  {
    function GetNamespaces(): seq<string> {
      [if spec.namespace == "" then name else spec.namespace]
    }
  }

  datatype HookMetadata = HookMetadata(
    name: string, isPreHook: bool, isPostHook: bool, supportEventSourceTypes: seq<string>)

  /******* Runtimes of either kind *******/

  datatype Runtime = Deploy(deployment: DeploymentRuntime) | Pipe(pipeline: PipelineRuntime)
  {
    function GetProduct(): string {
      if Deploy? then deployment.spec.product else pipeline.namespace
    }

    function GetName(): string {
      if Deploy? then deployment.name else pipeline.name
    }

    function GetDestination(): string {
      if Deploy? then deployment.spec.environment else pipeline.spec.environment
    }

    function GetNamespaces(): (r: seq<string>)
      ensures |r| > 0
    {
      if Deploy? then deployment.GetNamespaces() else pipeline.GetNamespaces()
    }
  }

  /******* The client *******/

  /** The answers of the API server while one request is admitted. A listing may come in
      any order. `clusters` holds the names that denote exactly one cluster; the hook
      metadata of a pipeline component is None if it is malformed. */
  datatype Client = Client(
    envs: seq<Environment>, clusters: map<string, Cluster>,
    deployments: seq<DeploymentRuntime>, pipelines: seq<PipelineRuntime>,
    repos: seq<CodeRepo>, bindings: seq<CodeRepoBinding>,
    hookMetadata: map<string, Option<seq<HookMetadata>>>)

  function LookupEnv(envs: seq<Environment>, namespace: string, name: string): (r: Option<Environment>)
    ensures r.Some? ==> r.value in envs && r.value.namespace == namespace && r.value.name == name
    ensures r.None? ==> forall e :: e in envs ==> e.namespace != namespace || e.name != name
  {
    if |envs| == 0 then None
    else if envs[0].namespace == namespace && envs[0].name == name then Some(envs[0])
    else LookupEnv(envs[1..], namespace, name)
  }

  function InNamespace(deployments: seq<DeploymentRuntime>, namespace: string): (r: seq<DeploymentRuntime>)
    ensures forall d :: d in r <==> d in deployments && d.namespace == namespace
  {
    if |deployments| == 0 then []
    else
      (if deployments[0].namespace == namespace then [deployments[0]] else [])
      + InNamespace(deployments[1..], namespace)
  }

  // An empty product lists every runtime.
  function ListDeploymentRuntimes(cl: Client, product: string): seq<DeploymentRuntime> {
    if product == "" then cl.deployments else InNamespace(cl.deployments, product)
  }

  function PipelinesIn(pipelines: seq<PipelineRuntime>, namespace: string): (r: seq<PipelineRuntime>)
    ensures forall p :: p in r <==> p in pipelines && p.namespace == namespace
  {
    if |pipelines| == 0 then []
    else (if pipelines[0].namespace == namespace then [pipelines[0]] else []) + PipelinesIn(pipelines[1..], namespace)
  }

  function ListProjectPipelineRuntimes(cl: Client, product: string): seq<PipelineRuntime> {
    if product == "" then cl.pipelines else PipelinesIn(cl.pipelines, product)
  }

  function ReposNamed(repos: seq<CodeRepo>, name: string): seq<CodeRepo> {
    if |repos| == 0 then []
    else (if repos[0].name == name then [repos[0]] else []) + ReposNamed(repos[1..], name)
  }

  function GetCodeRepo(cl: Client, name: string): Option<CodeRepo> {
    var found := ReposNamed(cl.repos, name);
    if |found| == 1 then Some(found[0]) else None
  }

  // The index of bindings leaves out those without a product or a repository.
  predicate Indexed(b: CodeRepoBinding, product: string, repo: string) {
    b.product == product && b.codeRepo == repo && product != "" && repo != ""
  }

  // A binding that lets the project use the repository; no projects means all of them.
  predicate Grants(b: CodeRepoBinding, product: string, project: string, repo: string) {
    Indexed(b, product, repo) && !b.deleting && (|b.projects| == 0 || project in b.projects)
  }

  predicate HasCodeRepoPermission(cl: Client, product: string, project: string, repo: string) {
    var r := GetCodeRepo(cl, repo);
    && r.Some?
    && ((!r.value.deleting && r.value.product == product && r.value.project == project)
        || exists b :: b in cl.bindings && Grants(b, product, project, repo))
  }

  function GetClusterByRuntime(cl: Client, product: string, environment: string): Option<Cluster> {
    var env := LookupEnv(cl.envs, product, environment);
    if env.Some? && env.value.cluster in cl.clusters then Some(cl.clusters[env.value.cluster]) else None
  }
}
