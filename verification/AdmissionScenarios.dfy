/** A run of admitted requests after which two products share a namespace. */
module AdmissionScenarios {
  import opened Wrappers
  import opened Resources
  import opened Admission
  import opened AdmissionSafety

  const SHARED_CLUSTER := Cluster("c1", Worker, DeploymentWork, map[])
  const ENV_A := Environment("a", "prod", "a", "c1")
  const ENV_B := Environment("b", "prod", "b", "c1")

  // Deploys the repository "src"; it lists no namespaces.
  function WebSpec(product: string): DeploymentSpec {
    DeploymentSpec(product, [], ManifestSource("src", "main", "/"), "prod", [], "")
  }

  function Web(product: string): DeploymentRuntime {
    DeploymentRuntime(product, "web", WebSpec(product), None)
  }

  function Answers(envs: seq<Environment>, deployments: seq<DeploymentRuntime>): Client {
    Client(envs, map["c1" := SHARED_CLUSTER], deployments, [], [CodeRepo("src", "a", "p", false)], [], map[])
  }

  function Stage0(): State {
    State(map["c1" := SHARED_CLUSTER], map[], map[], map[])
  }

  function Stage1(): State {
    Stage0().(envs := map[Key("a", "prod") := "c1"])
  }

  function Stage2(): State {
    Stage0().(envs := map[Key("a", "prod") := "c1", Key("b", "prod") := "c1"])
  }

  function Stage3(): State {
    Stage2().(deployments := map[Key("a", "web") := Deployment(WebSpec("a"), None)])
  }

  function Stage4(): State {
    Stage2().(deployments := map[Key("a", "web") := Deployment(WebSpec("a"), None),
                                 Key("b", "web") := Deployment(WebSpec("b"), None)])
  }

  function SharingRun(): seq<Request> {
    [Request(Answers([], []), CreateEnv(Key("a", "prod"), "c1")),
     Request(Answers([ENV_A], []), CreateEnv(Key("b", "prod"), "c1")),
     Request(Answers([ENV_A, ENV_B], []), CreateDeployment(Key("a", "web"), WebSpec("a"))),
     Request(Answers([ENV_A, ENV_B], [Web("a")]), CreateDeployment(Key("b", "web"), WebSpec("b")))]
  }

  lemma Lookups(ds: seq<DeploymentRuntime>)
    ensures var cl := Answers([ENV_A, ENV_B], ds);
      && GetClusterByRuntime(cl, "a", "prod") == Some(SHARED_CLUSTER)
      && GetClusterByRuntime(cl, "b", "prod") == Some(SHARED_CLUSTER)
      && GetCodeRepo(cl, "src") == Some(cl.repos[0])
  {
    var cl := Answers([ENV_A, ENV_B], ds);
    assert cl.envs[1..] == [ENV_B] && "a" != "b";
    var none: seq<CodeRepo> := [];
    assert cl.repos[1..] == none && ReposNamed(none, "src") == [];
    assert ReposNamed(cl.repos, "src") == [cl.repos[0]];
  }

  // A runtime that lists nothing and has no namesake in its product is accepted.
  lemma WebAdmitted(ds: seq<DeploymentRuntime>, product: string)
    requires product in {"a", "b"} && forall d :: d in ds ==> d.spec.product != product
    ensures AdmitsDeployment(Answers([ENV_A, ENV_B], ds), Web(product))
  {
    var cl := Answers([ENV_A, ENV_B], ds);
    Lookups(ds);
    assert D.ClusterRefusal(cl, Web(product)).None?;
    assert !D.IsDuplicate(cl, Web(product));
    assert !D.NamespacesTaken(cl, Web(product));
  }

  lemma EnvSteps()
    ensures Admitted(Stage0(), SharingRun()[0]) && Next(Stage0(), SharingRun()[0].action) == Stage1()
    ensures Admitted(Stage1(), SharingRun()[1]) && Next(Stage1(), SharingRun()[1].action) == Stage2()
  {
  }

  lemma FirstWeb()
    ensures Admitted(Stage2(), SharingRun()[2]) && Next(Stage2(), SharingRun()[2].action) == Stage3()
  {
    WebAdmitted([], "a");
  }

  lemma SecondWeb()
    ensures Admitted(Stage3(), SharingRun()[3]) && Next(Stage3(), SharingRun()[3].action) == Stage4()
  {
    WebAdmitted([Web("a")], "b");
  }

  lemma Prepended(s: State, s': State, run: seq<Request>, i: nat)
    requires i < |run| && Admitted(s, run[i]) && s' == Next(s, run[i].action) && Runnable(s', run[i + 1..])
    ensures Runnable(s, run[i..]) && After(s, run[i..]) == After(s', run[i + 1..])
  {
    assert run[i..][1..] == run[i + 1..];
  }

  lemma SharingRuns()
    ensures Runnable(Stage0(), SharingRun()) && After(Stage0(), SharingRun()) == Stage4()
  {
    var r := SharingRun();
    EnvSteps();
    FirstWeb();
    SecondWeb();
    assert r[4..] == [] && r[0..] == r;
    Prepended(Stage3(), Stage4(), r, 3);
    Prepended(Stage2(), Stage3(), r, 2);
    Prepended(Stage1(), Stage2(), r, 1);
    Prepended(Stage0(), Stage1(), r, 0);
  }

  /** Four admitted requests are enough: two products' runtimes named "web", neither of them
      deployed, use the namespace "web" of one cluster. */
  lemma SharingWitness()
    ensures var s, a, b := Stage4(), Key("a", "web"), Key("b", "web");
      && Reachable(s) && a in s.deployments && b in s.deployments
      && ClusterAt(s, a, "prod") == ClusterAt(s, b, "prod") == Some("c1")
      && D.Shares(DeploymentOf(a, s.deployments[a]).GetNamespaces(), DeploymentOf(b, s.deployments[b]).GetNamespaces())
  {
    SharingRuns();
    assert Leads(Stage0(), SharingRun(), Stage4());
    assert "web" in DeploymentOf(Key("a", "web"), Stage4().deployments[Key("a", "web")]).GetNamespaces();
  }
}
