/** The guard on deleting an environment: what still refers to it. */
module EnvironmentGuard {
  import opened Wrappers
  import opened Resources

  function DeploymentsOn(ds: seq<DeploymentRuntime>, environment: string): seq<string> {
    if |ds| == 0 then []
    else
      var d := ds[|ds| - 1];
      DeploymentsOn(ds[..|ds| - 1], environment)
      + (if d.spec.environment == environment then ["deploymentRuntime/" + d.name] else [])
  }

  function PipelinesOn(ps: seq<PipelineRuntime>, environment: string): seq<string> {
    if |ps| == 0 then []
    else
      var p := ps[|ps| - 1];
      PipelinesOn(ps[..|ps| - 1], environment)
      + (if p.spec.environment == environment then ["pipelineRuntime/" + p.name] else [])
  }

  // Runtimes are looked for in the environment's own namespace.
  function Dependencies(cl: Client, namespace: string, name: string): seq<string> {
    DeploymentsOn(ListDeploymentRuntimes(cl, namespace), name)
    + PipelinesOn(ListProjectPipelineRuntimes(cl, namespace), name)
  }

  method GetDependencies(cl: Client, namespace: string, name: string) returns (r: seq<string>)
    ensures r == Dependencies(cl, namespace, name)
  {
    var deployments: seq<string> := [];
    var ds := ListDeploymentRuntimes(cl, namespace);
    for i := 0 to |ds|
      invariant deployments == DeploymentsOn(ds[..i], name)
    {
      assert ds[..i + 1][..i] == ds[..i];
      if ds[i].spec.environment == name {
        deployments := deployments + ["deploymentRuntime/" + ds[i].name];
      }
    }
    assert ds[..|ds|] == ds;

    var pipelines: seq<string> := [];
    var ps := ListProjectPipelineRuntimes(cl, namespace);
    for i := 0 to |ps|
      invariant pipelines == PipelinesOn(ps[..i], name)
    {
      assert ps[..i + 1][..i] == ps[..i];
      if ps[i].spec.environment == name {
        pipelines := pipelines + ["pipelineRuntime/" + ps[i].name];
      }
    }
    assert ps[..|ps|] == ps;
    return deployments + pipelines;
  }

  predicate Referenced(cl: Client, namespace: string, name: string) {
    (exists d :: d in ListDeploymentRuntimes(cl, namespace) && d.spec.environment == name)
    || (exists p :: p in ListProjectPipelineRuntimes(cl, namespace) && p.spec.environment == name)
  }

  lemma ReferencedFields(cl: Client, namespace: string, name: string)
    ensures !Referenced(cl, namespace, name) <==>
      && (forall d :: d in cl.deployments && (namespace == "" || d.namespace == namespace) ==>
            d.spec.environment != name)
      && (forall p :: p in cl.pipelines && (namespace == "" || p.namespace == namespace) ==>
            p.spec.environment != name)
  {
    assert forall d :: d in ListDeploymentRuntimes(cl, namespace) <==>
      d in cl.deployments && (namespace == "" || d.namespace == namespace);
    assert forall p :: p in ListProjectPipelineRuntimes(cl, namespace) <==>
      p in cl.pipelines && (namespace == "" || p.namespace == namespace);
  }

  method IsDeletable(cl: Client, namespace: string, name: string) returns (ok: bool)
    ensures ok <==> !Referenced(cl, namespace, name)
    ensures ok <==>
      && (forall d :: d in cl.deployments && (namespace == "" || d.namespace == namespace) ==>
            d.spec.environment != name)
      && (forall p :: p in cl.pipelines && (namespace == "" || p.namespace == namespace) ==>
            p.spec.environment != name)
  {
    ReferencedFields(cl, namespace, name);
    var dependencies := GetDependencies(cl, namespace, name);
    DependenciesMeaning(cl, namespace, name);
    return |dependencies| == 0;
  }

  lemma {:induction false} DeploymentsOnMeaning(ds: seq<DeploymentRuntime>, environment: string)
    ensures DeploymentsOn(ds, environment) != [] <==> exists d :: d in ds && d.spec.environment == environment
    decreases |ds|
  {
    if |ds| > 0 {
      DeploymentsOnMeaning(ds[..|ds| - 1], environment);
      assert ds == ds[..|ds| - 1] + [ds[|ds| - 1]];
    }
  }

  lemma {:induction false} PipelinesOnMeaning(ps: seq<PipelineRuntime>, environment: string)
    ensures PipelinesOn(ps, environment) != [] <==> exists p :: p in ps && p.spec.environment == environment
    decreases |ps|
  {
    if |ps| > 0 {
      PipelinesOnMeaning(ps[..|ps| - 1], environment);
      assert ps == ps[..|ps| - 1] + [ps[|ps| - 1]];
    }
  }

  lemma DependenciesMeaning(cl: Client, namespace: string, name: string)
    ensures Dependencies(cl, namespace, name) == [] <==> !Referenced(cl, namespace, name)
  {
    DeploymentsOnMeaning(ListDeploymentRuntimes(cl, namespace), name);
    PipelinesOnMeaning(ListProjectPipelineRuntimes(cl, namespace), name);
  }

  // Some other runtime in the namespace names the environment.
  predicate OtherReference(cl: Client, d: DeploymentRuntime, namespace: string, name: string) {
    || (exists x :: x in cl.deployments && x != d && x.namespace == namespace && x.spec.environment == name)
    || (exists p :: p in cl.pipelines && p.namespace == namespace && p.spec.environment == name)
  }

  /** A deployment runtime keeps its environment from being deleted if it lives in its
      product's namespace. If it lives elsewhere, the environment is kept only if another
      runtime in the product's namespace happens to name it. */
  lemma GuardSees(cl: Client, d: DeploymentRuntime)
    requires d in cl.deployments && d.spec.product != ""
    ensures Referenced(cl, d.spec.product, d.spec.environment) <==>
      d.namespace == d.spec.product || OtherReference(cl, d, d.spec.product, d.spec.environment)
  {
    var namespace, name := d.spec.product, d.spec.environment;
    assert forall x :: x in ListDeploymentRuntimes(cl, namespace) <==> x in cl.deployments && x.namespace == namespace;
    assert forall p :: p in ListProjectPipelineRuntimes(cl, namespace) <==>
      p in cl.pipelines && p.namespace == namespace;
    if x :| x in cl.deployments && x.namespace == namespace && x.spec.environment == name {
      assert Referenced(cl, namespace, name);
    }
  }

  /** So the guard lets an environment go that a runtime in another namespace needs. */
  lemma MisalignedDelete()
    ensures var spec := DeploymentSpec("shop", [], ManifestSource("repo", "main", "/"), "prod", [], "");
      var d := DeploymentRuntime("team", "web", spec, None);
      var cl := Client([Environment("shop", "prod", "shop", "c1")], map[], [d], [], [], [], map[]);
      !Referenced(cl, "shop", "prod") && LookupEnv(cl.envs, d.spec.product, d.spec.environment).Some?
  {
    assert "team" != "shop" by { assert "team"[0] == 't' && "shop"[0] == 's'; }
  }
}
