/** Which namespaces are in use: the usage map of all runtimes, and the usage of one
    cluster by the deployment runtimes of each product. */
module NamespaceUsage {
  import opened Wrappers
  import opened Strings
  import opened Resources

  /******* GetUsedNamespaces *******/

  datatype UsageError = ProductNotFound | EnvironmentNotFound

  function Deploys(ds: seq<DeploymentRuntime>): seq<Runtime> {
    seq(|ds|, i requires 0 <= i < |ds| => Deploy(ds[i]))
  }

  function Pipes(ps: seq<PipelineRuntime>): seq<Runtime> {
    seq(|ps|, i requires 0 <= i < |ps| => Pipe(ps[i]))
  }

  function AllRuntimes(cl: Client): seq<Runtime> {
    Deploys(cl.deployments) + Pipes(cl.pipelines)
  }

  predicate SameRuntime(x: Runtime, y: Runtime) {
    x.Deploy? == y.Deploy? && x.GetProduct() == y.GetProduct() && x.GetName() == y.GetName()
  }

  predicate Excluded(x: Runtime, excluded: seq<Runtime>) {
    exists y :: y in excluded && SameRuntime(x, y)
  }

  lemma ExcludedOne(x: Runtime, y: Runtime)
    ensures Excluded(x, [y]) <==> SameRuntime(x, y)
  {
    assert [y][0] in [y];
  }

  predicate HasProduct(envs: seq<Environment>, product: string) {
    exists e :: e in envs && e.product == product
  }

  // The cluster of an environment by its product; of several the last one counts.
  function CachedCluster(envs: seq<Environment>, product: string, name: string): Option<string> {
    if |envs| == 0 then None
    else
      var e := envs[|envs| - 1];
      if e.product == product && e.name == name then Some(e.cluster)
      else CachedCluster(envs[..|envs| - 1], product, name)
  }

  function Resolve(envs: seq<Environment>, x: Runtime): Result<string, UsageError> {
    if !HasProduct(envs, x.GetProduct()) then Err(ProductNotFound)
    else match CachedCluster(envs, x.GetProduct(), x.GetDestination())
      case None => Err(EnvironmentNotFound)
      case Some(c) => Ok(c)
  }

  function FirstError(xs: seq<Runtime>, envs: seq<Environment>, excluded: seq<Runtime>): Option<UsageError> {
    if |xs| == 0 then None
    else
      var x := xs[|xs| - 1];
      var before := FirstError(xs[..|xs| - 1], envs, excluded);
      if before.Some? || Excluded(x, excluded) || Resolve(envs, x).Ok? then before
      else Some(Resolve(envs, x).error)
  }

  predicate Uses(x: Runtime, envs: seq<Environment>, excluded: seq<Runtime>, cluster: string) {
    !Excluded(x, excluded) && Resolve(envs, x) == Ok(cluster)
  }

  // The namespaces of the runtimes on the cluster, one after the other.
  function Collected(xs: seq<Runtime>, envs: seq<Environment>, excluded: seq<Runtime>, cluster: string): seq<string> {
    if |xs| == 0 then []
    else
      var x := xs[|xs| - 1];
      Collected(xs[..|xs| - 1], envs, excluded, cluster)
      + (if Uses(x, envs, excluded, cluster) then x.GetNamespaces() else [])
  }

  // An empty cluster name asks for all clusters.
  predicate Asked(inCluster: string, cluster: string) {
    inCluster == "" || inCluster == cluster
  }

  function WithUsage(m: map<string, seq<string>>, cluster: string, namespaces: seq<string>): map<string, seq<string>> {
    m[cluster := (if cluster in m then m[cluster] else []) + namespaces]
  }

  function UsageMap(xs: seq<Runtime>, envs: seq<Environment>, excluded: seq<Runtime>, inCluster: string)
    : map<string, seq<string>>
  {
    if |xs| == 0 then map[]
    else
      var x := xs[|xs| - 1];
      var m := UsageMap(xs[..|xs| - 1], envs, excluded, inCluster);
      if !Excluded(x, excluded) && Resolve(envs, x).Ok? && Asked(inCluster, Resolve(envs, x).value)
      then WithUsage(m, Resolve(envs, x).value, x.GetNamespaces())
      else m
  }

  function UsedNamespaces(cl: Client, excluded: seq<Runtime>, inCluster: string)
    : Result<map<string, seq<string>>, UsageError>
  {
    UsageOf(AllRuntimes(cl), cl.envs, excluded, inCluster)
  }

  function UsageOf(xs: seq<Runtime>, envs: seq<Environment>, excluded: seq<Runtime>, inCluster: string)
    : Result<map<string, seq<string>>, UsageError>
  {
    match FirstError(xs, envs, excluded)
    case Some(e) => Err(e)
    case None => Ok(UsageMap(xs, envs, excluded, inCluster))
  }

  // The cache holds what CachedCluster finds, under the product and the name.
  ghost predicate Caches(cache: map<string, map<string, string>>, envs: seq<Environment>) {
    && (forall p :: p in cache <==> HasProduct(envs, p))
    && (forall p, n :: p in cache ==> (n in cache[p] <==> CachedCluster(envs, p, n).Some?))
    && (forall p, n :: p in cache && n in cache[p] ==> CachedCluster(envs, p, n) == Some(cache[p][n]))
  }

  function WithEnv(cache: map<string, map<string, string>>, e: Environment): map<string, map<string, string>> {
    cache[e.product := (if e.product in cache then cache[e.product] else map[])[e.name := e.cluster]]
  }

  lemma CachesOneMore(cache: map<string, map<string, string>>, envs: seq<Environment>, e: Environment)
    requires Caches(cache, envs)
    ensures Caches(WithEnv(cache, e), envs + [e])
  {
    var cache', envs' := WithEnv(cache, e), envs + [e];
    assert envs'[..|envs|] == envs;
    NoProductNoCluster(envs, e.product);
    forall p ensures HasProduct(envs', p) <==> HasProduct(envs, p) || p == e.product {
      assert forall x :: x in envs' <==> x in envs || x == e;
    }
  }

  function EnvCache(envs: seq<Environment>): map<string, map<string, string>> {
    if |envs| == 0 then map[] else WithEnv(EnvCache(envs[..|envs| - 1]), envs[|envs| - 1])
  }

  lemma {:induction false} EnvCacheRight(envs: seq<Environment>)
    ensures Caches(EnvCache(envs), envs)
    decreases |envs|
  {
    if |envs| > 0 {
      var rest, last := envs[..|envs| - 1], envs[|envs| - 1];
      EnvCacheRight(rest);
      CachesOneMore(EnvCache(rest), rest, last);
      assert envs == rest + [last];
    }
  }

  method BuildEnvCache(envs: seq<Environment>) returns (cache: map<string, map<string, string>>)
    ensures Caches(cache, envs)
  {
    cache := map[];
    for i := 0 to |envs|
      invariant cache == EnvCache(envs[..i])
    {
      var e := envs[i];
      assert envs[..i + 1][..i] == envs[..i];
      if e.product !in cache {
        cache := cache[e.product := map[]];
      }
      cache := cache[e.product := cache[e.product][e.name := e.cluster]];
    }
    assert envs[..|envs|] == envs;
    EnvCacheRight(envs);
  }

  lemma {:induction false} NoProductNoCluster(envs: seq<Environment>, product: string)
    ensures !HasProduct(envs, product) ==> forall n :: CachedCluster(envs, product, n).None?
    decreases |envs|
  {
    if |envs| > 0 {
      var rest := envs[..|envs| - 1];
      NoProductNoCluster(rest, product);
      assert forall e :: e in rest ==> e in envs;
      assert envs[|envs| - 1] in envs;
    }
  }

  method IsExcludeRuntime(x: Runtime, excluded: seq<Runtime>) returns (r: bool)
    ensures r <==> Excluded(x, excluded)
    ensures r <==>
      exists y ::
        y in excluded && y.Deploy? == x.Deploy? && y.GetProduct() == x.GetProduct() && y.GetName() == x.GetName()
  {
    for i := 0 to |excluded|
      invariant forall k :: 0 <= k < i ==> !SameRuntime(x, excluded[k])
    {
      if SameRuntime(x, excluded[i]) {
        return true;
      }
    }
    return false;
  }

  method ResolveCached(cache: map<string, map<string, string>>, x: Runtime, ghost envs: seq<Environment>)
    returns (r: Result<string, UsageError>)
    requires Caches(cache, envs)
    ensures r == Resolve(envs, x)
  {
    if x.GetProduct() !in cache {
      return Err(ProductNotFound);
    }
    var clusters := cache[x.GetProduct()];
    if x.GetDestination() !in clusters {
      return Err(EnvironmentNotFound);
    }
    return Ok(clusters[x.GetDestination()]);
  }

  method AppendUsage(usage: map<string, seq<string>>, cluster: string, namespaces: seq<string>)
    returns (r: map<string, seq<string>>)
    ensures r == WithUsage(usage, cluster, namespaces)
  {
    r := usage;
    if cluster !in r {
      r := r[cluster := []];
    }
    r := r[cluster := r[cluster] + namespaces];
  }

  method GetUsedNamespaces(cl: Client, excluded: seq<Runtime>, inCluster: string)
    returns (r: Result<map<string, seq<string>>, UsageError>)
    ensures r == UsedNamespaces(cl, excluded, inCluster)
  {
    var cache := BuildEnvCache(cl.envs);
    r := ScanRuntimes(AllRuntimes(cl), cache, excluded, inCluster, cl.envs);
  }

  // The loop of GetUsedNamespaces.
  method ScanRuntimes(xs: seq<Runtime>, cache: map<string, map<string, string>>, excluded: seq<Runtime>,
                      inCluster: string,
                      ghost envs: seq<Environment>)
    returns (r: Result<map<string, seq<string>>, UsageError>)
    requires Caches(cache, envs)
    ensures r == UsageOf(xs, envs, excluded, inCluster)
  {
    var usage: map<string, seq<string>> := map[];
    for i := 0 to |xs|
      invariant UsageOf(xs[..i], envs, excluded, inCluster) == Ok(usage)
    {
      var x := xs[i];
      assert xs[..i + 1][..i] == xs[..i];
      var skip := IsExcludeRuntime(x, excluded);
      if skip {
        continue;
      }
      var cluster := ResolveCached(cache, x, envs);
      if cluster.Err? {
        ErrorStays(xs, i + 1, envs, excluded);
        return Err(cluster.error);
      }
      if inCluster != "" && inCluster != cluster.value {
        continue;
      }
      usage := AppendUsage(usage, cluster.value, x.GetNamespaces());
    }
    assert xs[..|xs|] == xs;
    return Ok(usage);
  }

  // The first error of a prefix is the first error of the whole.
  lemma {:induction false} ErrorStays(xs: seq<Runtime>, i: nat, envs: seq<Environment>, excluded: seq<Runtime>)
    requires i <= |xs|
    ensures FirstError(xs[..i], envs, excluded).Some? ==>
      FirstError(xs, envs, excluded) == FirstError(xs[..i], envs, excluded)
    decreases |xs|
  {
    if i < |xs| {
      ErrorStays(xs[..|xs| - 1], i, envs, excluded);
      assert xs[..|xs| - 1][..i] == xs[..i];
    } else {
      assert xs[..i] == xs;
    }
  }

  /******* What the usage map says *******/

  lemma {:induction false} CollectedMeaning(xs: seq<Runtime>, envs: seq<Environment>, excluded: seq<Runtime>,
                                              c: string, n: string)
    ensures n in Collected(xs, envs, excluded, c) <==>
      exists x :: x in xs && Uses(x, envs, excluded, c) && n in x.GetNamespaces()
    decreases |xs|
  {
    if |xs| > 0 {
      var rest, last := xs[..|xs| - 1], xs[|xs| - 1];
      CollectedMeaning(rest, envs, excluded, c, n);
      assert xs == rest + [last];
    }
  }

  /** Each runtime adds its namespaces after those of the runtimes before it. */
  lemma {:induction false} CollectedInOrder(xs: seq<Runtime>, ys: seq<Runtime>, envs: seq<Environment>,
                                            excluded: seq<Runtime>, c: string)
    ensures Collected(xs + ys, envs, excluded, c) == Collected(xs, envs, excluded, c) + Collected(ys, envs, excluded, c)
    ensures |ys| == 1 ==>
      Collected(ys, envs, excluded, c) == if Uses(ys[0], envs, excluded, c) then ys[0].GetNamespaces() else []
    decreases |ys|
  {
    if |ys| == 0 {
      assert xs + ys == xs;
    } else {
      CollectedInOrder(xs, ys[..|ys| - 1], envs, excluded, c);
      assert (xs + ys)[..|xs + ys| - 1] == xs + ys[..|ys| - 1];
    }
  }

  /** The cache holds the last listed environment of each product and name. */
  lemma {:induction false} CachedIsLast(envs: seq<Environment>, product: string, name: string, c: string)
    ensures CachedCluster(envs, product, name) == Some(c) <==>
      exists i :: 0 <= i < |envs| && envs[i].product == product && envs[i].name == name && envs[i].cluster == c
                  && forall j :: i < j < |envs| ==> envs[j].product != product || envs[j].name != name
    decreases |envs|
  {
    if |envs| > 0 {
      CachedIsLast(envs[..|envs| - 1], product, name, c);
    }
  }

  // Errors come from a runtime that is not excluded and has no environment.
  lemma {:induction false} ErrorMeaning(xs: seq<Runtime>, envs: seq<Environment>, excluded: seq<Runtime>)
    ensures FirstError(xs, envs, excluded).Some? <==>
      exists x :: x in xs && !Excluded(x, excluded) && Resolve(envs, x).Err?
    decreases |xs|
  {
    if |xs| > 0 {
      var rest, last := xs[..|xs| - 1], xs[|xs| - 1];
      ErrorMeaning(rest, envs, excluded);
      assert xs == rest + [last];
    }
  }

  // Every runtime on the cluster contributes at least one namespace.
  lemma {:induction false} CollectedNonEmpty(xs: seq<Runtime>, envs: seq<Environment>, excluded: seq<Runtime>,
                                             c: string)
    ensures Collected(xs, envs, excluded, c) != [] <==> exists x :: x in xs && Uses(x, envs, excluded, c)
    decreases |xs|
  {
    if |xs| > 0 {
      var rest, last := xs[..|xs| - 1], xs[|xs| - 1];
      CollectedNonEmpty(rest, envs, excluded, c);
      assert xs == rest + [last];
    }
  }

  lemma {:induction false} UsageMapAt(xs: seq<Runtime>, envs: seq<Environment>, excluded: seq<Runtime>,
                                        inCluster: string, c: string)
    ensures var m := UsageMap(xs, envs, excluded, inCluster);
      && (c in m <==> Asked(inCluster, c) && Collected(xs, envs, excluded, c) != [])
      && (c in m ==> m[c] == Collected(xs, envs, excluded, c))
    decreases |xs|
  {
    if |xs| > 0 {
      UsageMapAt(xs[..|xs| - 1], envs, excluded, inCluster, c);
    }
  }

  /** The usage map is a scan of the runtimes: a cluster is listed iff a runtime that is
      not excluded is on it; its list is never empty, is the concatenation of what these
      runtimes use, and so holds exactly their namespaces. */
  lemma UsageIsScan(cl: Client, excluded: seq<Runtime>, inCluster: string, c: string, n: string)
    requires UsedNamespaces(cl, excluded, inCluster).Ok? && Asked(inCluster, c)
    ensures var m := UsedNamespaces(cl, excluded, inCluster).value;
      && (c in m <==> exists x :: x in AllRuntimes(cl) && Uses(x, cl.envs, excluded, c))
      && (c in m ==> m[c] != [] && m[c] == Collected(AllRuntimes(cl), cl.envs, excluded, c))
      && (c in m && n in m[c] <==>
            exists x :: x in AllRuntimes(cl) && Uses(x, cl.envs, excluded, c) && n in x.GetNamespaces())
  {
    UsageMapAt(AllRuntimes(cl), cl.envs, excluded, inCluster, c);
    CollectedNonEmpty(AllRuntimes(cl), cl.envs, excluded, c);
    CollectedMeaning(AllRuntimes(cl), cl.envs, excluded, c, n);
  }

  lemma {:induction false} RestrictedUsage(xs: seq<Runtime>, envs: seq<Environment>, excluded: seq<Runtime>, c: string)
    requires c != ""
    ensures var m := UsageMap(xs, envs, excluded, "");
      UsageMap(xs, envs, excluded, c) == if c in m then map[c := m[c]] else map[]
    decreases |xs|
  {
    if |xs| > 0 {
      RestrictedUsage(xs[..|xs| - 1], envs, excluded, c);
    }
  }

  /** Asking for one cluster gives the full answer restricted to it, errors included. */
  lemma FilterIsRestriction(cl: Client, excluded: seq<Runtime>, c: string)
    requires c != ""
    ensures UsedNamespaces(cl, excluded, c) ==
      match UsedNamespaces(cl, excluded, "")
      case Err(e) => Err(e)
      case Ok(m) => Ok(if c in m then map[c := m[c]] else map[])
  {
    RestrictedUsage(AllRuntimes(cl), cl.envs, excluded, c);
  }

  predicate UniqueEnvs(envs: seq<Environment>) {
    forall e, f :: e in envs && f in envs && e.namespace == f.namespace && e.name == f.name ==> e == f
  }

  /** When every environment lives in its product's namespace the cache agrees with
      GetEnvironment. */
  lemma {:induction false} CacheAgrees(envs: seq<Environment>, product: string, name: string)
    requires UniqueEnvs(envs) && forall e :: e in envs ==> e.namespace == e.product
    ensures CachedCluster(envs, product, name) ==
      match LookupEnv(envs, product, name) case None => None case Some(e) => Some(e.cluster)
    decreases |envs|
  {
    if |envs| > 0 {
      var rest, last := envs[..|envs| - 1], envs[|envs| - 1];
      assert envs == rest + [last];
      CacheAgrees(rest, product, name);
    }
  }

  /******* getUsedNamespacesInCluster *******/

  datatype ProductUsage = ProductUsage(product: string, namespaces: seq<string>)

  function ClusterOf(envs: seq<Environment>, d: DeploymentRuntime): Option<string> {
    match LookupEnv(envs, d.spec.product, d.spec.environment)
    case None => None
    case Some(e) => Some(e.cluster)
  }

  function MemoKey(product: string, environment: string): string {
    product + "|" + environment
  }

  function KeyOf(d: DeploymentRuntime): string {
    MemoKey(d.spec.product, d.spec.environment)
  }

  // The first runtime with the same key.
  function FirstLike(all: seq<DeploymentRuntime>, d: DeploymentRuntime): DeploymentRuntime {
    if |all| == 0 then d else if KeyOf(all[0]) == KeyOf(d) then all[0] else FirstLike(all[1..], d)
  }

  // The cluster the memo gives for the runtime: that of the first runtime with its key.
  function MemoCluster(all: seq<DeploymentRuntime>, envs: seq<Environment>, d: DeploymentRuntime): Option<string> {
    ClusterOf(envs, FirstLike(all, d))
  }

  predicate OnCluster(all: seq<DeploymentRuntime>, envs: seq<Environment>, d: DeploymentRuntime, cluster: string) {
    MemoCluster(all, envs, d) == Some(cluster)
  }

  function AddUsage(m: map<string, set<string>>, product: string, namespaces: seq<string>): map<string, set<string>> {
    m[product := (if product in m then m[product] else {}) + set n | n in namespaces]
  }

  // The usage by the runtimes `ds`, when the memo is built from `all`.
  function UsageByProduct(ds: seq<DeploymentRuntime>, all: seq<DeploymentRuntime>, envs: seq<Environment>,
                          cluster: string)
    : map<string, set<string>>
  {
    if |ds| == 0 then map[]
    else
      var d := ds[|ds| - 1];
      var m := UsageByProduct(ds[..|ds| - 1], all, envs, cluster);
      if OnCluster(all, envs, d, cluster) then AddUsage(m, d.spec.product, d.spec.namespaces) else m
  }

  /** One entry per product with a runtime on the cluster, holding the explicit namespaces
      of all of them. */
  lemma {:induction false} UsageByProductMeaning(ds: seq<DeploymentRuntime>, all: seq<DeploymentRuntime>,
                                                   envs: seq<Environment>, cluster: string, p: string, n: string)
    ensures var m := UsageByProduct(ds, all, envs, cluster);
      && (p in m <==> exists d :: d in ds && d.spec.product == p && OnCluster(all, envs, d, cluster))
      && (p in m && n in m[p] <==>
            exists d :: d in ds && d.spec.product == p && OnCluster(all, envs, d, cluster) && n in d.spec.namespaces)
    decreases |ds|
  {
    if |ds| > 0 {
      var rest, last := ds[..|ds| - 1], ds[|ds| - 1];
      UsageByProductMeaning(rest, all, envs, cluster, p, n);
      assert ds == rest + [last];
    }
  }

  // Every lookup of the listing succeeds.
  predicate AllFound(ds: seq<DeploymentRuntime>, envs: seq<Environment>) {
    forall d :: d in ds ==> MemoCluster(ds, envs, d).Some?
  }

  predicate AllResolve(ds: seq<DeploymentRuntime>, envs: seq<Environment>) {
    forall d :: d in ds ==> ClusterOf(envs, d).Some?
  }

  function Products(list: seq<ProductUsage>): set<string> {
    set u | u in list :: u.product
  }

  // One entry for each product, in any order, without duplicate namespaces.
  predicate ListsUsage(list: seq<ProductUsage>, usage: map<string, set<string>>) {
    && Products(list) == usage.Keys
    && (forall i, j :: 0 <= i < j < |list| ==> list[i].product != list[j].product)
    && (forall u :: u in list ==> u.product in usage && Enumerates(u.namespaces, usage[u.product]))
  }

  predicate Enumerates(list: seq<string>, s: set<string>) {
    && (forall i, j :: 0 <= i < j < |list| ==> list[i] != list[j])
    && (forall n :: n in list ==> n in s) && (forall n :: n in s ==> n in list)
  }

  method ListSet(s: set<string>) returns (list: seq<string>)
    ensures Enumerates(list, s)
  {
    list := [];
    var todo := s;
    while todo != {}
      invariant todo <= s && Enumerates(list, s - todo)
    {
      var n :| n in todo;
      list := list + [n];
      todo := todo - {n};
    }
  }

  lemma {:induction false} FirstLikeIsLike(all: seq<DeploymentRuntime>, d: DeploymentRuntime)
    requires d in all
    ensures FirstLike(all, d) in all && KeyOf(FirstLike(all, d)) == KeyOf(d)
  {
    if KeyOf(all[0]) != KeyOf(d) {
      FirstLikeIsLike(all[1..], d);
    }
  }

  lemma {:induction false} FirstIsItself(all: seq<DeploymentRuntime>, i: nat)
    requires i < |all| && forall k :: 0 <= k < i ==> KeyOf(all[k]) != KeyOf(all[i])
    ensures FirstLike(all, all[i]) == all[i]
  {
    if i > 0 {
      FirstIsItself(all[1..], i - 1);
    }
  }

  lemma {:induction false} SameFirstLike(all: seq<DeploymentRuntime>, d: DeploymentRuntime, x: DeploymentRuntime)
    requires KeyOf(d) == KeyOf(x) && d in all
    ensures FirstLike(all, d) == FirstLike(all, x)
  {
    if KeyOf(all[0]) != KeyOf(d) {
      SameFirstLike(all[1..], d, x);
    }
  }

  // The memo holds the keys looked up so far, with the clusters of their first runtimes.
  predicate MemoOf(memo: map<string, string>, ds: seq<DeploymentRuntime>, i: nat, envs: seq<Environment>)
    requires i <= |ds|
  {
    && (forall k :: 0 <= k < i ==> KeyOf(ds[k]) in memo)
    && (forall key :: key in memo ==> exists k :: 0 <= k < i && KeyOf(ds[k]) == key)
    && (forall d :: d in ds && KeyOf(d) in memo ==> MemoCluster(ds, envs, d) == Some(memo[KeyOf(d)]))
  }

  // The environment is fetched once for each key.
  method LookupMemo(memo: map<string, string>, envs: seq<Environment>, ds: seq<DeploymentRuntime>, i: nat)
    returns (c: Option<string>, memo': map<string, string>)
    requires i < |ds| && MemoOf(memo, ds, i, envs)
    ensures c == MemoCluster(ds, envs, ds[i])
    ensures c.Some? ==> MemoOf(memo', ds, i + 1, envs)
  {
    var d := ds[i];
    memo' := memo;
    if KeyOf(d) !in memo {
      FirstIsItself(ds, i);
      var env := LookupEnv(envs, d.spec.product, d.spec.environment);
      if env.None? {
        return None, memo';
      }
      memo' := memo[KeyOf(d) := env.value.cluster];
      forall x | x in ds && KeyOf(x) == KeyOf(d) ensures MemoCluster(ds, envs, x) == Some(env.value.cluster) {
        SameFirstLike(ds, x, d);
      }
    }
    return Some(memo'[KeyOf(d)]), memo';
  }

  method CountNamespaces(usage: map<string, set<string>>, product: string, namespaces: seq<string>)
    returns (r: map<string, set<string>>)
    ensures r == AddUsage(usage, product, namespaces)
  {
    r := usage;
    if product !in r {
      r := r[product := {}];
    }
    r := r[product := r[product] + set n | n in namespaces];
  }

  lemma UsageOneMore(ds: seq<DeploymentRuntime>, i: nat, envs: seq<Environment>, cluster: string)
    requires i < |ds|
    ensures UsageByProduct(ds[..i + 1], ds, envs, cluster) ==
      var m := UsageByProduct(ds[..i], ds, envs, cluster);
      if OnCluster(ds, envs, ds[i], cluster) then AddUsage(m, ds[i].spec.product, ds[i].spec.namespaces) else m
  {
    assert ds[..i + 1][..i] == ds[..i];
  }

  /** An error iff some lookup fails, else the usage of each product once, where a runtime
      counts for the cluster that the memo gives. */
  method GetUsedNamespacesInCluster(cl: Client, cluster: string) returns (r: Option<seq<ProductUsage>>)
    ensures r.Some? <==> AllFound(cl.deployments, cl.envs)
    ensures r.Some? ==> ListsUsage(r.value, UsageByProduct(cl.deployments, cl.deployments, cl.envs, cluster))
  {
    var ds := cl.deployments;
    var memo: map<string, string> := map[];
    var usage: map<string, set<string>> := map[];
    for i := 0 to |ds|
      invariant MemoOf(memo, ds, i, cl.envs)
      invariant forall k :: 0 <= k < i ==> MemoCluster(ds, cl.envs, ds[k]).Some?
      invariant usage == UsageByProduct(ds[..i], ds, cl.envs, cluster)
    {
      var d := ds[i];
      var found;
      found, memo := LookupMemo(memo, cl.envs, ds, i);
      if found.None? {
        assert d in ds;
        return None;
      }
      UsageOneMore(ds, i, cl.envs, cluster);
      if found.value != cluster {
        continue;
      }
      usage := CountNamespaces(usage, d.spec.product, d.spec.namespaces);
    }
    assert ds[..|ds|] == ds;
    var list := ListUsage(usage);
    return Some(list);
  }

  method ListUsage(usage: map<string, set<string>>) returns (list: seq<ProductUsage>)
    ensures ListsUsage(list, usage)
  {
    list := [];
    var todo := usage.Keys;
    while todo != {}
      invariant todo <= usage.Keys && Products(list) == usage.Keys - todo
      invariant forall i, j :: 0 <= i < j < |list| ==> list[i].product != list[j].product
      invariant forall u :: u in list ==> u.product in usage && Enumerates(u.namespaces, usage[u.product])
    {
      var p :| p in todo;
      var namespaces := ListSet(usage[p]);
      ProductsSnoc(list, ProductUsage(p, namespaces));
      list := list + [ProductUsage(p, namespaces)];
      todo := todo - {p};
    }
  }

  lemma ProductsSnoc(list: seq<ProductUsage>, u: ProductUsage)
    ensures Products(list + [u]) == Products(list) + {u.product}
    ensures forall v :: v in list ==> v.product in Products(list)
  {
    assert forall v :: v in list + [u] <==> v in list || v == u;
  }

  /******* When the memo changes nothing *******/

  // Every runtime gets the cluster that a lookup of its own would give.
  predicate MemoRight(ds: seq<DeploymentRuntime>, envs: seq<Environment>) {
    forall d :: d in ds ==> MemoCluster(ds, envs, d) == ClusterOf(envs, d)
  }

  /** The memo is right iff runtimes that share a key share a cluster. */
  lemma MemoRightExactly(ds: seq<DeploymentRuntime>, envs: seq<Environment>)
    ensures MemoRight(ds, envs) <==>
      forall x, y :: x in ds && y in ds && KeyOf(x) == KeyOf(y) ==> ClusterOf(envs, x) == ClusterOf(envs, y)
  {
    if MemoRight(ds, envs) {
      forall x, y | x in ds && y in ds && KeyOf(x) == KeyOf(y) ensures ClusterOf(envs, x) == ClusterOf(envs, y) {
        SameFirstLike(ds, x, y);
      }
    }
    forall d | d in ds ensures FirstLike(ds, d) in ds && KeyOf(FirstLike(ds, d)) == KeyOf(d) {
      FirstLikeIsLike(ds, d);
    }
  }

  // Environments as the API server stores them: object names and namespaces hold no bar.
  predicate NoBars(envs: seq<Environment>) {
    forall e :: e in envs ==> '|' !in e.namespace && '|' !in e.name
  }

  // A key that resolves holds one bar, so it names its product and environment, whatever
  // the runtimes hold.
  lemma MemoKeyInjective(envs: seq<Environment>, x: DeploymentRuntime, y: DeploymentRuntime)
    requires NoBars(envs) && ClusterOf(envs, x).Some?
    ensures KeyOf(x) == KeyOf(y) <==> x.spec.product == y.spec.product && x.spec.environment == y.spec.environment
  {
    if KeyOf(x) == KeyOf(y) {
      JoinOnce(x.spec.product, x.spec.environment, y.spec.product, y.spec.environment, '|');
    }
  }

  /** For stored environments the memo changes nothing: a lookup fails iff one of its own
      would, and without a failure every runtime gets its own cluster. */
  lemma MemoRightWithoutBars(ds: seq<DeploymentRuntime>, envs: seq<Environment>)
    requires NoBars(envs)
    ensures AllFound(ds, envs) <==> AllResolve(ds, envs)
    ensures AllFound(ds, envs) ==> MemoRight(ds, envs)
  {
    forall d | d in ds ensures FirstLike(ds, d) in ds && KeyOf(FirstLike(ds, d)) == KeyOf(d)
      && (MemoCluster(ds, envs, d).Some? ==> MemoCluster(ds, envs, d) == ClusterOf(envs, d))
    {
      FirstLikeIsLike(ds, d);
      if MemoCluster(ds, envs, d).Some? {
        MemoKeyInjective(envs, FirstLike(ds, d), d);
      }
    }
  }
}
