/** Properties of the product-ID reconciler over whole runs. */
module ProductRuns {
  import opened Wrappers
  import opened ProductIds

  /******* The stored warnings, read back *******/

  lemma {:induction false} StoredHas(ws: seq<Warning>, w: Warning)
    requires w in ws && w.origin == BaseOperator
    ensures w.id in Stored(ws)
    decreases |ws|
  {
    var rest := ws[..|ws| - 1];
    assert ws == rest + [ws[|ws| - 1]];
    if w in rest { StoredHas(rest, w); }
  }

  lemma {:induction false} StoredFrom(ws: seq<Warning>, p: string) returns (w: Warning)
    requires p in Stored(ws)
    ensures w in ws && w.origin == BaseOperator && w.id == p
    ensures Stored(ws)[p] == WarningProduct(p, w.typ, None)
    decreases |ws|
  {
    w := ws[|ws| - 1];
    var rest := ws[..|ws| - 1];
    assert ws == rest + [w];
    if w.origin != BaseOperator || w.id != p { w := StoredFrom(rest, p); }
  }

  lemma {:induction false} OthersAreOthers(ws: seq<Warning>)
    ensures forall w :: w in FromOthers(ws) ==> w in ws && w.origin != BaseOperator
    decreases |ws|
  {
    if |ws| > 0 {
      OthersAreOthers(ws[..|ws| - 1]);
    }
  }

  // Appending warnings of the base operator leaves those of others alone.
  lemma {:induction false} OthersOf(ws: seq<Warning>, list: seq<Warning>)
    requires forall w :: w in list ==> w.origin == BaseOperator
    ensures FromOthers(FromOthers(ws) + list) == FromOthers(ws)
    decreases |ws| + |list|
  {
    var all := FromOthers(ws) + list;
    if |list| > 0 {
      assert all[..|all| - 1] == FromOthers(ws) + list[..|list| - 1];
      OthersOf(ws, list[..|list| - 1]);
    } else if |ws| > 0 {
      var rest := ws[..|ws| - 1];
      OthersOf(rest, []);
      assert FromOthers(rest) + [] == FromOthers(rest);
      assert all == FromOthers(ws);
      if ws[|ws| - 1].origin != BaseOperator {
        assert all[..|all| - 1] == FromOthers(rest);
      }
    }
  }

  lemma SubsetOfEqualSize<T>(a: set<T>, b: set<T>)
    requires a <= b && |a| == |b|
    ensures a == b
  {
    assert |b - a| == |b| - |a|;
  }

  lemma SameKeys(a: Warnings, b: Warnings)
    ensures Same(a, b) ==> a.Keys == b.Keys
  {
    if Same(a, b) { SubsetOfEqualSize(a.Keys, b.Keys); }
  }

  // Equal keys and types are what the comparison looks at.
  lemma SameFrom(a: Warnings, b: Warnings)
    requires a.Keys == b.Keys
    requires forall p :: p in a ==> a[p].name == b[p].name && a[p].typ == b[p].typ
    ensures Same(a, b)
  {
    assert |a| == |a.Keys| && |b| == |b.Keys|;
  }

  lemma ListedIsSame(others: seq<Warning>, list: seq<Warning>, expected: Warnings)
    requires Lists(list, expected) && forall p :: p in expected ==> expected[p].name == p
    requires forall w :: w in others ==> w.origin != BaseOperator
    ensures Same(expected, Stored(others + list))
  {
    var stored := Stored(others + list);
    forall p | p in expected
      ensures p in stored && stored[p] == WarningProduct(p, expected[p].typ, None)
    {
      StoredHas(others + list, AsWarning(expected[p]));
      var w := StoredFrom(others + list, p);
    }
    forall p | p in stored ensures p in expected {
      var w := StoredFrom(others + list, p);
    }
    SameFrom(expected, stored);
  }

  lemma FreshNames(ids: map<string, string>, products: set<string>, w: World)
    ensures forall p :: p in FreshWarnings(ids, products, w) ==> FreshWarnings(ids, products, w)[p].name == p
  {
  }

  /******* One run *******/

  /** Whatever the iteration order, a run leaves the warnings of other operators in
      place and in order. */
  lemma OthersKept(products: set<string>, w: World, s: Status, s': Status, o: Outcome)
    requires Updates(products, w, s, s', o)
    ensures FromOthers(s'.warnings) == FromOthers(s.warnings)
  {
    var expected := FreshWarnings(s.ids, products, w);
    if !o.failed && !Same(expected, Stored(s.warnings)) {
      var list :| Lists(list, expected) && s'.warnings == FromOthers(s.warnings) + list;
      OthersOf(s.warnings, list);
    }
  }

  /** Two runs from one status agree on success, and when they succeed on the map, on
      the report of a change, and on the set of warnings. */
  lemma OrderIrrelevant(products: set<string>, w: World, s: Status, s1: Status, o1: Outcome, s2: Status, o2: Outcome)
    requires Updates(products, w, s, s1, o1) && Updates(products, w, s, s2, o2)
    ensures o1.failed == o2.failed
    ensures !o1.failed ==> s1.ids == s2.ids && o1.changed == o2.changed
    ensures !o1.failed ==> forall x :: x in s1.warnings <==> x in s2.warnings
  {
    var expected := FreshWarnings(s.ids, products, w);
    if !o1.failed && !Same(expected, Stored(s.warnings)) {
      var l1 :| Lists(l1, expected) && s1.warnings == FromOthers(s.warnings) + l1;
      var l2 :| Lists(l2, expected) && s2.warnings == FromOthers(s.warnings) + l2;
      assert forall x :: x in l1 <==> x in l2;
    }
  }

  /******* Fixed point *******/

  lemma {:induction false} NamedFrom(products: seq<Product>, name: string)
    ensures forall x :: x in Named(products, name) ==> x in products && x.name == name
  {
    if |products| > 0 { NamedFrom(products[1..], name); }
  }

  lemma {:induction false} IdGivesName(products: seq<Product>, x: Product)
    requires forall i, j :: 0 <= i < j < |products| ==> products[i].id != products[j].id
    requires x in products
    ensures NameOfId(products, x.id) == Some(x.name)
  {
    if products[0] != x { IdGivesName(products[1..], x); }
  }

  lemma FoundMatches(w: World, name: string, w2: World)
    requires UniqueIds(w) && w2.products == w.products && ProductByName(w, name).Found?
    ensures CheckId(w2, name, ProductByName(w, name).id) in {Match, CheckFailed}
  {
    var x := Named(w.products, name)[0];
    NamedFrom(w.products, name);
    IdGivesName(w.products, x);
  }

  lemma FreshAgain(products: set<string>, w: World, ids: map<string, string>, w2: World)
    requires UniqueIds(w) && w2.products == w.products
    requires forall p :: p in products ==> !Fails(ids, w, p)
    requires forall p :: p in products ==> !Fails(Pinned(ids, products, w), w2, p)
    ensures FreshWarnings(Pinned(ids, products, w), products, w2) == FreshWarnings(ids, products, w)
  {
    var ids2 := Pinned(ids, products, w);
    forall p | p in products ensures WarningFor(ids2, w2, p) == WarningFor(ids, w, p) {
      if p !in ids && ProductByName(w, p).Found? {
        FoundMatches(w, p, w2);
      }
    }
  }

  // The stored warnings compare equal to those that were just listed or kept.
  lemma StoredMatches(products: set<string>, w: World, s: Status, s1: Status, o: Outcome)
    requires Updates(products, w, s, s1, o) && !o.failed
    ensures Same(FreshWarnings(s.ids, products, w), Stored(s1.warnings))
  {
    var expected := FreshWarnings(s.ids, products, w);
    if !Same(expected, Stored(s.warnings)) {
      var list :| Lists(list, expected) && s1.warnings == FromOthers(s.warnings) + list;
      FreshNames(s.ids, products, w);
      OthersAreOthers(s.warnings);
      ListedIsSame(FromOthers(s.warnings), list, expected);
    }
  }

  // After a success there is no product left for a failing run to add.
  lemma FailedAgain(products: set<string>, w: World, ids: map<string, string>, w2: World, s1: Status, s2: Status,
                    o2: Outcome)
    requires w2.products == w.products && s1.ids == Pinned(ids, products, w)
    requires forall p :: p in products ==> !Fails(ids, w, p)
    requires Updates(products, w2, s1, s2, o2) && o2.failed
    ensures s2 == s1 && !o2.changed
  {
    forall p | p in products && p !in s1.ids ensures !ProductByName(w2, p).Found? {
      assert ProductByName(w, p).NotFound?;
    }
    assert s2.ids == s1.ids;
  }

  lemma PinnedAgain(products: set<string>, w: World, ids: map<string, string>, w2: World)
    requires w2.products == w.products
    requires forall p :: p in products ==> !Fails(ids, w, p)
    requires forall p :: p in products ==> !Fails(Pinned(ids, products, w), w2, p)
    ensures Pinned(Pinned(ids, products, w), products, w2) == Pinned(ids, products, w)
  {
    var ids2 := Pinned(ids, products, w);
    forall p | p in products ensures Known(ids2, w2, p) <==> p in ids2 {
      if !Known(ids, w, p) {
        assert ProductByName(w, p).NotFound?;
      }
    }
  }

  lemma SucceededAgain(products: set<string>, w: World, s: Status, s1: Status, o1: Outcome, w2: World, s2: Status,
                       o2: Outcome)
    requires UniqueIds(w) && w2.products == w.products
    requires Updates(products, w, s, s1, o1) && !o1.failed
    requires Updates(products, w2, s1, s2, o2) && !o2.failed
    ensures s2 == s1 && !o2.changed
  {
    FreshAgain(products, w, s.ids, w2);
    PinnedAgain(products, w, s.ids, w2);
    StoredMatches(products, w, s, s1, o1);
  }

  lemma NoFailureAgain(products: set<string>, w: World, ids: map<string, string>, w2: World)
    requires w2.products == w.products && w2.listFails == {} && w2.getFails == {}
    requires forall p :: p in products ==> !Fails(ids, w, p)
    ensures forall p :: p in products ==> !Fails(Pinned(ids, products, w), w2, p)
  {
    forall p | p in products ensures !Fails(Pinned(ids, products, w), w2, p) {
      if !Known(ids, w, p) {
        assert ProductByName(w, p).NotFound?;
      }
    }
  }

  /** After a successful run a second one, on the same spec and products, changes
      nothing and says so; if no API call fails it succeeds too. The first status is
      arbitrary, and so are both iteration orders. */
  lemma FixedPoint(products: set<string>, w: World, s: Status, s1: Status, o1: Outcome, w2: World, s2: Status,
                   o2: Outcome)
    requires UniqueIds(w) && w2.products == w.products
    requires Updates(products, w, s, s1, o1) && !o1.failed
    requires Updates(products, w2, s1, s2, o2)
    ensures s2 == s1 && !o2.changed
    ensures w2.listFails == {} && w2.getFails == {} ==> !o2.failed
  {
    if o2.failed {
      FailedAgain(products, w, s.ids, w2, s1, s2, o2);
      if w2.listFails == {} && w2.getFails == {} {
        NoFailureAgain(products, w, s.ids, w2);
      }
    } else {
      SucceededAgain(products, w, s, s1, o1, w2, s2, o2);
    }
  }

  /******* Whole runs *******/

  /** The stored object: its status, and the ProductInfoUpdated condition. */
  datatype ClusterObject = ClusterObject(status: Status, updated: Option<bool>)

  /** Reconcile computed `result`; `written` tells whether the API server took the
      write. `Other` is another operator rewriting its own warnings. */
  datatype Event =
    | Reconcile(spec: Spec, world: World, outcome: Outcome, result: Status, written: bool)
    | Other(warnings: seq<Warning>)

  ghost predicate Possible(s: ClusterObject, e: Event) {
    match e
    case Reconcile(spec, w, o, result, _) => Updates(Referenced(spec), w, s.status, result, o)
    case Other(ws) => forall x: Warning :: x.origin == BaseOperator ==> (x in ws <==> x in s.status.warnings)
  }

  // Status is written only if the run failed or reports a change.
  function After(s: ClusterObject, e: Event): ClusterObject {
    match e
    case Reconcile(_, _, o, result, written) =>
      if (o.failed || o.changed) && written then ClusterObject(result, Some(!o.failed)) else s
    case Other(ws) => s.(status := s.status.(warnings := ws))
  }

  ghost predicate IsRun(s: ClusterObject, run: seq<Event>)
    decreases |run|
  {
    |run| == 0 || (Possible(s, run[0]) && IsRun(After(s, run[0]), run[1..]))
  }

  function Final(s: ClusterObject, run: seq<Event>): ClusterObject
    decreases |run|
  {
    if |run| == 0 then s else Final(After(s, run[0]), run[1..])
  }

  const CREATED := ClusterObject(Status(map[], []), None)

  // The base operator's warning is right about the ID that is pinned.
  predicate Truthful(s: Status, x: Warning) {
    || (x.typ == ProductNotFound && x.message == NotFoundMessage(x.id))
    || (x.typ == ProductNotMatch && x.id in s.ids && x.message == NotMatchMessage(x.id, s.ids[x.id]))
  }

  ghost predicate Sound(s: Status) {
    && (forall x :: x in s.warnings && x.origin == BaseOperator ==> Truthful(s, x))
    && (forall x, y :: x in s.warnings && y in s.warnings && x.origin == y.origin == BaseOperator && x.id == y.id ==>
          x == y)
  }

  // Warnings that compare equal to the expected ones carry the same messages.
  lemma KeptWarningsExact(products: set<string>, w: World, s: Status, x: Warning)
    requires Sound(s) && x.origin == BaseOperator
    requires Same(FreshWarnings(s.ids, products, w), Stored(s.warnings))
    ensures x in s.warnings <==>
      x.id in FreshWarnings(s.ids, products, w) && x == AsWarning(FreshWarnings(s.ids, products, w)[x.id])
  {
    var expected := FreshWarnings(s.ids, products, w);
    SameKeys(expected, Stored(s.warnings));
    if x in s.warnings {
      StoredHas(s.warnings, x);
    }
    if x.id in expected {
      var y := StoredFrom(s.warnings, x.id);
      assert Truthful(s, y);
      assert y == AsWarning(expected[x.id]);
    }
  }

  /** The comparison that ignores messages misses nothing: after a successful run the
      base operator's warnings are exactly the expected ones, messages included. */
  lemma WarningsExact(products: set<string>, w: World, s: Status, s': Status, o: Outcome, x: Warning)
    requires Sound(s) && Updates(products, w, s, s', o) && !o.failed && x.origin == BaseOperator
    ensures x in s'.warnings <==>
      x.id in FreshWarnings(s.ids, products, w) && x == AsWarning(FreshWarnings(s.ids, products, w)[x.id])
  {
    var expected := FreshWarnings(s.ids, products, w);
    if Same(expected, Stored(s.warnings)) {
      KeptWarningsExact(products, w, s, x);
    } else {
      var list :| Lists(list, expected) && s'.warnings == FromOthers(s.warnings) + list;
      OthersAreOthers(s.warnings);
    }
  }

  lemma SoundUpdate(products: set<string>, w: World, s: Status, s': Status, o: Outcome)
    requires Sound(s) && Updates(products, w, s, s', o)
    ensures Sound(s')
  {
    if !o.failed {
      var expected := FreshWarnings(s.ids, products, w);
      forall x | x in s'.warnings && x.origin == BaseOperator
        ensures Truthful(s', x) && x.id in expected && x == AsWarning(expected[x.id])
      {
        WarningsExact(products, w, s, s', o, x);
      }
    }
  }

  lemma {:induction false} SoundRun(s: ClusterObject, run: seq<Event>)
    requires Sound(s.status) && IsRun(s, run)
    ensures Sound(Final(s, run).status)
    decreases |run|
  {
    if |run| > 0 {
      if run[0].Reconcile? {
        SoundUpdate(Referenced(run[0].spec), run[0].world, s.status, run[0].result, run[0].outcome);
      }
      SoundRun(After(s, run[0]), run[1..]);
    }
  }

  // A new cluster's status can become this one.
  ghost predicate Reachable(s: Status) {
    exists run: seq<Event> :: Reaches(run, s)
  }

  ghost predicate Reaches(run: seq<Event>, s: Status) {
    IsRun(CREATED, run) && Final(CREATED, run).status == s
  }

  /** No stale warning: in every reachable status, failed runs and lost writes included,
      a ProductNotMatch warning is about a pinned product and names the pinned ID. */
  lemma NoStaleWarning(s: Status, x: Warning)
    requires Reachable(s) && x in s.warnings && x.origin == BaseOperator && x.typ == ProductNotMatch
    ensures x.id in s.ids && x.message == NotMatchMessage(x.id, s.ids[x.id])
  {
    var run: seq<Event> :| Reaches(run, s);
    SoundRun(CREATED, run);
  }

  /** A pinned ID stays as long as its name stays referenced. */
  lemma {:induction false} PinnedForever(s: ClusterObject, run: seq<Event>, p: string)
    requires IsRun(s, run) && p in s.status.ids
    requires forall i :: 0 <= i < |run| && run[i].Reconcile? ==> p in Referenced(run[i].spec)
    ensures p in Final(s, run).status.ids && Final(s, run).status.ids[p] == s.status.ids[p]
    decreases |run|
  {
    if |run| > 0 {
      PinnedForever(After(s, run[0]), run[1..], p);
    }
  }

  /******* Two properties the code meets only in part *******/

  /** getProductByName answers as meant exactly when its test of the first listed item
      speaks for the others: a first item that is being deleted hides no live one, and
      behind a live first item there is nothing or another live one. */
  lemma LookupAsMeant(w: World, name: string)
    ensures ProductByName(w, name) == LiveProductByName(w, name) <==>
      var items := Named(w.products, name);
      || name in w.listFails || |items| == 0
      || (items[0].deleting && Alive(items) == [])
      || (!items[0].deleting && (|items| == 1 || |Alive(items)| >= 2))
  {
    var items := Named(w.products, name);
    if |items| > 0 {
      assert items == [items[0]] + items[1..];
      AliveOfLive(items[1..]);
      if !items[0].deleting && |items| == 1 {
        assert items[1..] == [];
      }
    }
  }

  lemma {:induction false} AliveOfLive(items: seq<Product>)
    ensures |Alive(items)| <= |items|
    ensures forall x :: x in Alive(items) ==> x in items && !x.deleting
  {
    if |items| > 0 { AliveOfLive(items[1..]); }
  }

  /** A product being deleted, listed first, hides the live product of that name. */
  lemma DeletingItemHidesLiveOne()
    ensures var w := World([Product("old", "p", true), Product("new", "p", false)], {}, {});
      ProductByName(w, "p") == NotFound && LiveProductByName(w, "p") == Found("new")
  {
    var all := [Product("old", "p", true), Product("new", "p", false)];
    assert all[1..] == [all[1]] && all[1..][1..] == [];
    assert Named(all, "p") == all;
    assert Alive(all) == [all[1]];
  }

  // A run on this spec and this world fails, or has something to change in the status.
  ghost predicate HasNews(s: Status, spec: Spec, w: World) {
    var products := Referenced(spec);
    || (exists p :: p in products && Fails(s.ids, w, p))
    || Pinned(s.ids, products, w) != s.ids
    || !Same(FreshWarnings(s.ids, products, w), Stored(s.warnings))
  }

  /** The stored condition tells the result of a run iff it said True before, or a
      referenced product fails, or the map or the warnings are not up to date: a run that
      succeeds without a change is not written. */
  lemma ConditionReported(s: ClusterObject, e: Event)
    requires Possible(s, e) && e.Reconcile? && e.written
    ensures After(s, e).updated == Some(!e.outcome.failed) <==>
      s.updated == Some(true) || HasNews(s.status, e.spec, e.world)
  {
    assert (e.outcome.failed || e.outcome.changed) == HasNews(s.status, e.spec, e.world);
  }

  /** So a failure outlives its cause: a success, a failing run and a success again, on
      one spec and the same products, leave the condition at False. */
  lemma RecoveryNotReported(s: ClusterObject, e0: Event, e1: Event, e2: Event)
    requires e0.Reconcile? && e1.Reconcile? && e2.Reconcile?
    requires e0.spec == e1.spec == e2.spec && UniqueIds(e0.world)
    requires e0.world.products == e1.world.products == e2.world.products
    requires Possible(s, e0) && Possible(After(s, e0), e1) && Possible(After(After(s, e0), e1), e2)
    requires e0.written && e1.written
    requires !e0.outcome.failed && e1.outcome.failed && !e2.outcome.failed
    ensures After(After(After(s, e0), e1), e2).updated == Some(false)
  {
    var products := Referenced(e0.spec);
    FixedPoint(products, e0.world, s.status, e0.result, e0.outcome, e1.world, e1.result, e1.outcome);
    FixedPoint(products, e0.world, s.status, e0.result, e0.outcome, e2.world, e2.result, e2.outcome);
  }
}
