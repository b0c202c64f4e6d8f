/** A run of the product-ID reconciler that leaves a stale condition. */
module ProductScenarios {
  import opened Wrappers
  import opened ProductIds
  import opened ProductRuns

  const ONE_PRODUCT := Spec(map[], {"p"})
  const HEALTHY := World([Product("id", "p", false)], {}, {})
  const BROKEN := HEALTHY.(getFails := {"id"})
  const PINNED_STATUS := Status(map["p" := "id"], [])

  // The product is pinned, then cannot be read, then can be read again.
  function RecoveryRun(): seq<Event> {
    [Reconcile(ONE_PRODUCT, HEALTHY, Outcome(true, false), PINNED_STATUS, true),
     Reconcile(ONE_PRODUCT, BROKEN, Outcome(false, true), PINNED_STATUS, true),
     Reconcile(ONE_PRODUCT, HEALTHY, Outcome(false, false), PINNED_STATUS, true)]
  }

  lemma RecoveryLookups()
    ensures Referenced(ONE_PRODUCT) == {"p"} && UniqueIds(HEALTHY)
    ensures ProductByName(HEALTHY, "p") == Found("id")
    ensures CheckId(HEALTHY, "p", "id") == Match && CheckId(BROKEN, "p", "id") == CheckFailed
  {
    var x := Product("id", "p", false);
    var none: seq<Product> := [];
    assert HEALTHY.products[1..] == none && Named(none, "p") == [];
    assert Named(HEALTHY.products, "p") == [x];
  }

  lemma PinStep()
    ensures Updates(Referenced(ONE_PRODUCT), HEALTHY, CREATED.status, PINNED_STATUS, Outcome(true, false))
  {
    RecoveryLookups();
    assert Pinned(map[], {"p"}, HEALTHY) == map["p" := "id"];
    assert FreshWarnings(map[], {"p"}, HEALTHY) == map[];
    assert Same(map[], Stored([]));
  }

  lemma BrokenStep()
    ensures Updates(Referenced(ONE_PRODUCT), BROKEN, PINNED_STATUS, PINNED_STATUS, Outcome(false, true))
  {
    RecoveryLookups();
    assert Fails(PINNED_STATUS.ids, BROKEN, "p");
  }

  lemma HealthyStep()
    ensures Updates(Referenced(ONE_PRODUCT), HEALTHY, PINNED_STATUS, PINNED_STATUS, Outcome(false, false))
  {
    RecoveryLookups();
    assert Pinned(PINNED_STATUS.ids, {"p"}, HEALTHY) == PINNED_STATUS.ids;
    assert FreshWarnings(PINNED_STATUS.ids, {"p"}, HEALTHY) == map[];
    assert Same(map[], Stored([]));
  }

  /** Such a run from a new cluster: its last reconcile succeeds and is ready to write, and
      the condition stays False. */
  lemma RecoveryWitness()
    ensures var run := RecoveryRun();
      && IsRun(CREATED, run) && !run[2].outcome.failed && run[2].written
      && Final(CREATED, run).updated == Some(false)
  {
    var run := RecoveryRun();
    var s1 := ClusterObject(PINNED_STATUS, Some(true));
    var s2 := ClusterObject(PINNED_STATUS, Some(false));
    PinStep();
    BrokenStep();
    HealthyStep();
    assert After(CREATED, run[0]) == s1 && After(s1, run[1]) == s2 && After(s2, run[2]) == s2;
    assert run[1..][1..] == run[2..] && run[2..][1..] == [];
    assert IsRun(s2, run[2..]) && Final(s2, run[2..]) == s2;
    assert IsRun(s1, run[1..]) && Final(s1, run[1..]) == s2;
  }
}
