/** Several Sends of one topic before its first handler call. */
module QueueBursts {
  import opened WorkQueue
  import opened QueueGuarantees
  import opened QueueScenarios
  import opened NautesQueue

  // A further Send of a delayed topic; its delay merges with the one there is.
  function SendAndMerge(t: Topic, e: Entry, w: nat): seq<Step> {
    SendRun(t, e, w) + [Step(t, Merge, w)]
  }

  function MoreSends(t: Topic, es: seq<Entry>, w: nat): seq<Step> {
    if |es| == 0 then [] else SendAndMerge(t, es[0], w) + MoreSends(t, es[1..], w)
  }

  // One Send for each entry, all before the delay ends.
  function Burst(t: Topic, e: Entry, es: seq<Entry>, w: nat): seq<Step> {
    SendRun(t, e, w) + MoreSends(t, es, w)
  }

  // One delay is all that is pending, and `n` requeues are counted.
  predicate OneDelay(c: Config, s: State, t: Topic, w: nat, n: nat) {
    Delayed(c, s, t, w, n) && t !in s.wrote && t !in s.counted
  }

  lemma SendAndMergeRuns(c: Config, s: State, t: Topic, e: Entry, w: nat, n: nat)
    requires OneDelay(c, s, t, w, n)
    ensures Runnable(c, s, SendAndMerge(t, e, w))
    ensures var s' := Exec(c, s, SendAndMerge(t, e, w)); OneDelay(c, s', t, w, n + 1) && Calls(s', t) == Calls(s, t)
  {
    SendRunResult(c, s, t, e, w);
    OneMore(c, s, SendRun(t, e, w), Step(t, Merge, w));
  }

  lemma {:induction false} MoreSendsRun(c: Config, s: State, t: Topic, es: seq<Entry>, w: nat, n: nat)
    requires OneDelay(c, s, t, w, n)
    ensures Runnable(c, s, MoreSends(t, es, w))
    ensures var s' := Exec(c, s, MoreSends(t, es, w)); OneDelay(c, s', t, w, n + |es|) && Calls(s', t) == Calls(s, t)
    decreases |es|
  {
    if |es| > 0 {
      SendAndMergeRuns(c, s, t, es[0], w, n);
      var s1 := Exec(c, s, SendAndMerge(t, es[0], w));
      MoreSendsRun(c, s1, t, es[1..], w, n + 1);
      RunThen(c, s, SendAndMerge(t, es[0], w), MoreSends(t, es[1..], w));
    }
  }

  lemma BurstRuns(c: Config, s: State, t: Topic, e: Entry, es: seq<Entry>, w: nat)
    requires Inv(s) && Quiet(s, t) && t !in s.pool.processing && w < c.workers && w !in s.pool.busy
    ensures Runnable(c, s, Burst(t, e, es, w))
    ensures var s' := Exec(c, s, Burst(t, e, es, w));
      OneDelay(c, s', t, w, |es| + 1) && Calls(s', t) == Calls(s, t) && Inv(s')
  {
    QuietIsForgotten(s, t);
    SendRunResult(c, s, t, e, w);
    var s1 := Exec(c, s, SendRun(t, e, w));
    MoreSendsRun(c, s1, t, es, w, 1);
    RunThen(c, s, SendRun(t, e, w), MoreSends(t, es, w));
    InvRun(c, s, Burst(t, e, es, w));
  }

  lemma OneDelayLeft(c: Config, s: State, t: Topic, w: nat, n: nat)
    requires Inv(s) && OneDelay(c, s, t, w, n)
    ensures CallsLeft(c, ViewOf(s, t)) == Left(c, n) + 1
  {
    assert forall w :: w in s.pool.busy ==> s.pool.busy[w].topic != t;
    assert StageOf(s.pool, t).None?;
  }

  lemma OneDelayBound(c: Config, s: State, t: Topic, w: nat, n: nat, run: seq<Step>)
    requires Inv(s) && OneDelay(c, s, t, w, n) && Runnable(c, s, run) && NoNewSend(run, t)
    ensures Calls(Exec(c, s, run), t) <= Calls(s, t) + Left(c, n) + 1
  {
    OneDelayLeft(c, s, t, w, n);
    CallsBounded(c, s, run, t);
  }

  /** A burst leaves as many retries as its Sends have not used up: whatever follows it,
      without a new Send, calls the handler at most once more than that. */
  lemma BurstBounded(c: Config, s: State, t: Topic, e: Entry, es: seq<Entry>, w: nat, run: seq<Step>)
    requires Inv(s) && Quiet(s, t) && t !in s.pool.processing && w < c.workers && w !in s.pool.busy
    requires Runnable(c, s, Burst(t, e, es, w)) && Runnable(c, Exec(c, s, Burst(t, e, es, w)), run) && NoNewSend(run, t)
    ensures Calls(Exec(c, Exec(c, s, Burst(t, e, es, w)), run), t) <= Calls(s, t) + Left(c, |es| + 1) + 1
  {
    BurstRuns(c, s, t, e, es, w);
    var s1 := Exec(c, s, Burst(t, e, es, w));
    OneDelayBound(c, s1, t, w, |es| + 1, run);
  }

  /** And a handler that always fails is called exactly that often. With requeueTimes or
      more Sends in the burst there is one call and no retry. */
  lemma BurstTight(c: Config, s: State, t: Topic, e: Entry, es: seq<Entry>, w: nat)
    requires Inv(s) && Quiet(s, t) && t !in s.pool.processing && w < c.workers && w !in s.pool.busy
    ensures var run := Burst(t, e, es, w) + FailingCalls(c, t, w, |es| + 1);
      Runnable(c, s, run) && Calls(Exec(c, s, run), t) == Calls(s, t) + Left(c, |es| + 1) + 1
  {
    BurstRuns(c, s, t, e, es, w);
    var s1 := Exec(c, s, Burst(t, e, es, w));
    FailingCallsRun(c, s1, t, w, |es| + 1);
    RunThen(c, s, Burst(t, e, es, w), FailingCalls(c, t, w, |es| + 1));
  }
}
