/** Runs that show the bounds of the topic queue are reached. */
module QueueScenarios {
  import opened WorkQueue
  import opened QueueGuarantees

  // One failing handler call, from the end of the delay to the decision.
  function FailingCall(t: Topic, w: nat): seq<Step> {
    [Step(t, Expire, w), Step(t, Get, w), Step(t, Load, w), Step(t, Return(false), w)]
  }

  function RetryTail(t: Topic, w: nat): seq<Step> {
    [Step(t, CountRetry, w), Step(t, Requeue, w), Step(t, Done, w)]
  }

  function DropTail(t: Topic, w: nat): seq<Step> {
    [Step(t, Forget, w), Step(t, Done, w)]
  }

  // Calls the handler until the topic is dropped; `n` requeues are counted so far.
  function FailingCalls(c: Config, t: Topic, w: nat, n: nat): seq<Step>
    decreases Left(c, n)
  {
    FailingCall(t, w)
    + (if n < c.requeueTimes then RetryTail(t, w) + FailingCalls(c, t, w, n + 1) else DropTail(t, w))
  }

  function SendRun(t: Topic, e: Entry, w: nat): seq<Step> {
    [Step(t, Store(e), w), Step(t, Count, w), Step(t, Enqueue, w)]
  }

  predicate Delayed(c: Config, s: State, t: Topic, w: nat, n: nat) {
    && w < c.workers && w !in s.pool.busy && t !in s.pool.processing
    && s.waiting[t] == 1 && t !in s.dirty && t in s.store && Requeues(s, t) == n
  }

  // The state after the first step, from which the rest can be replaced.
  lemma FirstStep(c: Config, s: State, a: seq<Step>) returns (s': State)
    requires |a| > 0 && Runnable(c, s, a)
    ensures Enabled(c, s, a[0]) && s' == Next(c, s, a[0])
    ensures Runnable(c, s', a[1..]) && Exec(c, s, a) == Exec(c, s', a[1..])
  {
    s' := Next(c, s, a[0]);
  }

  lemma StepThen(c: Config, s: State, s': State, p: Step, rest: seq<Step>, all: seq<Step>)
    requires Enabled(c, s, p) && s' == Next(c, s, p) && Runnable(c, s', rest)
    requires |all| > 0 && all[0] == p && all[1..] == rest
    ensures Runnable(c, s, all) && Exec(c, s, all) == Exec(c, s', rest)
  {
  }

  lemma {:induction false} RunThen(c: Config, s: State, a: seq<Step>, b: seq<Step>)
    requires Runnable(c, s, a) && Runnable(c, Exec(c, s, a), b)
    ensures Runnable(c, s, a + b) && Exec(c, s, a + b) == Exec(c, Exec(c, s, a), b)
    decreases |a|
  {
    if |a| == 0 {
      assert a + b == b;
    } else {
      var s' := FirstStep(c, s, a);
      RunThen(c, s', a[1..], b);
      assert (a + b)[1..] == a[1..] + b;
      StepThen(c, s, s', a[0], a[1..] + b, a + b);
    }
  }

  lemma OneStep(c: Config, s: State, p: Step)
    requires Enabled(c, s, p)
    ensures Runnable(c, s, [p]) && Exec(c, s, [p]) == Next(c, s, p)
  {
    assert [p][1..] == [];
  }

  lemma {:induction false} OneMore(c: Config, s: State, run: seq<Step>, p: Step)
    requires Runnable(c, s, run) && Enabled(c, Exec(c, s, run), p)
    ensures Runnable(c, s, run + [p]) && Exec(c, s, run + [p]) == Next(c, Exec(c, s, run), p)
  {
    OneStep(c, Exec(c, s, run), p);
    RunThen(c, s, run, [p]);
  }

  // The worker holds the topic, and nothing else of it is pending.
  predicate HeldAlone(s: State, t: Topic, w: nat, stage: Stage, n: nat, calls: nat) {
    && Holds(s.pool, w, t, stage) && s.waiting[t] == 0 && t !in s.dirty && t in s.store
    && Requeues(s, t) == n && Calls(s, t) == calls
  }

  lemma PickUpRuns(c: Config, s: State, t: Topic, w: nat, n: nat)
    requires Delayed(c, s, t, w, n)
    ensures Runnable(c, s, [Step(t, Expire, w), Step(t, Get, w)])
    ensures HeldAlone(Exec(c, s, [Step(t, Expire, w), Step(t, Get, w)]), t, w, Got, n, Calls(s, t))
  {
    OneStep(c, s, Step(t, Expire, w));
    OneMore(c, s, [Step(t, Expire, w)], Step(t, Get, w));
    assert [Step(t, Expire, w)] + [Step(t, Get, w)] == [Step(t, Expire, w), Step(t, Get, w)];
  }

  lemma FailureRuns(c: Config, s: State, t: Topic, w: nat, n: nat, calls: nat)
    requires HeldAlone(s, t, w, Got, n, calls)
    ensures Runnable(c, s, [Step(t, Load, w), Step(t, Return(false), w)])
    ensures var s' := Exec(c, s, [Step(t, Load, w), Step(t, Return(false), w)]);
      HeldAlone(s', t, w, if n < c.requeueTimes then Retrying else Forgetting, n, calls + 1)
  {
    OneStep(c, s, Step(t, Load, w));
    OneMore(c, s, [Step(t, Load, w)], Step(t, Return(false), w));
    assert [Step(t, Load, w)] + [Step(t, Return(false), w)] == [Step(t, Load, w), Step(t, Return(false), w)];
  }

  lemma FailingCallRuns(c: Config, s: State, t: Topic, w: nat, n: nat)
    requires Delayed(c, s, t, w, n)
    ensures Runnable(c, s, FailingCall(t, w))
    ensures var s' := Exec(c, s, FailingCall(t, w));
      HeldAlone(s', t, w, if n < c.requeueTimes then Retrying else Forgetting, n, Calls(s, t) + 1)
  {
    var a, b := [Step(t, Expire, w), Step(t, Get, w)], [Step(t, Load, w), Step(t, Return(false), w)];
    PickUpRuns(c, s, t, w, n);
    FailureRuns(c, Exec(c, s, a), t, w, n, Calls(s, t));
    RunThen(c, s, a, b);
    assert a + b == FailingCall(t, w);
  }

  lemma RetryTailRuns(c: Config, s: State, t: Topic, w: nat)
    requires w < c.workers && Holds(s.pool, w, t, Retrying)
    requires s.waiting[t] == 0 && t !in s.dirty && t in s.store
    ensures Runnable(c, s, RetryTail(t, w))
    ensures Delayed(c, Exec(c, s, RetryTail(t, w)), t, w, Requeues(s, t) + 1)
    ensures Calls(Exec(c, s, RetryTail(t, w)), t) == Calls(s, t)
  {
    var r := RetryTail(t, w);
    OneStep(c, s, r[0]);
    OneMore(c, s, r[..1], r[1]);
    assert r[..1] + [r[1]] == r[..2];
    OneMore(c, s, r[..2], r[2]);
    assert r[..2] + [r[2]] == r;
  }

  lemma DropTailRuns(c: Config, s: State, t: Topic, w: nat)
    requires Holds(s.pool, w, t, Forgetting)
    ensures Runnable(c, s, DropTail(t, w))
    ensures Calls(Exec(c, s, DropTail(t, w)), t) == Calls(s, t)
  {
    var r := DropTail(t, w);
    OneStep(c, s, r[0]);
    OneMore(c, s, r[..1], r[1]);
    assert r[..1] + [r[1]] == r;
  }

  lemma {:induction false} FailingCallsRun(c: Config, s: State, t: Topic, w: nat, n: nat)
    requires Delayed(c, s, t, w, n)
    ensures Runnable(c, s, FailingCalls(c, t, w, n))
    ensures Calls(Exec(c, s, FailingCalls(c, t, w, n)), t) == Calls(s, t) + Left(c, n) + 1
    decreases Left(c, n)
  {
    FailingCallRuns(c, s, t, w, n);
    var s1 := Exec(c, s, FailingCall(t, w));
    if n < c.requeueTimes {
      RetryTailRuns(c, s1, t, w);
      var s2 := Exec(c, s1, RetryTail(t, w));
      FailingCallsRun(c, s2, t, w, n + 1);
      RunThen(c, s1, RetryTail(t, w), FailingCalls(c, t, w, n + 1));
      RunThen(c, s, FailingCall(t, w), RetryTail(t, w) + FailingCalls(c, t, w, n + 1));
    } else {
      DropTailRuns(c, s1, t, w);
      RunThen(c, s, FailingCall(t, w), DropTail(t, w));
    }
  }

  lemma SendRuns(c: Config, s: State, t: Topic, e: Entry, w: nat)
    requires w < c.workers && w !in s.pool.busy && t !in s.pool.processing && t !in s.dirty && t !in s.waiting
    ensures Runnable(c, s, SendRun(t, e, w))
    ensures Delayed(c, Exec(c, s, SendRun(t, e, w)), t, w, Requeues(s, t) + 1)
    ensures Calls(Exec(c, s, SendRun(t, e, w)), t) == Calls(s, t)
  {
    var r := SendRun(t, e, w);
    OneStep(c, s, r[0]);
    OneMore(c, s, r[..1], r[1]);
    assert r[..1] + [r[1]] == r[..2];
    OneMore(c, s, r[..2], r[2]);
    assert r[..2] + [r[2]] == r;
  }

  lemma SendThenFail(c: Config, s: State, sent: State, t: Topic, e: Entry, w: nat)
    requires Runnable(c, s, SendRun(t, e, w)) && sent == Exec(c, s, SendRun(t, e, w))
    requires Runnable(c, sent, FailingCalls(c, t, w, 1))
    ensures Runnable(c, s, SendRun(t, e, w) + FailingCalls(c, t, w, 1))
    ensures Exec(c, s, SendRun(t, e, w) + FailingCalls(c, t, w, 1)) == Exec(c, sent, FailingCalls(c, t, w, 1))
  {
    RunThen(c, s, SendRun(t, e, w), FailingCalls(c, t, w, 1));
  }

  /** The bound of `SingleSend` is reached: a handler that always fails is called
      exactly max(1, requeueTimes) times for one Send. With the default limit of 5 that
      is one call and four retries, one less than the comment in handleErr announces. */
  lemma SingleSendTight(c: Config, s: State, t: Topic, e: Entry, w: nat)
    requires Inv(s) && Quiet(s, t) && t !in s.pool.processing && w < c.workers && w !in s.pool.busy
    ensures Runnable(c, s, SendRun(t, e, w) + FailingCalls(c, t, w, 1))
    ensures Calls(Exec(c, s, SendRun(t, e, w) + FailingCalls(c, t, w, 1)), t) == Calls(s, t) + Max(1, c.requeueTimes)
  {
    QuietIsForgotten(s, t);
    SendRuns(c, s, t, e, w);
    var sent := Exec(c, s, SendRun(t, e, w));
    FailingCallsRun(c, sent, t, w, 1);
    SendThenFail(c, s, sent, t, e, w);
  }

  /** With the default limit that is five calls for one Send, and never more. */
  lemma DefaultCalls(workers: nat, s: State, t: Topic, e: Entry, w: nat, run: seq<Step>)
    requires Inv(s) && Quiet(s, t) && t !in s.pool.processing && w < workers && w !in s.pool.busy
    requires var c := Config(workers, DEFAULT_REQUEUE_TIMES); Runnable(c, s, [Step(t, Store(e), w)] + run)
    requires NoNewSend(run, t)
    ensures var c := Config(workers, DEFAULT_REQUEUE_TIMES);
      && Calls(Exec(c, s, [Step(t, Store(e), w)] + run), t) <= Calls(s, t) + 5
      && Runnable(c, s, SendRun(t, e, w) + FailingCalls(c, t, w, 1))
      && Calls(Exec(c, s, SendRun(t, e, w) + FailingCalls(c, t, w, 1)), t) == Calls(s, t) + 5
  {
    var c := Config(workers, DEFAULT_REQUEUE_TIMES);
    SingleSend(c, s, Step(t, Store(e), w), run);
    SingleSendTight(c, s, t, e, w);
  }
}
