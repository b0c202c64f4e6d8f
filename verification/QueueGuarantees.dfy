/** What the topic queue promises over every interleaving of Sends and workers. */
module QueueGuarantees {
  import opened Wrappers
  import opened WorkQueue

  // Retries the configuration allows; a negative limit allows none.
  function Limit(c: Config): nat {
    if c.requeueTimes < 0 then 0 else c.requeueTimes
  }

  function One(b: bool): nat {
    if b then 1 else 0
  }

  /** Adds of the topic that may still lead to a handler call: Sends in flight,
      delays, the dirty mark, and a worker that has not decided to forget it. */
  function Tokens(v: View): nat {
    v.wrote + v.counted + v.waiting + One(v.dirty) + One(Active(v) && v.stage != Some(Forgetting))
  }

  // The retry counter as the next failure will see it.
  function EffectiveRequeues(v: View): nat {
    if v.stage == Some(Forgetting) then 0 else v.requeues + One(v.stage == Some(Retrying))
  }

  function Left(c: Config, requeues: nat): nat {
    if requeues < Limit(c) then Limit(c) - requeues else 0
  }

  function CallBound(c: Config, tokens: nat, requeues: nat): nat {
    if tokens == 0 then 0 else (tokens - 1) * (Limit(c) + 1) + Left(c, requeues) + 1
  }

  function BoundOf(c: Config, v: View): nat {
    CallBound(c, Tokens(v), EffectiveRequeues(v))
  }

  // An upper bound on the handler calls of the topic that are still to start.
  function CallsLeft(c: Config, v: View): nat {
    var b := BoundOf(c, v);
    if v.stage == Some(Handling) && b > 0 then b - 1 else b
  }

  lemma TokenGone(c: Config, tokens: nat, requeues: nat)
    requires tokens > 0
    ensures CallBound(c, tokens - 1, requeues) <= CallBound(c, tokens, requeues)
    ensures CallBound(c, tokens - 1, 0) < CallBound(c, tokens, requeues)
  {
    if tokens > 1 {
      assert (tokens - 1) * (Limit(c) + 1) == (tokens - 2) * (Limit(c) + 1) + Limit(c) + 1;
    }
  }

  // No step but a Send raises the bound, and the end of a handler call lowers it.
  lemma BoundStep(c: Config, v: View, a: Action)
    requires ViewInv(v) && ViewEnabled(v, a) && !a.Store?
    ensures BoundOf(c, ViewNext(c, v, a)) <= BoundOf(c, v)
    ensures a.Return? ==> BoundOf(c, ViewNext(c, v, a)) < BoundOf(c, v)
  {
    if Tokens(v) > 0 {
      TokenGone(c, Tokens(v), EffectiveRequeues(v));
    }
  }

  lemma CallsLeftStep(c: Config, v: View, a: Action)
    requires ViewInv(v) && ViewEnabled(v, a) && !a.Store?
    ensures ViewNext(c, v, a).calls + CallsLeft(c, ViewNext(c, v, a)) <= v.calls + CallsLeft(c, v)
  {
    BoundStep(c, v, a);
  }

  /** Each handler call uses up one of the calls the bound allows: without a new Send
      the topic is handled at most `CallsLeft` more times, whatever the interleaving. */
  lemma {:induction false} CallsBounded(c: Config, s: State, run: seq<Step>, t: Topic)
    requires Inv(s) && Runnable(c, s, run) && NoNewSend(run, t)
    ensures Calls(Exec(c, s, run), t) + CallsLeft(c, ViewOf(Exec(c, s, run), t))
      <= Calls(s, t) + CallsLeft(c, ViewOf(s, t))
    decreases |run|
  {
    if |run| > 0 {
      var s' := Next(c, s, run[0]);
      InvStep(c, s, run[0]);
      if run[0].topic == t {
        StepOwnView(c, s, run[0]);
        CallsLeftStep(c, ViewOf(s, t), run[0].action);
      } else {
        StepOtherView(c, s, run[0], t);
      }
      CallsBounded(c, s', run[1..], t);
    }
  }

  function SendsOf(run: seq<Step>, t: Topic): nat {
    if |run| == 0 then 0 else One(run[0].topic == t && run[0].action.Store?) + SendsOf(run[1..], t)
  }

  // The calls that the new Sends of a run may add.
  function Allowance(c: Config, run: seq<Step>, t: Topic): nat {
    if |run| == 0 then 0 else RoundOf(c, run[0], t) + Allowance(c, run[1..], t)
  }

  function RoundOf(c: Config, p: Step, t: Topic): nat {
    if p.topic == t && p.action.Store? then Limit(c) + 1 else 0
  }

  lemma {:induction false} AllowanceIsRounds(c: Config, run: seq<Step>, t: Topic)
    ensures Allowance(c, run, t) == SendsOf(run, t) * (Limit(c) + 1)
  {
    if |run| > 0 {
      AllowanceIsRounds(c, run[1..], t);
      var rest := SendsOf(run[1..], t);
      assert (rest + 1) * (Limit(c) + 1) == rest * (Limit(c) + 1) + Limit(c) + 1;
    }
  }

  lemma SendAddsRound(c: Config, v: View, e: Entry)
    requires ViewInv(v)
    ensures var v' := ViewNext(c, v, Store(e));
      v'.calls + CallsLeft(c, v') <= v.calls + CallsLeft(c, v) + Limit(c) + 1
  {
    assert Tokens(ViewNext(c, v, Store(e))) == Tokens(v) + 1;
    if Tokens(v) > 0 {
      assert Tokens(v) * (Limit(c) + 1) == (Tokens(v) - 1) * (Limit(c) + 1) + Limit(c) + 1;
    }
  }

  lemma StepBound(c: Config, s: State, s': State, p: Step, t: Topic)
    requires Inv(s) && Enabled(c, s, p) && s' == Next(c, s, p)
    ensures Calls(s', t) + CallsLeft(c, ViewOf(s', t)) <= Calls(s, t) + CallsLeft(c, ViewOf(s, t)) + RoundOf(c, p, t)
  {
    if p.topic != t {
      StepOtherView(c, s, p, t);
    } else {
      StepOwnView(c, s, p);
      if p.action.Store? {
        SendAddsRound(c, ViewOf(s, t), p.action.entry);
      } else {
        CallsLeftStep(c, ViewOf(s, t), p.action);
      }
    }
  }

  lemma {:induction false} CallsBoundedByAllowance(c: Config, s: State, run: seq<Step>, t: Topic)
    requires Inv(s) && Runnable(c, s, run)
    ensures Calls(Exec(c, s, run), t) + CallsLeft(c, ViewOf(Exec(c, s, run), t))
      <= Calls(s, t) + CallsLeft(c, ViewOf(s, t)) + Allowance(c, run, t)
    decreases |run|
  {
    if |run| > 0 {
      var s' := Next(c, s, run[0]);
      InvStep(c, s, run[0]);
      StepBound(c, s, s', run[0], t);
      CallsBoundedByAllowance(c, s', run[1..], t);
    }
  }

  /** With any number of new Sends, in any interleaving, each adds at most one call and the
      retries that the limit allows. */
  lemma CallsBoundedBySends(c: Config, s: State, run: seq<Step>, t: Topic)
    requires Inv(s) && Runnable(c, s, run)
    ensures Calls(Exec(c, s, run), t) + CallsLeft(c, ViewOf(Exec(c, s, run), t))
      <= Calls(s, t) + CallsLeft(c, ViewOf(s, t)) + SendsOf(run, t) * (Limit(c) + 1)
  {
    CallsBoundedByAllowance(c, s, run, t);
    AllowanceIsRounds(c, run, t);
  }

  /** No lost update: a quiet topic was last handled with the entry now in the store. */
  lemma NoLostUpdate(c: Config, run: seq<Step>, t: Topic)
    requires Runnable(c, INIT, run)
    requires Quiet(Exec(c, INIT, run), t) && t in Exec(c, INIT, run).store
    ensures t in Exec(c, INIT, run).received
    ensures Exec(c, INIT, run).received[t] == Exec(c, INIT, run).store[t]
  {
    var s := Exec(c, INIT, run);
    InvReachable(c, run);
    assert Fresh(ViewOf(s, t));
  }

  /** No two workers process one topic at the same time. */
  lemma OneWorkerPerTopic(c: Config, run: seq<Step>, w: nat, x: nat)
    requires Runnable(c, INIT, run)
    requires w in Exec(c, INIT, run).pool.busy && x in Exec(c, INIT, run).pool.busy
    requires Exec(c, INIT, run).pool.busy[w].topic == Exec(c, INIT, run).pool.busy[x].topic
    ensures w == x
  {
    InvReachable(c, run);
  }

  /** GetByKey never misses, so no worker loop stops on a missing key. */
  lemma KeyNeverMissing(c: Config, run: seq<Step>, p: Step)
    requires Runnable(c, INIT, run) && Enabled(c, Exec(c, INIT, run), p) && p.action.Load?
    ensures p.topic in Exec(c, INIT, run).store
  {
    var s := Exec(c, INIT, run);
    InvReachable(c, run);
    EnabledView(c, s, p);
    assert ViewInv(ViewOf(s, p.topic));
  }

  /******* One Send *******/

  // The entry of one Send is stored and nothing else is pending.
  predicate JustWrote(v: View) {
    && v.wrote == 1 && v.counted == 0 && v.waiting == 0 && !v.dirty
    && !Active(v) && v.requeues == 0
  }

  function Max(a: int, b: int): int {
    if a < b then b else a
  }

  // The only steps such a topic can take are the Done of an older call and the Count.
  lemma JustWroteStep(c: Config, v: View, a: Action)
    requires ViewInv(v) && JustWrote(v) && ViewEnabled(v, a) && !a.Store?
    ensures ViewNext(c, v, a).calls == v.calls
    ensures JustWrote(ViewNext(c, v, a)) || CallsLeft(c, ViewNext(c, v, a)) == Max(1, c.requeueTimes)
  {
    assert a.Done? || a.Count?;
  }

  lemma {:induction false} AfterWrite(c: Config, s: State, run: seq<Step>, t: Topic)
    requires Inv(s) && Runnable(c, s, run) && NoNewSend(run, t) && JustWrote(ViewOf(s, t))
    ensures Calls(Exec(c, s, run), t) <= Calls(s, t) + Max(1, c.requeueTimes)
    decreases |run|
  {
    if |run| > 0 {
      var s' := Next(c, s, run[0]);
      InvStep(c, s, run[0]);
      if run[0].topic != t {
        StepOtherView(c, s, run[0], t);
      } else {
        StepOwnView(c, s, run[0]);
        JustWroteStep(c, ViewOf(s, t), run[0].action);
      }
      if JustWrote(ViewOf(s', t)) {
        AfterWrite(c, s', run[1..], t);
      } else {
        CallsBounded(c, s', run[1..], t);
      }
    }
  }

  // The rate limiter remembers nothing of a quiet topic.
  lemma QuietIsForgotten(s: State, t: Topic)
    requires Inv(s) && Quiet(s, t)
    ensures Requeues(s, t) == 0
  {
    assert ViewInv(ViewOf(s, t));
  }

  /** A Send of a quiet topic, with no other Send of it, causes at most
      max(1, requeueTimes) handler calls: the Send itself counts as a requeue. */
  lemma SingleSend(c: Config, s: State, p: Step, run: seq<Step>)
    requires Inv(s) && Quiet(s, p.topic) && p.action.Store?
    requires Runnable(c, s, [p] + run) && NoNewSend(run, p.topic)
    ensures Calls(Exec(c, s, [p] + run), p.topic) <= Calls(s, p.topic) + Max(1, c.requeueTimes)
  {
    assert ([p] + run)[1..] == run;
    QuietIsForgotten(s, p.topic);
    InvStep(c, s, p);
    StepOwnView(c, s, p);
    AfterWrite(c, Next(c, s, p), run, p.topic);
  }

  /** Sends that merge before the first handler call use up the retries: once the
      counter has reached the limit, a single pending add is handled at most once. */
  lemma NoRetryAfterBurst(c: Config, s: State, run: seq<Step>, t: Topic)
    requires Inv(s) && Runnable(c, s, run) && NoNewSend(run, t)
    requires Tokens(ViewOf(s, t)) == 1 && EffectiveRequeues(ViewOf(s, t)) >= c.requeueTimes
    ensures Calls(Exec(c, s, run), t) <= Calls(s, t) + 1
  {
    CallsBounded(c, s, run, t);
  }

  /******* Every topic settles *******/

  function StageWork(stage: Option<Stage>): nat {
    match stage
    case None => 0
    case Some(Got) => 2
    case Some(Handling) => 1
    case Some(Retrying) => 7
    case Some(Counted) => 6
    case Some(Forgetting) => 2
    case Some(Finishing) => 1
  }

  // Bounds the steps of the topic that can follow without a new Send.
  function Work(c: Config, v: View): nat {
    12 * BoundOf(c, v)
    + 6 * v.wrote + 5 * v.counted + 4 * v.waiting + 3 * One(v.dirty) + StageWork(v.stage)
  }

  lemma WorkStep(c: Config, v: View, a: Action)
    requires ViewInv(v) && ViewEnabled(v, a) && !a.Store?
    ensures Work(c, ViewNext(c, v, a)) < Work(c, v)
  {
    BoundStep(c, v, a);
  }

  function StepsOf(run: seq<Step>, t: Topic): nat {
    if |run| == 0 then 0 else One(run[0].topic == t) + StepsOf(run[1..], t)
  }

  /** Without a new Send a topic takes a bounded number of steps, failing handler or not. */
  lemma {:induction false} RetryTerminates(c: Config, s: State, run: seq<Step>, t: Topic)
    requires Inv(s) && Runnable(c, s, run) && NoNewSend(run, t)
    ensures StepsOf(run, t) + Work(c, ViewOf(Exec(c, s, run), t)) <= Work(c, ViewOf(s, t))
    decreases |run|
  {
    if |run| > 0 {
      var s' := Next(c, s, run[0]);
      InvStep(c, s, run[0]);
      if run[0].topic == t {
        StepOwnView(c, s, run[0]);
        WorkStep(c, ViewOf(s, t), run[0].action);
      } else {
        StepOtherView(c, s, run[0], t);
      }
      RetryTerminates(c, s', run[1..], t);
    }
  }

  // Nothing but a new Send can happen.
  ghost predicate Stuck(c: Config, s: State) {
    forall p: Step :: Enabled(c, s, p) ==> p.action.Store?
  }

  function NextAction(stage: Stage): Action {
    match stage
    case Got => Load
    case Handling => Return(true)
    case Retrying => CountRetry
    case Counted => Requeue
    case Forgetting => Forget
    case Finishing => Done
  }

  lemma StuckIsIdle(c: Config, s: State)
    requires Inv(s) && Stuck(c, s) && c.workers > 0
    ensures forall t :: Quiet(s, t)
  {
    assert forall w :: w in s.pool.busy ==>
      Enabled(c, s, Step(s.pool.busy[w].topic, NextAction(s.pool.busy[w].stage), w));
    assert s.pool.processing == {};
    var any: nat := 0;
    forall t ensures Quiet(s, t) {
      assert t in s.wrote ==> Enabled(c, s, Step(t, Count, any));
      assert t in s.counted ==> Enabled(c, s, Step(t, Enqueue, any));
      assert t in s.waiting ==> Enabled(c, s, Step(t, Expire, any));
      assert t in s.dirty ==> Enabled(c, s, Step(t, Get, any));
    }
  }

  /** No deadlock: a run that cannot go on without a new Send has handed the latest
      entry of every topic ever sent to the handler. */
  lemma StuckMeansDelivered(c: Config, run: seq<Step>, t: Topic)
    requires Runnable(c, INIT, run) && c.workers > 0 && Stuck(c, Exec(c, INIT, run))
    requires t in Exec(c, INIT, run).store
    ensures t in Exec(c, INIT, run).received
    ensures Exec(c, INIT, run).received[t] == Exec(c, INIT, run).store[t]
  {
    InvReachable(c, run);
    StuckIsIdle(c, Exec(c, INIT, run));
    NoLostUpdate(c, run, t);
  }
}
