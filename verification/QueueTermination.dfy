/** Without new Sends the whole queue comes to rest. */
module QueueTermination {
  import opened Wrappers
  import opened WorkQueue
  import opened QueueGuarantees

  predicate NoSend(run: seq<Step>) {
    forall i :: 0 <= i < |run| ==> !run[i].action.Store?
  }

  ghost function TotalWork(c: Config, s: State, ts: set<Topic>): nat
    decreases |ts|
  {
    if ts == {} then 0
    else
      var t :| t in ts;
      Work(c, ViewOf(s, t)) + TotalWork(c, s, ts - {t})
  }

  lemma {:induction false} TotalSame(c: Config, s: State, s': State, ts: set<Topic>)
    requires forall t :: t in ts ==> ViewOf(s', t) == ViewOf(s, t)
    ensures TotalWork(c, s', ts) == TotalWork(c, s, ts)
    decreases |ts|
  {
    if ts != {} {
      var t :| t in ts && TotalWork(c, s, ts) == Work(c, ViewOf(s, t)) + TotalWork(c, s, ts - {t})
        && TotalWork(c, s', ts) == Work(c, ViewOf(s', t)) + TotalWork(c, s', ts - {t});
      TotalSame(c, s, s', ts - {t});
    }
  }

  lemma {:induction false} TotalDrops(c: Config, s: State, s': State, ts: set<Topic>, u: Topic)
    requires u in ts && Work(c, ViewOf(s', u)) < Work(c, ViewOf(s, u))
    requires forall t :: t in ts && t != u ==> ViewOf(s', t) == ViewOf(s, t)
    ensures TotalWork(c, s', ts) < TotalWork(c, s, ts)
    decreases |ts|
  {
    var t :| t in ts && TotalWork(c, s, ts) == Work(c, ViewOf(s, t)) + TotalWork(c, s, ts - {t})
      && TotalWork(c, s', ts) == Work(c, ViewOf(s', t)) + TotalWork(c, s', ts - {t});
    if t == u {
      TotalSame(c, s, s', ts - {t});
    } else {
      TotalDrops(c, s, s', ts - {t}, u);
    }
  }

  // Only stored topics have steps other than a Send.
  lemma StepStored(c: Config, s: State, p: Step)
    requires Inv(s) && Enabled(c, s, p) && !p.action.Store?
    ensures p.topic in s.store
  {
    EnabledView(c, s, p);
    assert ViewInv(ViewOf(s, p.topic));
  }

  lemma StoreKept(s: State, p: Step)
    requires Supplied(s, p) && !p.action.Store?
    ensures NextData(s, p).store == s.store
  {
  }

  lemma OwnWorkDrops(c: Config, s: State, s': State, p: Step)
    requires Inv(s) && Enabled(c, s, p) && !p.action.Store? && s' == Next(c, s, p)
    ensures Work(c, ViewOf(s', p.topic)) < Work(c, ViewOf(s, p.topic))
  {
    StepOwnView(c, s, p);
    WorkStep(c, ViewOf(s, p.topic), p.action);
  }

  lemma OthersStay(c: Config, s: State, s': State, p: Step)
    requires Inv(s) && Enabled(c, s, p) && s' == Next(c, s, p)
    ensures forall t :: t != p.topic ==> ViewOf(s', t) == ViewOf(s, t)
  {
    forall t | t != p.topic ensures ViewOf(s', t) == ViewOf(s, t) {
      StepOtherView(c, s, p, t);
    }
  }

  lemma StepDrops(c: Config, s: State, p: Step)
    requires Inv(s) && Enabled(c, s, p) && !p.action.Store?
    ensures Next(c, s, p).store == s.store
    ensures TotalWork(c, Next(c, s, p), s.store.Keys) < TotalWork(c, s, s.store.Keys)
  {
    var s' := Next(c, s, p);
    StepStored(c, s, p);
    StoreKept(s, p);
    OwnWorkDrops(c, s, s', p);
    OthersStay(c, s, s', p);
    TotalDrops(c, s, s', s.store.Keys, p.topic);
  }

  /** A run without a new Send, of whatever topics, has at most `TotalWork` steps. */
  lemma {:induction false} AllTerminates(c: Config, s: State, run: seq<Step>)
    requires Inv(s) && Runnable(c, s, run) && NoSend(run)
    ensures Exec(c, s, run).store == s.store
    ensures |run| + TotalWork(c, Exec(c, s, run), s.store.Keys) <= TotalWork(c, s, s.store.Keys)
    decreases |run|
  {
    if |run| > 0 {
      StepDrops(c, s, run[0]);
      InvStep(c, s, run[0]);
      AllTerminates(c, Next(c, s, run[0]), run[1..]);
    }
  }

  lemma Prepended(c: Config, s: State, p: Step, rest: seq<Step>)
    requires Enabled(c, s, p) && Runnable(c, Next(c, s, p), rest)
    ensures Runnable(c, s, [p] + rest) && Exec(c, s, [p] + rest) == Exec(c, Next(c, s, p), rest)
  {
    assert ([p] + rest)[1..] == rest;
  }

  lemma {:induction false} Settles(c: Config, s: State) returns (run: seq<Step>)
    requires Inv(s)
    ensures Runnable(c, s, run) && NoSend(run) && Stuck(c, Exec(c, s, run)) && Exec(c, s, run).store == s.store
    decreases TotalWork(c, s, s.store.Keys)
  {
    run := [];
    if !Stuck(c, s) {
      var p: Step :| Enabled(c, s, p) && !p.action.Store?;
      StepDrops(c, s, p);
      InvStep(c, s, p);
      var rest := Settles(c, Next(c, s, p));
      Prepended(c, s, p, rest);
      run := [p] + rest;
    }
  }

  /** From any reachable state the queue can come to rest, and then the handler was last
      given, for every topic, the entry that was in the store all along. */
  lemma DeliversAll(c: Config, run: seq<Step>) returns (more: seq<Step>)
    requires Runnable(c, INIT, run) && c.workers > 0
    ensures var s := Exec(c, INIT, run);
      && Runnable(c, s, more) && NoSend(more) && Stuck(c, Exec(c, s, more))
      && forall t :: t in s.store ==> t in Exec(c, s, more).received && Exec(c, s, more).received[t] == s.store[t]
  {
    var s := Exec(c, INIT, run);
    InvReachable(c, run);
    more := Settles(c, s);
    var s' := Exec(c, s, more);
    InvRun(c, s, more);
    StuckIsIdle(c, s');
    forall t | t in s.store ensures t in s'.received && s'.received[t] == s.store[t] {
      assert Quiet(s', t) && Fresh(ViewOf(s', t));
    }
  }

  /** What a worker reads is the entry of the last Send: it stays stored until another one. */
  lemma {:induction false} LatestEntryStored(c: Config, s: State, run: seq<Step>, t: Topic)
    requires Runnable(c, s, run) && NoNewSend(run, t) && t in s.store
    ensures t in Exec(c, s, run).store && Exec(c, s, run).store[t] == s.store[t]
    decreases |run|
  {
    if |run| > 0 {
      LatestEntryStored(c, Next(c, s, run[0]), run[1..], t);
    }
  }
}
