/** The queue object of the nautesqueue package. Each method, run without interruption,
    is a run of the step machine in `WorkQueue`. */
module NautesQueue {
  import opened Wrappers
  import opened WorkQueue
  import opened QueueScenarios

  // The steps of one processNextItem that takes `t`.
  function CallRun(c: Config, s: State, t: Topic, w: nat, ok: bool): seq<Step> {
    if t !in s.store then [Step(t, Get, w), Step(t, Load, w), Step(t, Done, w)]
    else
      [Step(t, Get, w), Step(t, Load, w), Step(t, Return(ok), w)]
      + (if !ok && Requeues(s, t) < c.requeueTimes then RetryTail(t, w) else DropTail(t, w))
  }

  // The record of a handler call.
  function Called(s: State, t: Topic, e: Entry): State {
    s.(received := s.received[t := e], calls := s.calls[t := Calls(s, t) + 1])
  }

  // What handleErr changes.
  function Erred(c: Config, s: State, t: Topic, failed: bool): State {
    if failed && Requeues(s, t) < c.requeueTimes then
      s.(requeues := s.requeues[t := Requeues(s, t) + 1], waiting := s.waiting[t := s.waiting[t] + 1])
    else s.(requeues := s.requeues - {t})
  }

  // What the handler call and handleErr change.
  function Handled(c: Config, s: State, t: Topic, ok: bool): State {
    if t !in s.store then s else Erred(c, Called(s, t, s.store[t]), t, !ok)
  }

  lemma CalledKeeps(s: State, t: Topic, e: Entry, dirty: set<Topic>, pool: Pool)
    ensures Called(s.(dirty := dirty, pool := pool), t, e) == Called(s, t, e).(dirty := dirty, pool := pool)
  {
  }

  lemma ErredKeeps(c: Config, s: State, t: Topic, failed: bool, dirty: set<Topic>, pool: Pool)
    ensures Erred(c, s.(dirty := dirty, pool := pool), t, failed) ==
      Erred(c, s, t, failed).(dirty := dirty, pool := pool)
  {
  }

  lemma HandledKeeps(c: Config, s: State, s': State, t: Topic, ok: bool, dirty: set<Topic>, pool: Pool)
    requires s' == s.(dirty := dirty, pool := pool)
    ensures Handled(c, s', t, ok) == Handled(c, s, t, ok).(dirty := dirty, pool := pool)
  {
    if t in s.store {
      CalledKeeps(s, t, s.store[t], dirty, pool);
      ErredKeeps(c, Called(s, t, s.store[t]), t, !ok, dirty, pool);
    }
  }

  // The state after these steps.
  function CallResult(c: Config, s: State, t: Topic, ok: bool): State {
    Handled(c, s, t, ok).(dirty := s.dirty - {t})
  }

  lemma TakenAndReleased(pool: Pool, w: nat, t: Topic)
    requires w !in pool.busy && t !in pool.processing
    ensures Pool(pool.busy[w := Worker(t, Got)] - {w}, pool.processing + {t} - {t}) == pool
  {
    assert pool.busy[w := Worker(t, Got)] - {w} == pool.busy;
    assert pool.processing + {t} - {t} == pool.processing;
  }

  lemma GetAndLoad(c: Config, s: State, t: Topic, w: nat)
    requires Enabled(c, s, Step(t, Get, w))
    ensures Runnable(c, s, [Step(t, Get, w), Step(t, Load, w)])
    ensures Exec(c, s, [Step(t, Get, w), Step(t, Load, w)]) ==
      Next(c, Next(c, s, Step(t, Get, w)), Step(t, Load, w))
  {
    OneStep(c, s, Step(t, Get, w));
    OneMore(c, s, [Step(t, Get, w)], Step(t, Load, w));
    assert [Step(t, Get, w)] + [Step(t, Load, w)] == [Step(t, Get, w), Step(t, Load, w)];
  }

  lemma RetryTailResult(c: Config, s: State, t: Topic, w: nat)
    requires Holds(s.pool, w, t, Retrying)
    ensures Runnable(c, s, RetryTail(t, w))
    ensures Exec(c, s, RetryTail(t, w)) ==
      s.(requeues := s.requeues[t := Requeues(s, t) + 1], waiting := s.waiting[t := s.waiting[t] + 1],
         pool := Pool(s.pool.busy - {w}, s.pool.processing - {t}))
  {
    var r := RetryTail(t, w);
    OneStep(c, s, r[0]);
    OneMore(c, s, r[..1], r[1]);
    assert r[..1] + [r[1]] == r[..2];
    OneMore(c, s, r[..2], r[2]);
    assert r[..2] + [r[2]] == r;
    assert Exec(c, s, r).pool.busy == s.pool.busy - {w};
    assert Exec(c, s, r).pool.processing == s.pool.processing - {t};
  }

  lemma DropTailResult(c: Config, s: State, t: Topic, w: nat)
    requires Holds(s.pool, w, t, Forgetting)
    ensures Runnable(c, s, DropTail(t, w))
    ensures Exec(c, s, DropTail(t, w)) ==
      s.(requeues := s.requeues - {t}, pool := Pool(s.pool.busy - {w}, s.pool.processing - {t}))
  {
    var r := DropTail(t, w);
    OneStep(c, s, r[0]);
    OneMore(c, s, r[..1], r[1]);
    assert r[..1] + [r[1]] == r;
    assert Exec(c, s, r).pool.busy == s.pool.busy - {w};
    assert Exec(c, s, r).pool.processing == s.pool.processing - {t};
  }

  lemma MissingKeyRun(c: Config, s: State, t: Topic, w: nat, ok: bool)
    requires Enabled(c, s, Step(t, Get, w)) && t !in s.store
    ensures Runnable(c, s, CallRun(c, s, t, w, ok))
    ensures Exec(c, s, CallRun(c, s, t, w, ok)) == CallResult(c, s, t, ok)
  {
    var r := [Step(t, Get, w), Step(t, Load, w)];
    GetAndLoad(c, s, t, w);
    OneMore(c, s, r, Step(t, Done, w));
    assert r + [Step(t, Done, w)] == CallRun(c, s, t, w, ok);
    var s' := Exec(c, s, CallRun(c, s, t, w, ok));
    assert s'.pool.busy == s.pool.busy && s'.pool.processing == s.pool.processing;
  }

  // The state when handleErr has decided what to do.
  function Decided(c: Config, s: State, t: Topic, w: nat, ok: bool): State {
    var stage := if !ok && Requeues(s, t) < c.requeueTimes then Retrying else Forgetting;
    s.(dirty := s.dirty - {t}, pool := Pool(s.pool.busy[w := Worker(t, stage)], s.pool.processing + {t}),
       received := if t in s.store then s.received[t := s.store[t]] else s.received,
       calls := s.calls[t := Calls(s, t) + 1])
  }

  lemma DecisionRun(c: Config, s: State, t: Topic, w: nat, ok: bool)
    requires Enabled(c, s, Step(t, Get, w)) && t in s.store
    ensures Runnable(c, s, [Step(t, Get, w), Step(t, Load, w), Step(t, Return(ok), w)])
    ensures Exec(c, s, [Step(t, Get, w), Step(t, Load, w), Step(t, Return(ok), w)]) == Decided(c, s, t, w, ok)
  {
    var r := [Step(t, Get, w), Step(t, Load, w)];
    GetAndLoad(c, s, t, w);
    OneMore(c, s, r, Step(t, Return(ok), w));
    assert r + [Step(t, Return(ok), w)] == [Step(t, Get, w), Step(t, Load, w), Step(t, Return(ok), w)];
    var s' := Next(c, Exec(c, s, r), Step(t, Return(ok), w));
    assert s'.pool.processing == Decided(c, s, t, w, ok).pool.processing;
    assert s'.pool.busy == Decided(c, s, t, w, ok).pool.busy;
  }

  // Where handleErr and the deferred Done lead from the decision.
  function Concluded(c: Config, s: State, d: State, t: Topic, w: nat, ok: bool): State {
    var released := d.(pool := Pool(d.pool.busy - {w}, d.pool.processing - {t}));
    if !ok && Requeues(s, t) < c.requeueTimes then
      released.(requeues := d.requeues[t := Requeues(d, t) + 1], waiting := d.waiting[t := d.waiting[t] + 1])
    else released.(requeues := d.requeues - {t})
  }

  lemma DecidedResult(c: Config, s: State, t: Topic, w: nat, ok: bool)
    requires Enabled(c, s, Step(t, Get, w)) && t in s.store
    ensures Concluded(c, s, Decided(c, s, t, w, ok), t, w, ok) == CallResult(c, s, t, ok)
  {
    var d := Decided(c, s, t, w, ok);
    assert d.pool.busy - {w} == s.pool.busy && d.pool.processing - {t} == s.pool.processing;
  }

  lemma ConclusionRun(c: Config, s: State, d: State, t: Topic, w: nat, ok: bool)
    requires d == Decided(c, s, t, w, ok)
    ensures var tail := if !ok && Requeues(s, t) < c.requeueTimes then RetryTail(t, w) else DropTail(t, w);
      Runnable(c, d, tail) && Exec(c, d, tail) == Concluded(c, s, d, t, w, ok)
  {
    if !ok && Requeues(s, t) < c.requeueTimes {
      RetryTailResult(c, d, t, w);
    } else {
      DropTailResult(c, d, t, w);
    }
  }

  lemma HandledRun(c: Config, s: State, t: Topic, w: nat, ok: bool)
    requires Enabled(c, s, Step(t, Get, w)) && t in s.store
    ensures Runnable(c, s, CallRun(c, s, t, w, ok))
    ensures Exec(c, s, CallRun(c, s, t, w, ok)) == CallResult(c, s, t, ok)
  {
    var d := Decided(c, s, t, w, ok);
    var tail := if !ok && Requeues(s, t) < c.requeueTimes then RetryTail(t, w) else DropTail(t, w);
    DecisionRun(c, s, t, w, ok);
    ConclusionRun(c, s, d, t, w, ok);
    RunThen(c, s, [Step(t, Get, w), Step(t, Load, w), Step(t, Return(ok), w)], tail);
    DecidedResult(c, s, t, w, ok);
  }

  /** One uninterrupted processNextItem is a run of the step machine. */
  lemma CallRunResult(c: Config, s: State, t: Topic, w: nat, ok: bool)
    requires Enabled(c, s, Step(t, Get, w))
    ensures Runnable(c, s, CallRun(c, s, t, w, ok))
    ensures Exec(c, s, CallRun(c, s, t, w, ok)) == CallResult(c, s, t, ok)
  {
    if t !in s.store {
      MissingKeyRun(c, s, t, w, ok);
    } else {
      HandledRun(c, s, t, w, ok);
    }
  }

  function SendResult(s: State, t: Topic, e: Entry): State {
    s.(store := s.store[t := e], requeues := s.requeues[t := Requeues(s, t) + 1],
       waiting := s.waiting[t := s.waiting[t] + 1])
  }

  /** One uninterrupted Send is a run of the step machine. */
  lemma SendRunResult(c: Config, s: State, t: Topic, e: Entry, w: nat)
    ensures Runnable(c, s, SendRun(t, e, w))
    ensures Exec(c, s, SendRun(t, e, w)) == SendResult(s, t, e)
  {
    var r := SendRun(t, e, w);
    OneStep(c, s, r[0]);
    OneMore(c, s, r[..1], r[1]);
    assert r[..1] + [r[1]] == r[..2];
    OneMore(c, s, r[..2], r[2]);
    assert r[..2] + [r[2]] == r;
    assert Exec(c, s, r).wrote == s.wrote && Exec(c, s, r).counted == s.counted;
  }

  class ClientGoWorkQueue {
    const workers: nat
    const requeueTimes: int
    var store: map<Topic, Entry>
    // The rate limiting work queue.
    var waiting: multiset<Topic>
    var dirty: set<Topic>
    var requeues: map<Topic, nat>
    var pool: Pool
    // Sends in flight in other goroutines, and the record of handler calls.
    ghost var wrote: multiset<Topic>
    ghost var counted: multiset<Topic>
    ghost var received: map<Topic, Entry>
    ghost var calls: map<Topic, nat>

    ghost function Snapshot(): State
      reads this
    {
      State(store, wrote, counted, waiting, dirty, requeues, pool, received, calls)
    }

    ghost function Settings(): Config {
      Config(workers, requeueTimes)
    }

    constructor (workers: nat, requeueTimes: int)
      ensures Settings() == Config(workers, requeueTimes) && Snapshot() == INIT
    {
      this.workers, this.requeueTimes := workers, requeueTimes;
      store, waiting, dirty, requeues, pool := map[], multiset{}, {}, map[], Pool(map[], {});
      wrote, counted, received, calls := multiset{}, multiset{}, map[], map[];
    }

    method NumRequeues(topic: Topic) returns (n: nat)
      ensures n == Requeues(Snapshot(), topic)
    {
      n := if topic in requeues then requeues[topic] else 0;
    }

    method AddRateLimited(topic: Topic)
      modifies this`requeues, this`waiting
      ensures requeues == old(requeues)[topic := Requeues(old(Snapshot()), topic) + 1]
      ensures waiting == old(waiting)[topic := old(waiting)[topic] + 1]
    {
      var n := NumRequeues(topic);
      requeues := requeues[topic := n + 1];
      waiting := waiting[topic := waiting[topic] + 1];
    }

    method Forget(topic: Topic)
      modifies this`requeues
      ensures requeues == old(requeues) - {topic}
    {
      requeues := requeues - {topic};
    }

    method Send(topic: Topic, entry: Entry)
      modifies this`store, this`requeues, this`waiting
      ensures store == old(store)[topic := entry]
      ensures Snapshot() == SendResult(old(Snapshot()), topic, entry)
    {
      store := store[topic := entry];
      AddRateLimited(topic);
    }

    method Get(w: nat) returns (topic: Topic)
      requires w !in pool.busy
      requires exists t :: t in dirty && t !in pool.processing
      modifies this`dirty, this`pool
      ensures topic in old(dirty) && topic !in old(pool).processing
      ensures dirty == old(dirty) - {topic}
      ensures pool == Pool(old(pool).busy[w := Worker(topic, Got)], old(pool).processing + {topic})
    {
      topic :| topic in dirty && topic !in pool.processing;
      dirty := dirty - {topic};
      pool := Pool(pool.busy[w := Worker(topic, Got)], pool.processing + {topic});
    }

    method Done(w: nat, topic: Topic)
      modifies this`pool
      ensures pool == Pool(old(pool).busy - {w}, old(pool).processing - {topic})
    {
      pool := Pool(pool.busy - {w}, pool.processing - {topic});
    }

    method GetByKey(key: Topic) returns (entry: Option<Entry>)
      ensures entry == if key in store then Some(store[key]) else None
    {
      entry := if key in store then Some(store[key]) else None;
    }

    // The handler is the caller's code; what it was given goes on record.
    method Handle(topic: Topic, entry: Entry)
      modifies this`received, this`calls
      ensures Snapshot() == Called(old(Snapshot()), topic, entry)
    {
      received, calls := received[topic := entry], calls[topic := Calls(Snapshot(), topic) + 1];
    }

    method HandleErr(failed: bool, topic: Topic)
      modifies this`requeues, this`waiting
      ensures failed && Requeues(old(Snapshot()), topic) < requeueTimes ==>
        && requeues == old(requeues)[topic := Requeues(old(Snapshot()), topic) + 1]
        && waiting == old(waiting)[topic := old(waiting)[topic] + 1]
      ensures !failed || Requeues(old(Snapshot()), topic) >= requeueTimes ==>
        requeues == old(requeues) - {topic} && waiting == old(waiting)
      ensures Snapshot() == Erred(Settings(), old(Snapshot()), topic, failed)
    {
      if !failed {
        Forget(topic);
        return;
      }
      var n := NumRequeues(topic);
      if n < requeueTimes {
        AddRateLimited(topic);
        return;
      }
      Forget(topic);
    }

    method Serve(topic: Topic, ok: bool) returns (again: bool)
      modifies this`requeues, this`waiting, this`received, this`calls
      ensures again <==> topic in store
      ensures Snapshot() == Handled(Settings(), old(Snapshot()), topic, ok)
    {
      var entry := GetByKey(topic);
      if entry.None? {
        return false;
      }
      Handle(topic, entry.value);
      HandleErr(!ok, topic);
      return true;
    }

    /** Get blocks until a topic is queued; `ok` is what the handler answers. */
    method ProcessNextItem(w: nat, ok: bool) returns (topic: Topic, again: bool)
      requires w < workers && w !in pool.busy
      requires exists t :: t in dirty && t !in pool.processing
      modifies this
      ensures topic in old(dirty) && topic !in old(pool).processing
      ensures again <==> topic in old(store)
      ensures Snapshot() == CallResult(Settings(), old(Snapshot()), topic, ok)
    {
      topic := Get(w);
      HandledKeeps(Settings(), old(Snapshot()), Snapshot(), topic, ok, dirty, pool);
      TakenAndReleased(old(pool), w, topic);
      again := Serve(topic, ok);
      Done(w, topic);
    }
  }
}
