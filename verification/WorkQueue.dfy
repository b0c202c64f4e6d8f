/**
 The retrying topic queue as a state machine over its atomic steps.

 The environment is the contract of client-go's rate limiting work queue: a key
 that is added while it is delayed, queued or being processed is kept once per
 stage, a key is handed to one worker at a time, and the rate limiter counts every
 rate limited add until the key is forgotten.
*/
module WorkQueue {
  import opened Wrappers

  type Topic = string
  type Entry = string

  const DEFAULT_REQUEUE_TIMES := 5

  datatype Config = Config(workers: nat, requeueTimes: int)

  // What a worker is doing with the topic it holds.
  datatype Stage =
    | Got                   // the work queue handed out the topic
    | Handling              // the handler runs on the entry read from the store
    | Retrying              // the handler failed and the counter is below the limit
    | Counted               // the rate limiter counted the retry
    | Forgetting            // the handler succeeded, or the retries are used up
    | Finishing             // only the deferred Done is left

  datatype Worker = Worker(topic: Topic, stage: Stage)

  // The workers that hold a topic, and the topics the work queue counts as held.
  datatype Pool = Pool(busy: map<nat, Worker>, processing: set<Topic>)

  /** `wrote` and `counted` hold the Sends in flight: the entry is stored, and the
      rate limiter has counted the add. `waiting` holds the delayed adds; `received`
      and `calls` record what the handler was given. */
  datatype State = State(
    store: map<Topic, Entry>,
    wrote: multiset<Topic>,
    counted: multiset<Topic>,
    waiting: multiset<Topic>,
    dirty: set<Topic>,
    requeues: map<Topic, nat>,
    pool: Pool,
    received: map<Topic, Entry>,
    calls: map<Topic, nat>)

  const INIT := State(map[], multiset{}, multiset{}, multiset{}, {}, map[], Pool(map[], {}), map[], map[])

  datatype Action =
    | Store(entry: Entry)   // Send: write the store
    | Count                 // Send: the rate limiter counts the add
    | Enqueue               // Send: the add starts its delay
    | Expire                // a delay ends and the topic becomes dirty
    | Merge                 // two delays of one topic become one
    | Get                   // a worker takes a queued topic
    | Load                  // the worker reads the store and calls the handler
    | Return(ok: bool)      // the handler returns and its error is inspected
    | CountRetry            // the rate limiter counts the retry
    | Requeue               // the retry starts its delay
    | Forget                // the rate limiter forgets the topic
    | Done                  // the deferred Done

  // A step of the machine; only worker actions use `worker`.
  datatype Step = Step(topic: Topic, action: Action, worker: nat)

  function Requeues(s: State, t: Topic): nat {
    if t in s.requeues then s.requeues[t] else 0
  }

  function Calls(s: State, t: Topic): nat {
    if t in s.calls then s.calls[t] else 0
  }

  predicate ByWorker(a: Action) {
    a.Get? || a.Load? || a.Return? || a.CountRetry? || a.Requeue? || a.Forget? || a.Done?
  }

  predicate Holds(pool: Pool, w: nat, t: Topic, stage: Stage) {
    w in pool.busy && pool.busy[w] == Worker(t, stage)
  }

  predicate Enabled(c: Config, s: State, p: Step) {
    match p.action
    case Store(_) => true
    case Count => p.topic in s.wrote
    case Enqueue => p.topic in s.counted
    case Expire => p.topic in s.waiting
    case Merge => s.waiting[p.topic] >= 2
    case Get =>
      && p.worker < c.workers && p.worker !in s.pool.busy
      && p.topic in s.dirty && p.topic !in s.pool.processing
    case Load => Holds(s.pool, p.worker, p.topic, Got)
    case Return(_) => Holds(s.pool, p.worker, p.topic, Handling)
    case CountRetry => Holds(s.pool, p.worker, p.topic, Retrying)
    case Requeue => Holds(s.pool, p.worker, p.topic, Counted)
    case Forget => Holds(s.pool, p.worker, p.topic, Forgetting)
    case Done => Holds(s.pool, p.worker, p.topic, Finishing)
  }

  // Where a worker stands after an action other than Done.
  function StageAfter(c: Config, a: Action, stored: bool, requeues: nat): Stage {
    match a
    case Load => if stored then Handling else Finishing
    case Return(ok) => if !ok && requeues < c.requeueTimes then Retrying else Forgetting
    case CountRetry => Counted
    case Requeue => Finishing
    case Forget => Finishing
    case _ => Got
  }

  function NextPool(c: Config, s: State, p: Step): Pool {
    if !ByWorker(p.action) then s.pool
    else if p.action.Done? then Pool(s.pool.busy - {p.worker}, s.pool.processing - {p.topic})
    else
      var stage := StageAfter(c, p.action, p.topic in s.store, Requeues(s, p.topic));
      Pool(s.pool.busy[p.worker := Worker(p.topic, stage)], s.pool.processing + {p.topic})
  }

  // The counts that a step takes one from.
  predicate Supplied(s: State, p: Step) {
    && (p.action.Count? ==> p.topic in s.wrote)
    && (p.action.Enqueue? ==> p.topic in s.counted)
    && (p.action.Expire? || p.action.Merge? ==> p.topic in s.waiting)
  }

  function NextData(s: State, p: Step): State
    requires Supplied(s, p)
  {
    var t := p.topic;
    match p.action
    case Store(e) => s.(store := s.store[t := e], wrote := s.wrote[t := s.wrote[t] + 1])
    case Count =>
      s.(wrote := s.wrote[t := s.wrote[t] - 1], counted := s.counted[t := s.counted[t] + 1],
         requeues := s.requeues[t := Requeues(s, t) + 1])
    case Enqueue => s.(counted := s.counted[t := s.counted[t] - 1], waiting := s.waiting[t := s.waiting[t] + 1])
    case Expire => s.(waiting := s.waiting[t := s.waiting[t] - 1], dirty := s.dirty + {t})
    case Merge => s.(waiting := s.waiting[t := s.waiting[t] - 1])
    case Get => s.(dirty := s.dirty - {t})
    case Load =>
      if t !in s.store then s
      else s.(received := s.received[t := s.store[t]], calls := s.calls[t := Calls(s, t) + 1])
    case Return(_) => s
    case CountRetry => s.(requeues := s.requeues[t := Requeues(s, t) + 1])
    case Requeue => s.(waiting := s.waiting[t := s.waiting[t] + 1])
    case Forget => s.(requeues := s.requeues - {t})
    case Done => s
  }

  function Next(c: Config, s: State, p: Step): State
    requires Enabled(c, s, p)
  {
    NextData(s, p).(pool := NextPool(c, s, p))
  }

  predicate Runnable(c: Config, s: State, run: seq<Step>)
    decreases |run|
  {
    |run| == 0 || (Enabled(c, s, run[0]) && Runnable(c, Next(c, s, run[0]), run[1..]))
  }

  function Exec(c: Config, s: State, run: seq<Step>): State
    requires Runnable(c, s, run)
    decreases |run|
  {
    if |run| == 0 then s else Exec(c, Next(c, s, run[0]), run[1..])
  }

  // No Send of `t` starts in the run; Sends already in flight may still complete.
  predicate NoNewSend(run: seq<Step>, t: Topic) {
    forall i :: 0 <= i < |run| ==> run[i].topic == t ==> !run[i].action.Store?
  }

  // The stage of the worker that holds `t`, if one does.
  ghost function StageOf(pool: Pool, t: Topic): Option<Stage> {
    if exists w :: w in pool.busy && pool.busy[w].topic == t then
      var w :| w in pool.busy && pool.busy[w].topic == t;
      Some(pool.busy[w].stage)
    else None
  }

  // `t` is in no queue, with no worker that still acts on it, and no Send of it is in flight.
  ghost predicate Quiet(s: State, t: Topic) {
    && t !in s.wrote && t !in s.counted && t !in s.waiting && t !in s.dirty
    && (StageOf(s.pool, t).None? || StageOf(s.pool, t) == Some(Finishing))
  }

  /** What the machine knows of one topic. A step of one topic changes the view of
      that topic alone, as `ViewNext` says. */
  datatype View = View(
    stored: Option<Entry>, wrote: nat, counted: nat, waiting: nat, dirty: bool,
    stage: Option<Stage>, requeues: nat, received: Option<Entry>, calls: nat)

  ghost function ViewOf(s: State, t: Topic): View {
    View(if t in s.store then Some(s.store[t]) else None,
         s.wrote[t], s.counted[t], s.waiting[t], t in s.dirty, StageOf(s.pool, t), Requeues(s, t),
         if t in s.received then Some(s.received[t]) else None, Calls(s, t))
  }

  predicate ViewEnabled(v: View, a: Action) {
    match a
    case Store(_) => true
    case Count => v.wrote > 0
    case Enqueue => v.counted > 0
    case Expire => v.waiting > 0
    case Merge => v.waiting >= 2
    case Get => v.dirty && v.stage.None?
    case Load => v.stage == Some(Got)
    case Return(_) => v.stage == Some(Handling)
    case CountRetry => v.stage == Some(Retrying)
    case Requeue => v.stage == Some(Counted)
    case Forget => v.stage == Some(Forgetting)
    case Done => v.stage == Some(Finishing)
  }

  function ViewStage(c: Config, v: View, a: Action): Option<Stage> {
    if !ByWorker(a) then v.stage
    else if a.Done? then None
    else Some(StageAfter(c, a, v.stored.Some?, v.requeues))
  }

  function ViewData(v: View, a: Action): View
    requires ViewEnabled(v, a)
  {
    match a
    case Store(e) => v.(stored := Some(e), wrote := v.wrote + 1)
    case Count => v.(wrote := v.wrote - 1, counted := v.counted + 1, requeues := v.requeues + 1)
    case Enqueue => v.(counted := v.counted - 1, waiting := v.waiting + 1)
    case Expire => v.(waiting := v.waiting - 1, dirty := true)
    case Merge => v.(waiting := v.waiting - 1)
    case Get => v.(dirty := false)
    case Load => if v.stored.None? then v else v.(received := v.stored, calls := v.calls + 1)
    case Return(_) => v
    case CountRetry => v.(requeues := v.requeues + 1)
    case Requeue => v.(waiting := v.waiting + 1)
    case Forget => v.(requeues := 0)
    case Done => v
  }

  function ViewNext(c: Config, v: View, a: Action): View
    requires ViewEnabled(v, a)
  {
    ViewData(v, a).(stage := ViewStage(c, v, a))
  }

  /******* Invariants *******/

  // Two workers never hold one topic, and the work queue knows which topics are held.
  ghost predicate Exclusive(pool: Pool) {
    && (forall w :: w in pool.busy ==> pool.busy[w].topic in pool.processing)
    && (forall w, x :: w in pool.busy && x in pool.busy && pool.busy[w].topic == pool.busy[x].topic ==> w == x)
    && (forall t :: t in pool.processing ==> exists w :: w in pool.busy && pool.busy[w].topic == t)
  }

  predicate Active(v: View) {
    v.stage.Some? && v.stage != Some(Finishing)
  }

  // The entry in the store will be read, or is the one last read.
  predicate Fresh(v: View) {
    || v.received == v.stored
    || v.wrote + v.counted + v.waiting > 0 || v.dirty || v.stage == Some(Got)
  }

  predicate ViewInv(v: View) {
    && (v.stored.None? ==> v.wrote + v.counted + v.waiting == 0 && !v.dirty && v.stage.None?)
    && Fresh(v)
    && (v.requeues > 0 ==> v.counted + v.waiting > 0 || v.dirty || Active(v))
  }

  ghost predicate Inv(s: State) {
    Exclusive(s.pool) && forall t :: ViewInv(ViewOf(s, t))
  }

  lemma HolderStage(pool: Pool, w: nat)
    requires Exclusive(pool) && w in pool.busy
    ensures StageOf(pool, pool.busy[w].topic) == Some(pool.busy[w].stage)
  {
    var t := pool.busy[w].topic;
    assert exists x :: x in pool.busy && pool.busy[x].topic == t;
  }

  // The worker takes the topic, or moves on with the one it holds.
  lemma WorkOn(pool: Pool, w: nat, t: Topic, stage: Stage, pool': Pool)
    requires Exclusive(pool)
    requires if w in pool.busy then pool.busy[w].topic == t else t !in pool.processing
    requires pool' == Pool(pool.busy[w := Worker(t, stage)], pool.processing + {t})
    ensures Exclusive(pool')
  {
    forall u | u in pool'.processing ensures exists x :: x in pool'.busy && pool'.busy[x].topic == u {
      if u == t {
        assert pool'.busy[w].topic == t;
      } else {
        var x :| x in pool.busy && pool.busy[x].topic == u;
        assert x in pool'.busy && pool'.busy[x].topic == u;
      }
    }
  }

  lemma Release(pool: Pool, w: nat, pool': Pool)
    requires Exclusive(pool) && w in pool.busy
    requires pool' == Pool(pool.busy - {w}, pool.processing - {pool.busy[w].topic})
    ensures Exclusive(pool') && StageOf(pool', pool.busy[w].topic) == None
  {
    forall u | u in pool'.processing ensures exists x :: x in pool'.busy && pool'.busy[x].topic == u {
      var x :| x in pool.busy && pool.busy[x].topic == u;
      assert x in pool'.busy && pool'.busy[x].topic == u;
    }
  }

  // A change of one worker leaves the stage of every topic it neither held nor holds.
  lemma OtherStage(pool: Pool, pool': Pool, w: nat, t: Topic)
    requires Exclusive(pool) && Exclusive(pool')
    requires forall x :: x != w ==> (x in pool.busy <==> x in pool'.busy)
    requires forall x :: x != w && x in pool.busy ==> pool.busy[x] == pool'.busy[x]
    requires w in pool.busy ==> pool.busy[w].topic != t
    requires w in pool'.busy ==> pool'.busy[w].topic != t
    ensures StageOf(pool, t) == StageOf(pool', t)
  {
    if x :| x in pool.busy && pool.busy[x].topic == t {
      HolderStage(pool, x);
      HolderStage(pool', x);
    } else {
      assert forall x :: x in pool'.busy ==> pool'.busy[x].topic != t;
    }
  }

  lemma ExclusiveStep(c: Config, s: State, p: Step)
    requires Exclusive(s.pool) && Enabled(c, s, p)
    ensures Exclusive(NextPool(c, s, p))
  {
    if p.action.Done? {
      Release(s.pool, p.worker, NextPool(c, s, p));
    } else if ByWorker(p.action) {
      var stage := StageAfter(c, p.action, p.topic in s.store, Requeues(s, p.topic));
      WorkOn(s.pool, p.worker, p.topic, stage, NextPool(c, s, p));
    }
  }

  lemma StageUnchanged(c: Config, s: State, p: Step, t: Topic)
    requires Exclusive(s.pool) && Enabled(c, s, p) && p.topic != t
    ensures StageOf(NextPool(c, s, p), t) == StageOf(s.pool, t)
  {
    ExclusiveStep(c, s, p);
    if ByWorker(p.action) { OtherStage(s.pool, NextPool(c, s, p), p.worker, t); }
  }

  lemma EnabledView(c: Config, s: State, p: Step)
    requires Exclusive(s.pool) && Enabled(c, s, p)
    ensures ViewEnabled(ViewOf(s, p.topic), p.action)
  {
    if p.worker in s.pool.busy { HolderStage(s.pool, p.worker); }
  }

  lemma StageStep(c: Config, s: State, p: Step)
    requires Exclusive(s.pool) && Enabled(c, s, p)
    ensures StageOf(NextPool(c, s, p), p.topic) == ViewStage(c, ViewOf(s, p.topic), p.action)
  {
    ExclusiveStep(c, s, p);
    if p.action.Done? {
      Release(s.pool, p.worker, NextPool(c, s, p));
    } else if ByWorker(p.action) {
      HolderStage(NextPool(c, s, p), p.worker);
    }
  }

  predicate BySend(a: Action) {
    a.Store? || a.Count? || a.Enqueue?
  }

  lemma SendOwnData(s: State, p: Step)
    requires BySend(p.action) && ViewEnabled(ViewOf(s, p.topic), p.action)
    ensures ViewOf(NextData(s, p), p.topic) == ViewData(ViewOf(s, p.topic), p.action)
  {
  }

  lemma DelayOwnData(s: State, p: Step)
    requires !BySend(p.action) && !ByWorker(p.action) && ViewEnabled(ViewOf(s, p.topic), p.action)
    ensures ViewOf(NextData(s, p), p.topic) == ViewData(ViewOf(s, p.topic), p.action)
  {
  }

  lemma WorkerOwnData(s: State, p: Step)
    requires ByWorker(p.action) && ViewEnabled(ViewOf(s, p.topic), p.action)
    ensures ViewOf(NextData(s, p), p.topic) == ViewData(ViewOf(s, p.topic), p.action)
  {
  }

  lemma SendOtherData(s: State, p: Step, t: Topic)
    requires t != p.topic && BySend(p.action) && Supplied(s, p)
    ensures ViewOf(NextData(s, p), t) == ViewOf(s, t)
  {
  }

  lemma WorkerOtherData(s: State, p: Step, t: Topic)
    requires t != p.topic && ByWorker(p.action)
    ensures ViewOf(NextData(s, p), t) == ViewOf(s, t)
  {
  }

  lemma OtherData(s: State, p: Step, t: Topic)
    requires t != p.topic && Supplied(s, p)
    ensures ViewOf(NextData(s, p), t) == ViewOf(s, t)
  {
    if BySend(p.action) {
      SendOtherData(s, p, t);
    } else if ByWorker(p.action) {
      WorkerOtherData(s, p, t);
    }
  }

  // The pool decides nothing of a view but the stage.
  lemma ViewOfPool(s: State, pool: Pool, t: Topic)
    ensures ViewOf(s.(pool := pool), t) == ViewOf(s, t).(stage := StageOf(pool, t))
  {
  }

  /** A step of the machine is a step of its topic's view. */
  lemma StepOwnView(c: Config, s: State, p: Step)
    requires Exclusive(s.pool) && Enabled(c, s, p)
    ensures ViewEnabled(ViewOf(s, p.topic), p.action)
    ensures ViewOf(Next(c, s, p), p.topic) == ViewNext(c, ViewOf(s, p.topic), p.action)
  {
    EnabledView(c, s, p);
    StageStep(c, s, p);
    ViewOfPool(NextData(s, p), NextPool(c, s, p), p.topic);
    if BySend(p.action) {
      SendOwnData(s, p);
    } else if ByWorker(p.action) {
      WorkerOwnData(s, p);
    } else {
      DelayOwnData(s, p);
    }
  }

  /** A step leaves the view of every other topic alone. */
  lemma StepOtherView(c: Config, s: State, p: Step, t: Topic)
    requires Exclusive(s.pool) && Enabled(c, s, p) && p.topic != t
    ensures ViewOf(Next(c, s, p), t) == ViewOf(s, t)
  {
    StageUnchanged(c, s, p, t);
    ViewOfPool(NextData(s, p), NextPool(c, s, p), t);
    OtherData(s, p, t);
  }

  /******* Every reachable state meets the invariant *******/

  lemma ViewInvStep(c: Config, v: View, a: Action)
    requires ViewInv(v) && ViewEnabled(v, a)
    ensures ViewInv(ViewNext(c, v, a))
  {
  }

  lemma InvStep(c: Config, s: State, p: Step)
    requires Inv(s) && Enabled(c, s, p)
    ensures Inv(Next(c, s, p))
  {
    ExclusiveStep(c, s, p);
    forall t ensures ViewInv(ViewOf(Next(c, s, p), t)) {
      if t == p.topic {
        StepOwnView(c, s, p);
        ViewInvStep(c, ViewOf(s, t), p.action);
      } else {
        StepOtherView(c, s, p, t);
      }
    }
  }

  lemma {:induction false} InvRun(c: Config, s: State, run: seq<Step>)
    requires Inv(s) && Runnable(c, s, run)
    ensures Inv(Exec(c, s, run))
    decreases |run|
  {
    if |run| > 0 {
      InvStep(c, s, run[0]);
      InvRun(c, Next(c, s, run[0]), run[1..]);
    }
  }

  lemma InvReachable(c: Config, run: seq<Step>)
    requires Runnable(c, INIT, run)
    ensures Inv(Exec(c, INIT, run))
  {
    InvRun(c, INIT, run);
  }
}
