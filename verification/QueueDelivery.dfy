/** What the handler is given, told by the steps of a run alone. */
module QueueDelivery {
  import opened Wrappers
  import opened WorkQueue
  import opened QueueGuarantees

  predicate Sends(p: Step, t: Topic) {
    p.topic == t && p.action.Store?
  }

  predicate Reads(p: Step, t: Topic) {
    p.topic == t && p.action.Load?
  }

  // The entry of the last Send of the topic in the run.
  function LastSent(run: seq<Step>, t: Topic): Option<Entry> {
    if |run| == 0 then None
    else if Sends(run[|run| - 1], t) then Some(run[|run| - 1].action.entry)
    else LastSent(run[..|run| - 1], t)
  }

  // The entry of the last Send before the last time a worker read the topic.
  function LastRead(run: seq<Step>, t: Topic): Option<Entry> {
    if |run| == 0 then None
    else if Reads(run[|run| - 1], t) then LastSent(run[..|run| - 1], t)
    else LastRead(run[..|run| - 1], t)
  }

  // No worker has read the topic since its last Send.
  predicate Unread(run: seq<Step>, t: Topic) {
    |run| > 0
    && (Sends(run[|run| - 1], t) || (!Reads(run[|run| - 1], t) && Unread(run[..|run| - 1], t)))
  }

  function Found<T>(m: map<Topic, T>, t: Topic): Option<T> {
    if t in m then Some(m[t]) else None
  }

  lemma {:induction false} LastStep(c: Config, s: State, run: seq<Step>)
    requires |run| > 0 && Runnable(c, s, run)
    ensures Runnable(c, s, run[..|run| - 1]) && Enabled(c, Exec(c, s, run[..|run| - 1]), run[|run| - 1])
    ensures Exec(c, s, run) == Next(c, Exec(c, s, run[..|run| - 1]), run[|run| - 1])
    decreases |run|
  {
    var most, last := run[..|run| - 1], run[|run| - 1];
    if |run| == 1 {
      assert run[1..] == [];
    } else {
      LastStep(c, Next(c, s, run[0]), run[1..]);
      assert run[1..][..|run| - 2] == most[1..];
    }
  }

  lemma StoreStep(c: Config, s: State, s': State, p: Step, t: Topic)
    requires Enabled(c, s, p) && s' == Next(c, s, p)
    ensures Found(s'.store, t) == if Sends(p, t) then Some(p.action.entry) else Found(s.store, t)
  {
  }

  lemma ReceivedStep(c: Config, s: State, s': State, p: Step, t: Topic)
    requires Enabled(c, s, p) && s' == Next(c, s, p) && (p.action.Load? ==> p.topic in s.store)
    ensures Found(s'.received, t) == if Reads(p, t) then Found(s.store, t) else Found(s.received, t)
  {
  }

  /** The store holds the entry of the last Send of each topic. */
  lemma {:induction false} StoreIsLastSent(c: Config, run: seq<Step>, t: Topic)
    requires Runnable(c, INIT, run)
    ensures Found(Exec(c, INIT, run).store, t) == LastSent(run, t)
    decreases |run|
  {
    if |run| > 0 {
      var most := run[..|run| - 1];
      LastStep(c, INIT, run);
      StoreIsLastSent(c, most, t);
      StoreStep(c, Exec(c, INIT, most), Exec(c, INIT, run), run[|run| - 1], t);
    }
  }

  /** What the handler was last given is what had been sent last when its worker read it. */
  lemma {:induction false} ReceivedIsLastRead(c: Config, run: seq<Step>, t: Topic)
    requires Runnable(c, INIT, run)
    ensures Found(Exec(c, INIT, run).received, t) == LastRead(run, t)
    decreases |run|
  {
    if |run| > 0 {
      var most, p := run[..|run| - 1], run[|run| - 1];
      LastStep(c, INIT, run);
      ReceivedIsLastRead(c, most, t);
      StoreIsLastSent(c, most, t);
      if p.action.Load? {
        KeyNeverMissing(c, most, p);
      }
      ReceivedStep(c, Exec(c, INIT, most), Exec(c, INIT, run), p, t);
    }
  }

  // Somebody is still to read the topic.
  predicate Pending(v: View) {
    v.wrote + v.counted + v.waiting > 0 || v.dirty || v.stage == Some(Got)
  }

  lemma PendingAction(c: Config, v: View, a: Action)
    requires ViewEnabled(v, a) && (a.Store? || (!a.Load? && Pending(v)))
    ensures Pending(ViewNext(c, v, a))
  {
  }

  lemma PendingStep(c: Config, s: State, s': State, p: Step, t: Topic)
    requires Inv(s) && Enabled(c, s, p) && s' == Next(c, s, p)
    requires Sends(p, t) || (!Reads(p, t) && Pending(ViewOf(s, t)))
    ensures Pending(ViewOf(s', t))
  {
    if p.topic == t {
      StepOwnView(c, s, p);
      PendingAction(c, ViewOf(s, t), p.action);
    } else {
      StepOtherView(c, s, p, t);
    }
  }

  lemma {:induction false} UnreadIsPending(c: Config, run: seq<Step>, t: Topic)
    requires Runnable(c, INIT, run) && Unread(run, t)
    ensures Pending(ViewOf(Exec(c, INIT, run), t))
    decreases |run|
  {
    var most := run[..|run| - 1];
    LastStep(c, INIT, run);
    InvReachable(c, most);
    if !Sends(run[|run| - 1], t) {
      UnreadIsPending(c, most, t);
    }
    PendingStep(c, Exec(c, INIT, most), Exec(c, INIT, run), run[|run| - 1], t);
  }

  /** No lost update, told by the steps: when a topic is quiet, a worker has read it after its
      last Send, and what the handler was last given is the entry of that Send. */
  lemma LastSendDelivered(c: Config, run: seq<Step>, t: Topic)
    requires Runnable(c, INIT, run) && Quiet(Exec(c, INIT, run), t) && LastSent(run, t).Some?
    ensures !Unread(run, t)
    ensures Found(Exec(c, INIT, run).received, t) == LastSent(run, t) == LastRead(run, t)
  {
    StoreIsLastSent(c, run, t);
    NoLostUpdate(c, run, t);
    ReceivedIsLastRead(c, run, t);
    if Unread(run, t) {
      UnreadIsPending(c, run, t);
    }
  }

  /** A success is final: with nothing else pending, a topic that was handled without an
      error is not handled again until a new Send. */
  lemma SuccessIsFinal(c: Config, s: State, t: Topic, w: nat, run: seq<Step>)
    requires Inv(s) && Holds(s.pool, w, t, Handling) && Tokens(ViewOf(s, t)) == 1
    requires Runnable(c, s, [Step(t, Return(true), w)] + run) && NoNewSend(run, t)
    ensures Calls(Exec(c, s, [Step(t, Return(true), w)] + run), t) == Calls(s, t)
  {
    var p := Step(t, Return(true), w);
    assert ([p] + run)[0] == p && ([p] + run)[1..] == run;
    InvStep(c, s, p);
    StepOwnView(c, s, p);
    CallsBounded(c, Next(c, s, p), run, t);
    CallsGrow(c, Next(c, s, p), run, t);
  }

  lemma {:induction false} CallsGrow(c: Config, s: State, run: seq<Step>, t: Topic)
    requires Inv(s) && Runnable(c, s, run)
    ensures Calls(Exec(c, s, run), t) >= Calls(s, t)
    decreases |run|
  {
    if |run| > 0 {
      InvStep(c, s, run[0]);
      if run[0].topic == t {
        StepOwnView(c, s, run[0]);
      } else {
        StepOtherView(c, s, run[0], t);
      }
      CallsGrow(c, Next(c, s, run[0]), run[1..], t);
    }
  }
}
