/** The reconcilers' own code: every run of it is a run of the finalizer protocol. */
module Reconcilers {
  import opened Wrappers
  import opened Finalizers

  // One call: what users do before it, whether the process dies there, and how it ends.
  datatype Call = Call(users: seq<Step>, crash: bool, ok: bool, write: Write)

  // A deployment runtime all of whose projects are illegal is not an error, but is not run.
  datatype Validity = AllValid | NoValidProject | ValidationError

  datatype Script = Script(
    cached: Option<Object>, get: Call, newTask: Call, delete: Call, update: Call,
    validate: Call, validity: Validity, sync: Call, status: Call)

  // The call succeeds, and nobody comes before it.
  predicate Smooth(call: Call) {
    call.users == [] && !call.crash && call.ok && call.write.Success?
  }

  predicate AllSmooth(script: Script) {
    && Smooth(script.get) && Smooth(script.newTask) && Smooth(script.delete) && Smooth(script.update)
    && Smooth(script.validate) && Smooth(script.sync) && Smooth(script.status) && script.validity.AllValid?
  }

  predicate ByUser(p: Step) {
    p.Create? || p.Edit? || p.UserDelete?
  }

  lemma {:induction false} ExecSnoc(c: Config, s: State, run: seq<Step>, p: Step)
    requires Runnable(c, s, run) && Enabled(c, Exec(c, s, run), p)
    ensures Runnable(c, s, run + [p]) && Exec(c, s, run + [p]) == Next(c, Exec(c, s, run), p)
    decreases |run|
  {
    var all := run + [p];
    if |run| == 0 {
      assert all[1..] == [];
    } else {
      ExecSnoc(c, Next(c, s, run[0]), run[1..], p);
      assert all[1..] == run[1..] + [p];
    }
  }

  lemma NewestStep(c: Config, s: State, p: Step)
    requires Newest(s) && Enabled(c, s, p)
    ensures Newest(Next(c, s, p))
  {
  }

  /** The API server, the syncer and the reconciler's progress. */
  class World {
    const config: Config
    var state: State
    ghost var run: seq<Step>

    ghost predicate Valid()
      reads this
    {
      Runnable(config, INIT, run) && state == Exec(config, INIT, run) && Newest(state)
    }

    constructor (config: Config)
      ensures Valid() && this.config == config && state == INIT && run == []
    {
      this.config := config;
      state := INIT;
      run := [];
    }

    method Do(p: Step)
      requires Valid() && Enabled(config, state, p)
      modifies this
      ensures Valid() && state == Next(config, old(state), p) && run == old(run) + [p]
    {
      ghost var before := state;
      ExecSnoc(config, INIT, run, p);
      NewestStep(config, state, p);
      state := Next(config, state, p);
      run := run + [p];
    }

    // The users' steps, as far as they are possible; then the process may die.
    method Before(call: Call) returns (alive: bool)
      requires Valid()
      modifies this
      ensures Valid() && old(run) <= run
      ensures alive <==> !call.crash
      ensures alive ==> state.phase == old(state.phase)
      ensures !alive ==> state.phase.Idle?
      ensures Smooth(call) ==> alive && state == old(state)
      ensures state.synced == old(state.synced) && state.cleaned == old(state.cleaned)
    {
      for i := 0 to |call.users|
        invariant Valid() && old(run) <= run && state.phase == old(state.phase)
        invariant state.synced == old(state.synced) && state.cleaned == old(state.cleaned)
        invariant i == 0 ==> state == old(state)
      {
        if ByUser(call.users[i]) && Enabled(config, state, call.users[i]) {
          Do(call.users[i]);
        }
      }
      if call.crash {
        Do(Crash);
      }
      return !call.crash;
    }

    // An absent object is no error.
    method Get(script: Script) returns (ok: bool, found: Option<Object>)
      requires Valid() && state.phase.Idle?
      modifies this
      ensures Valid() && old(run) <= run
      ensures found.Some? ==> ok && state.phase == Fetched(found.value)
      ensures found.None? ==> state.phase.Idle?
      ensures script.get.crash || !script.get.ok ==> !ok && found.None?
      ensures Smooth(script.get) && (config.source.Linearizable? || script.cached.None?) ==>
        ok && found == old(state.server) && state.server == old(state.server)
      ensures state.synced == old(state.synced) && state.cleaned == old(state.cleaned)
    {
      var alive := Before(script.get);
      if !alive || !script.get.ok {
        return false, None;
      }
      if !config.source.Linearizable? && script.cached.Some? && Enabled(config, state, Fetch(script.cached.value)) {
        Do(Fetch(script.cached.value));
        return true, script.cached;
      }
      found := state.server;
      if found.Some? {
        Do(Fetch(found.value));
      }
      return true, found;
    }

    // Whether the caller hears that its write was stored.
    method Update(p: Step, call: Call) returns (ok: bool)
      requires Valid() && (p == RemoveFinalizer(call.write) || p == AddFinalizer(call.write))
      requires Enabled(config, state, p)
      modifies this
      ensures Valid() && old(run) <= run
      ensures ok && p.AddFinalizer? ==> state.phase.Guarded? && state.phase.local.uid == old(state.phase.local.uid)
      ensures !ok || p.RemoveFinalizer? ==> state.phase.Idle?
      ensures ok && p.AddFinalizer? ==> StoredGuarded(state, state.phase.local.uid)
      ensures ok && p.RemoveFinalizer? ==> Released(state)
      ensures ok ==> call.write.Success? && !call.crash
      ensures Smooth(call) && Current(old(state), old(state).phase.local) ==>
        ok && (p.AddFinalizer? ==> Current(state, state.phase.local))
      ensures state.synced == old(state.synced) && state.cleaned == old(state.cleaned)
    {
      var alive := Before(call);
      if !alive {
        return false;
      }
      ok := Applies(state, state.phase.local, call.write) && call.write.Success?;
      Do(p);
    }

    // Whether the caller hears that its status was stored.
    method ReportStatus(call: Call) returns (ok: bool)
      requires Valid() && state.phase.Reporting?
      modifies this
      ensures Valid() && old(run) <= run && state.phase.Idle?
      ensures state.synced == old(state.synced) && state.cleaned == old(state.cleaned)
      ensures !call.crash ==> |run| > 0 && run[|run| - 1] == UpdateStatus(call.write)
      ensures ok ==> call.write.Success? && !call.crash
      ensures Smooth(call) && Current(old(state), old(state).phase.local) ==> ok
    {
      var alive := Before(call);
      if !alive {
        return false;
      }
      ok := Applies(state, state.phase.local, call.write) && call.write.Success?;
      Do(UpdateStatus(call.write));
    }

    // The object that is being deleted is cleaned up, then released.
    method CleanUp(script: Script, o: Object) returns (ok: bool)
      requires Valid() && state.phase == Tasked(o) && o.deleting && o.guarded
      modifies this
      ensures Valid() && old(run) <= run && state.phase.Idle?
      ensures ok ==> o.uid in state.cleaned && o.uid !in state.synced && Released(state)
      ensures CleanUpOutcome(script, old(state), state, o, ok)
      ensures !script.delete.crash && !script.delete.ok && !script.status.crash ==> Reported(run, script)
      ensures AllSmooth(script) && Current(old(state), o) ==> ok
      ensures OnlyFor(old(state), state, o.uid)
    {
      var alive := Before(script.delete);
      if !alive {
        return false;
      }
      Do(Delete(script.delete.ok));
      if !script.delete.ok {
        var _ := ReportStatus(script.status);
        return false;
      }
      ok := Update(RemoveFinalizer(script.update.write), script.update);
    }

    // The guarded object is synced, and its status written; both may fail.
    method RunSync(script: Script) returns (ok: bool, reported: bool)
      requires Valid() && state.phase.Valid?
      modifies this
      ensures Valid() && old(run) <= run && state.phase.Idle?
      ensures ok ==> old(state.phase.local.uid) in state.synced && script.sync.ok
      ensures reported ==> script.status.write.Success? && !script.status.crash
      ensures !script.sync.crash ==> old(state.phase.local.uid) in state.synced && (ok <==> script.sync.ok)
      ensures script.sync.crash ==> !ok && Untouched(old(state), state)
      ensures !script.sync.crash && !script.status.crash ==> Reported(run, script)
      ensures Smooth(script.sync) ==> ok
      ensures Smooth(script.sync) && Smooth(script.status) && Current(old(state), old(state).phase.local) ==> reported
      ensures OnlyFor(old(state), state, old(state.phase.local.uid))
    {
      var alive := Before(script.sync);
      if !alive {
        return false, false;
      }
      Do(Sync);
      reported := ReportStatus(script.status);
      return script.sync.ok, reported;
    }

    /** Whatever users do, wherever it dies and however its calls end, Reconcile follows the
        protocol, so what is synced stays guarded. Without an error a deleted object is
        cleaned up, and any other is synced; and left alone it deals without an error with
        what the server stores. */
    method ReconcileProduct(script: Script) returns (ok: bool, found: Option<Object>)
      requires Valid() && config.kind.ProductKind? && state.phase.Idle?
      modifies this
      ensures Valid() && old(run) <= run && state.phase.Idle? && Safe(state)
      ensures script.get.crash || !script.get.ok ==> !ok && found.None?
      ensures found.Some? && found.value.deleting && !found.value.guarded ==> ok && Untouched(old(state), state)
      ensures found.Some? && found.value.deleting && found.value.guarded ==>
        CleanUpOutcome(script, old(state), state, found.value, ok)
      ensures found.Some? && !found.value.deleting && !Stores(script.update) ==> !ok && Untouched(old(state), state)
      ensures found.Some? && !found.value.deleting && ok ==>
        script.sync.ok && (script.status.crash || Reported(run, script))
      ensures ok && found.Some? ==> Reconciled(state, found.value, AllValid)
      ensures AllSmooth(script) && script.cached.None? ==> ok && found == old(state.server)
      ensures if found.Some? then OnlyFor(old(state), state, found.value.uid) else Untouched(old(state), state)
    {
      ok, found := Get(script);
      if found.Some? {
        var o := found.value;
        Do(NewTask(true));        // a product needs no task
        if o.deleting {
          if o.guarded {
            ok := CleanUp(script, o);
          }
        } else {
          ok := Update(AddFinalizer(script.update.write), script.update);
          if ok {
            Do(Validate(true));   // nor is it validated
            var reported;         // a lost status is logged only
            ok, reported := RunSync(script);
          }
        }
      }
      SyncedStaysGuarded(config, run);
    }

    /** The same for both runtime reconcilers, as long as their reads never go back. */
    method ReconcileRuntime(script: Script) returns (ok: bool, found: Option<Object>)
      requires Valid() && config.kind.RuntimeKind? && state.phase.Idle?
      modifies this
      ensures Valid() && old(run) <= run && state.phase.Idle?
      ensures Sufficient(config) ==> Safe(state)
      ensures script.get.crash || !script.get.ok ==> !ok && found.None?
      ensures found.Some? && (script.newTask.crash || !script.newTask.ok) ==> !ok && Untouched(old(state), state)
      ensures found.Some? && found.value.deleting && !found.value.guarded ==> Untouched(old(state), state)
      ensures found.Some? && found.value.deleting && found.value.guarded && Works(script.newTask) ==>
        CleanUpOutcome(script, old(state), state, found.value, ok)
      ensures found.Some? && !found.value.deleting && !found.value.guarded && !Stores(script.update) ==>
        !ok && Untouched(old(state), state)
      ensures found.Some? && !found.value.deleting && !script.validity.AllValid? ==> Untouched(old(state), state)
      ensures found.Some? && !found.value.deleting && found.value.guarded && script.validity.NoValidProject? ==>
        (ok <==> Works(script.newTask) && !script.validate.crash)
      ensures found.Some? && !found.value.deleting && script.validity.NoValidProject? && ok ==>
        Works(script.newTask) && !script.validate.crash
      ensures found.Some? && !found.value.deleting && script.validity.ValidationError? ==> !ok
      ensures found.Some? && !found.value.deleting && ok && script.validity.AllValid? ==>
        script.sync.ok && script.status.write.Success? && Reported(run, script)
      ensures ok && found.Some? ==> Reconciled(state, found.value, script.validity)
      ensures AllSmooth(script) && script.cached.None? ==> ok && found == old(state.server)
      ensures if found.Some? then OnlyFor(old(state), state, found.value.uid) else Untouched(old(state), state)
    {
      ok, found := Get(script);
      if found.Some? {
        var o := found.value;
        var tasked := MakeTask(script);
        ok := tasked;
        if tasked && o.deleting {
          if o.guarded {
            ok := CleanUp(script, o);
          }
        } else if tasked {
          ok := Guard(script, o);
          if ok {
            ok := ValidateAndRun(script);
          }
        }
      }
      if Sufficient(config) {
        SyncedStaysGuarded(config, run);
      }
    }

    method MakeTask(script: Script) returns (ok: bool)
      requires Valid() && config.kind.RuntimeKind? && state.phase.Fetched?
      modifies this
      ensures Valid() && old(run) <= run && Untouched(old(state), state)
      ensures var o := old(state.phase.local);
        state.phase == if ok && !(o.deleting && !o.guarded) then Tasked(o) else Idle
      ensures ok <==> Works(script.newTask)
      ensures Smooth(script.newTask) ==> ok && state.server == old(state.server)
    {
      var alive := Before(script.newTask);
      if !alive {
        return false;
      }
      Do(NewTask(script.newTask.ok));
      return script.newTask.ok;
    }

    // A finalizer that the local copy has already is not written again.
    method Guard(script: Script, o: Object) returns (ok: bool)
      requires Valid() && config.kind.RuntimeKind? && state.phase == Tasked(o) && !o.deleting
      modifies this
      ensures Valid() && old(run) <= run && Untouched(old(state), state)
      ensures if ok then state.phase.Guarded? && state.phase.local.uid == o.uid else state.phase.Idle?
      ensures ok ==> o.guarded || Stores(script.update)
      ensures o.guarded ==> ok
      ensures Smooth(script.update) && Current(old(state), o) ==> ok && Current(state, state.phase.local)
    {
      if o.guarded {
        Do(SkipAdd);
        return true;
      }
      ok := Update(AddFinalizer(script.update.write), script.update);
    }

    method ValidateAndRun(script: Script) returns (ok: bool)
      requires Valid() && config.kind.RuntimeKind? && state.phase.Guarded?
      modifies this
      ensures Valid() && old(run) <= run && state.phase.Idle?
      ensures ok && script.validity.AllValid? ==>
        && old(state.phase.local.uid) in state.synced && script.sync.ok && script.status.write.Success?
        && Reported(run, script)
      ensures ok ==> !script.validity.ValidationError?
      ensures !script.validity.AllValid? ==> state.synced == old(state.synced) && state.cleaned == old(state.cleaned)
      ensures !script.validity.AllValid? && !script.validate.crash && !script.status.crash ==> Reported(run, script)
      ensures script.validity.NoValidProject? ==> (ok <==> !script.validate.crash)
      ensures AllSmooth(script) && Current(old(state), old(state).phase.local) ==> ok
      ensures OnlyFor(old(state), state, old(state.phase.local.uid))
    {
      var alive := Before(script.validate);
      if !alive {
        return false;
      }
      Do(Validate(script.validity.AllValid?));
      if !script.validity.AllValid? {
        var _ := ReportStatus(script.status);
        return script.validity.NoValidProject?;
      }
      var ran, reported := RunSync(script);
      return ran && reported;
    }
  }

  // The call comes to its end, and without an error.
  predicate Works(call: Call) {
    !call.crash && call.ok
  }

  predicate Stores(call: Call) {
    !call.crash && call.write.Success?
  }

  // The last step was the status write.
  predicate Reported(run: seq<Step>, script: Script) {
    |run| > 0 && run[|run| - 1] == UpdateStatus(script.status.write)
  }

  // A failed Delete leaves the record of calls alone and is an error; after a successful
  // one the object is cleaned up, even if the finalizer could not be removed.
  predicate CleanUpOutcome(script: Script, s: State, s': State, o: Object, ok: bool) {
    && (if Works(script.delete) then o.uid in s'.cleaned && o.uid !in s'.synced else !ok && Untouched(s, s'))
    && (ok ==> Stores(script.update) && Released(s'))
  }

  predicate Released(s: State) {
    s.server.None? || !s.server.value.guarded
  }

  predicate Untouched(s: State, s': State) {
    s'.synced == s.synced && s'.cleaned == s.cleaned
  }

  // Nothing is synced or cleaned up but this object.
  predicate OnlyFor(s: State, s': State, uid: nat) {
    s'.synced - {uid} == s.synced - {uid} && s'.cleaned - {uid} == s.cleaned - {uid}
  }

  // What a run without an error has done about the object it found.
  predicate Reconciled(s: State, o: Object, validity: Validity) {
    if o.deleting then o.guarded ==> o.uid in s.cleaned && o.uid !in s.synced && Released(s)
    else validity.AllValid? ==> o.uid in s.synced
  }
}
