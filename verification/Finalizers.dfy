/**
 The finalizer protocol of the product, deployment runtime and pipeline runtime
 reconcilers, for one object key.

 The API server is a store with version-checked writes; it removes an object once
 that is being deleted and holds no finalizer. Users create, edit and delete the object
 at any moment, and the reconciler may crash between any two calls. A write may be
 lost, or be applied while its answer is lost. Reads are linearizable or come from a cache
 that may be behind. A cache never goes back while the process lives, but after a restart
 it may be filled by a server that is behind what the process had seen.
*/
module Finalizers {
  import opened Wrappers

  // The product reconciler writes its finalizer on every run; the runtime reconcilers
  // build a task first, write only if the finalizer is absent, and validate before they run.
  datatype Kind = ProductKind | RuntimeKind

  // Forward: never an older version than one read before, by whatever process.
  // PerProcess: the same, until the process dies.
  datatype Reads = Linearizable | Forward | PerProcess

  datatype Config = Config(kind: Kind, source: Reads)

  // `guarded`: our finalizer is set. `others`: some other finalizer is set.
  datatype Object = Object(uid: nat, version: nat, guarded: bool, others: bool, deleting: bool)

  datatype Phase =
    | Idle
    | Fetched(local: Object)      // after Get
    | Tasked(local: Object)       // after NewTask
    | Cleaned(local: Object)      // Delete succeeded; the finalizer is still to be removed
    | Guarded(local: Object)      // the finalizer is stored
    | Valid(local: Object)        // Validate passed
    | Reporting(local: Object)    // only the status write is left

  /** `synced` holds the incarnations whose Sync or Run was called since their last
      successful Delete, `cleaned` those whose Delete succeeded; `history` every version
      ever stored. Cached reads do not go back behind `floor`. */
  datatype State = State(
    server: Option<Object>, nextUid: nat, nextVersion: nat,
    phase: Phase, synced: set<nat>, cleaned: set<nat>, history: set<Object>, floor: nat)

  const INIT := State(None, 0, 0, Idle, {}, {}, {}, 0)

  // How a write ends: what the server did, and what the caller hears.
  datatype Write = Success | Refused | AnswerLost

  datatype Step =
    | Create(others: bool)
    | Edit(others: bool)          // a user edit; it may set or remove other finalizers
    | UserDelete
    | Fetch(found: Object)
    | NewTask(ok: bool)
    | Delete(ok: bool)
    | RemoveFinalizer(w: Write)
    | AddFinalizer(w: Write)
    | SkipAdd
    | Validate(ok: bool)
    | Sync                        // Syncer.Sync or task.Run, whatever it returns
    | UpdateStatus(w: Write)
    | Crash

  predicate Enabled(c: Config, s: State, p: Step) {
    match p
    case Create(_) => s.server.None?
    case Edit(_) => s.server.Some?
    case UserDelete => s.server.Some? && !s.server.value.deleting
    case Fetch(o) =>
      s.phase.Idle? && o in s.history
      && (if c.source.Linearizable? then s.server == Some(o) else s.floor <= o.version)
    case NewTask(ok) => s.phase.Fetched? && (c.kind.ProductKind? ==> ok)
    case Delete(_) => s.phase.Tasked? && s.phase.local.deleting && s.phase.local.guarded
    case RemoveFinalizer(_) => s.phase.Cleaned?
    case AddFinalizer(_) =>
      s.phase.Tasked? && !s.phase.local.deleting && (c.kind.RuntimeKind? ==> !s.phase.local.guarded)
    case SkipAdd => s.phase.Tasked? && !s.phase.local.deleting && c.kind.RuntimeKind? && s.phase.local.guarded
    case Validate(ok) => s.phase.Guarded? && (c.kind.ProductKind? ==> ok)
    case Sync => s.phase.Valid?
    case UpdateStatus(_) => s.phase.Reporting?
    case Crash => true
  }

  // The server keeps a changed object, unless it is being deleted and nothing holds it.
  function Put(s: State, o: Object): State {
    var o' := o.(version := s.nextVersion);
    if o.deleting && !o.guarded && !o.others then s.(server := None, nextVersion := s.nextVersion + 1)
    else s.(server := Some(o'), nextVersion := s.nextVersion + 1, history := s.history + {o'})
  }

  // A write carries the version the caller read.
  predicate Current(s: State, local: Object) {
    s.server.Some? && s.server.value.version == local.version
  }

  predicate Applies(s: State, local: Object, w: Write) {
    Current(s, local) && !w.Refused?
  }

  function Next(c: Config, s: State, p: Step): State
    requires Enabled(c, s, p)
  {
    match p
    case Create(others) =>
      Put(s.(nextUid := s.nextUid + 1), Object(s.nextUid, s.nextVersion, false, others, false))
    case Edit(others) => Put(s, s.server.value.(others := others))
    case UserDelete => Put(s, s.server.value.(deleting := true))
    case Fetch(o) => s.(phase := Fetched(o), floor := o.version)
    case NewTask(ok) =>
      var o := s.phase.local;
      if !ok || (o.deleting && !o.guarded) then s.(phase := Idle) else s.(phase := Tasked(o))
    case Delete(ok) =>
      var o := s.phase.local;
      if ok then s.(phase := Cleaned(o), synced := s.synced - {o.uid}, cleaned := s.cleaned + {o.uid})
      else s.(phase := Reporting(o))
    case RemoveFinalizer(w) =>
      var o := s.phase.local;
      (if Applies(s, o, w) then Put(s, o.(guarded := false)) else s).(phase := Idle)
    case AddFinalizer(w) =>
      var o := s.phase.local;
      if !Applies(s, o, w) then s.(phase := Idle)
      else
        var s' := Put(s, o.(guarded := true));
        s'.(phase := if w.Success? then Guarded(o.(guarded := true, version := s.nextVersion)) else Idle)
    case SkipAdd => s.(phase := Guarded(s.phase.local))
    case Validate(ok) => s.(phase := if ok then Valid(s.phase.local) else Reporting(s.phase.local))
    case Sync => s.(phase := Reporting(s.phase.local), synced := s.synced + {s.phase.local.uid})
    case UpdateStatus(w) =>
      var o := s.phase.local;
      (if Applies(s, o, w) then Put(s, s.server.value) else s).(phase := Idle)
    case Crash => s.(phase := Idle, floor := if c.source.PerProcess? then 0 else s.floor)
  }

  predicate Runnable(c: Config, s: State, run: seq<Step>)
    decreases |run|
  {
    |run| == 0 || (Enabled(c, s, run[0]) && Runnable(c, Next(c, s, run[0]), run[1..]))
  }

  function Exec(c: Config, s: State, run: seq<Step>): State
    requires Runnable(c, s, run)
    decreases |run|
  {
    if |run| == 0 then s else Exec(c, Next(c, s, run[0]), run[1..])
  }

  predicate StoredGuarded(s: State, uid: nat) {
    s.server.Some? && s.server.value.uid == uid && s.server.value.guarded
  }

  // Whatever was synced for an object is guarded by the finalizer of that very object.
  predicate Safe(s: State) {
    forall u :: u in s.synced ==> StoredGuarded(s, u)
  }

  // What the reconciler's order of calls is enough for.
  predicate Sufficient(c: Config) {
    !c.source.PerProcess? || c.kind.ProductKind?
  }

  /******* The invariant *******/

  predicate StoredDeleting(s: State, uid: nat) {
    s.server.Some? && s.server.value.uid == uid ==> s.server.value.deleting
  }

  // Versions name objects, and a deletion is never undone.
  predicate HistoryInv(s: State) {
    && (forall o :: o in s.history ==> o.uid < s.nextUid && o.version < s.nextVersion)
    && (forall o, p :: o in s.history && p in s.history && o.version == p.version ==> o == p)
    && (forall o, p :: o in s.history && p in s.history && o.uid == p.uid && o.deleting && o.version <= p.version ==>
          p.deleting)
    && (forall o :: o in s.history && o.deleting ==> StoredDeleting(s, o.uid))
    && (s.server.Some? ==> s.server.value in s.history)
  }

  // The stored version is the newest, and no read has gone past it.
  predicate Newest(s: State) {
    && (forall o :: o in s.history ==> o.version < s.nextVersion) && s.floor <= s.nextVersion
    && (s.server.Some? ==>
          && s.server.value in s.history && s.floor <= s.server.value.version
          && forall o :: o in s.history ==> o.version <= s.server.value.version)
  }

  // A deletion of this incarnation has been read.
  predicate SeenDeleting(s: State, uid: nat) {
    exists o :: o in s.history && o.uid == uid && o.deleting && o.version <= s.floor
  }

  // What the local copy tells about the server.
  predicate LocalInv(c: Config, s: State) {
    !s.phase.Idle? ==>
      var o := s.phase.local;
      && o in s.history
      && (!c.source.PerProcess? && !o.deleting ==> o.uid !in s.cleaned)
      && (s.phase.Fetched? || s.phase.Tasked? ==> o.version <= s.floor)
      && (s.phase.Cleaned? ==> o.deleting && o.uid !in s.synced && o.uid in s.cleaned)
      && (s.phase.Tasked? && o.deleting ==> o.guarded)
      && (s.phase.Guarded? || s.phase.Valid? ==> StoredGuarded(s, o.uid) && o.uid !in s.cleaned)
  }

  // What holds of the server and of the record of calls, whatever the reconciler does next:
  // only the clean-up of an object takes the finalizer from it.
  predicate ServerInv(s: State) {
    && HistoryInv(s) && Newest(s)
    && (forall u :: u in s.synced ==> StoredGuarded(s, u) && u !in s.cleaned)
    && (forall u :: u in s.cleaned ==> u < s.nextUid && StoredDeleting(s, u))
    && (forall o :: o in s.history && o.guarded && o.uid !in s.cleaned ==> StoredGuarded(s, o.uid))
  }

  // Reads that never go back have gone past the deletion of what was cleaned up.
  predicate SeenInv(c: Config, s: State) {
    c.source.Forward? ==> forall u :: u in s.cleaned ==> SeenDeleting(s, u)
  }

  predicate Inv(c: Config, s: State) {
    ServerInv(s) && LocalInv(c, s) && SeenInv(c, s)
  }

  // The object is new, or follows the stored one.
  predicate Follows(s: State, o: Object) {
    if s.server.Some? then o.uid == s.server.value.uid && (s.server.value.deleting ==> o.deleting)
    else o.uid < s.nextUid && o.uid !in s.cleaned && forall p :: p in s.history ==> p.uid != o.uid
  }

  // A finalizer is taken from an object that has been cleaned up only.
  predicate KeepsGuard(s: State, o: Object) {
    && (o.uid in s.synced ==> o.guarded)
    && (s.server.Some? && s.server.value.guarded && o.uid !in s.cleaned ==> o.guarded)
  }

  lemma PutHistory(s: State, o: Object)
    requires HistoryInv(s) && Follows(s, o)
    ensures HistoryInv(Put(s, o))
  {
  }

  lemma PutNewest(s: State, o: Object)
    requires Newest(s)
    ensures Newest(Put(s, o))
  {
  }

  // Storing an object that does not lose a finalizer in use keeps the server right.
  lemma PutServer(s: State, o: Object)
    requires ServerInv(s) && Follows(s, o) && KeepsGuard(s, o)
    ensures ServerInv(Put(s, o))
  {
    PutHistory(s, o);
    PutNewest(s, o);
  }

  // A user's write changes neither our finalizer nor what the reconciler relies on.
  lemma UserLocal(c: Config, s: State, o: Object)
    requires ServerInv(s) && LocalInv(c, s)
    requires s.server.Some? && o.uid == s.server.value.uid && o.guarded == s.server.value.guarded
    ensures LocalInv(c, Put(s, o))
  {
  }

  lemma NewServer(s: State)
    requires ServerInv(s)
    ensures ServerInv(s.(nextUid := s.nextUid + 1))
  {
  }

  lemma CreateStep(c: Config, s: State, others: bool)
    requires ServerInv(s) && LocalInv(c, s) && s.server.None?
    ensures ServerInv(Next(c, s, Create(others))) && LocalInv(c, Next(c, s, Create(others)))
  {
    var o := Object(s.nextUid, s.nextVersion, false, others, false);
    NewServer(s);
    CreateServer(s.(nextUid := s.nextUid + 1), o);
    CreateLocal(c, s, s.(nextUid := s.nextUid + 1), o);
  }

  lemma CreateServer(s: State, o: Object)
    requires ServerInv(s) && s.server.None? && o.uid < s.nextUid && o.uid !in s.cleaned && !o.deleting
    requires forall p :: p in s.history ==> p.uid != o.uid
    ensures ServerInv(Put(s, o))
  {
    PutServer(s, o);
  }

  lemma CreateLocal(c: Config, s: State, s': State, o: Object)
    requires LocalInv(c, s) && s.server.None? && s' == s.(nextUid := s'.nextUid)
    ensures LocalInv(c, Put(s', o))
  {
  }

  lemma UserStep(c: Config, s: State, p: Step)
    requires ServerInv(s) && LocalInv(c, s) && Enabled(c, s, p) && (p.Edit? || p.UserDelete?)
    ensures ServerInv(Next(c, s, p)) && LocalInv(c, Next(c, s, p))
  {
    var o := s.server.value;
    var o' := if p.Edit? then o.(others := p.others) else o.(deleting := true);
    PutServer(s, o');
    UserLocal(c, s, o');
  }

  // A write that the server accepts was made from the stored object.
  lemma CurrentIsLocal(c: Config, s: State)
    requires ServerInv(s) && LocalInv(c, s) && !s.phase.Idle? && Current(s, s.phase.local)
    ensures s.server.value == s.phase.local
  {
  }

  lemma PhaseServer(s: State, phase: Phase)
    requires ServerInv(s)
    ensures ServerInv(s.(phase := phase))
  {
  }

  lemma RemoveStep(c: Config, s: State, w: Write)
    requires ServerInv(s) && LocalInv(c, s) && s.phase.Cleaned?
    ensures ServerInv(Next(c, s, RemoveFinalizer(w)))
  {
    if Applies(s, s.phase.local, w) {
      CurrentIsLocal(c, s);
      Release(s, s.phase.local);
      PhaseServer(Put(s, s.phase.local.(guarded := false)), Idle);
      assert Next(c, s, RemoveFinalizer(w)) == Put(s, s.phase.local.(guarded := false)).(phase := Idle);
    } else {
      PhaseServer(s, Idle);
      assert Next(c, s, RemoveFinalizer(w)) == s.(phase := Idle);
    }
  }

  lemma Release(s: State, o: Object)
    requires ServerInv(s) && s.server == Some(o) && o.uid in s.cleaned && o.uid !in s.synced
    ensures ServerInv(Put(s, o.(guarded := false)))
  {
    PutServer(s, o.(guarded := false));
  }

  // What is stored with the finalizer may be synced from now on.
  lemma AddLocal(c: Config, s: State, w: Write)
    requires ServerInv(s) && LocalInv(c, s) && Enabled(c, s, AddFinalizer(w)) && Applies(s, s.phase.local, w)
    ensures LocalInv(c, Next(c, s, AddFinalizer(w)))
  {
    CurrentIsLocal(c, s);
  }

  lemma AddServer(c: Config, s: State, w: Write)
    requires ServerInv(s) && LocalInv(c, s) && Enabled(c, s, AddFinalizer(w))
    ensures ServerInv(Next(c, s, AddFinalizer(w)))
  {
    if Current(s, s.phase.local) {
      CurrentIsLocal(c, s);
      PutServer(s, s.phase.local.(guarded := true));
    }
    var stored := if Applies(s, s.phase.local, w) then Put(s, s.phase.local.(guarded := true)) else s;
    PhaseServer(stored, Next(c, s, AddFinalizer(w)).phase);
  }

  lemma AddStep(c: Config, s: State, w: Write)
    requires ServerInv(s) && LocalInv(c, s) && Enabled(c, s, AddFinalizer(w))
    ensures ServerInv(Next(c, s, AddFinalizer(w))) && LocalInv(c, Next(c, s, AddFinalizer(w)))
  {
    AddServer(c, s, w);
    if Applies(s, s.phase.local, w) {
      AddLocal(c, s, w);
    }
  }

  lemma StatusStep(c: Config, s: State, w: Write)
    requires ServerInv(s) && LocalInv(c, s) && s.phase.Reporting?
    ensures ServerInv(Next(c, s, UpdateStatus(w)))
  {
    if Applies(s, s.phase.local, w) {
      Touch(s);
      PhaseServer(Put(s, s.server.value), Idle);
      assert Next(c, s, UpdateStatus(w)) == Put(s, s.server.value).(phase := Idle);
    } else {
      PhaseServer(s, Idle);
      assert Next(c, s, UpdateStatus(w)) == s.(phase := Idle);
    }
  }

  // A status write stores the object again under a new version.
  lemma Touch(s: State)
    requires ServerInv(s) && s.server.Some?
    ensures ServerInv(Put(s, s.server.value))
  {
    PutServer(s, s.server.value);
  }

  // A deletion that was read is in every later version.
  lemma SeenIsLater(s: State, o: Object)
    requires HistoryInv(s) && o in s.history && s.floor <= o.version && SeenDeleting(s, o.uid)
    ensures o.deleting
  {
  }

  lemma FetchStep(c: Config, s: State, o: Object)
    requires Inv(c, s) && Enabled(c, s, Fetch(o))
    ensures ServerInv(Next(c, s, Fetch(o))) && LocalInv(c, Next(c, s, Fetch(o)))
  {
    if c.source.Forward? && o.uid in s.cleaned {
      SeenIsLater(s, o);
    }
  }

  lemma CrashStep(c: Config, s: State)
    requires ServerInv(s)
    ensures ServerInv(Next(c, s, Crash))
  {
  }

  // Building a task, skipping the write and validating store nothing.
  predicate Local(p: Step) {
    p.NewTask? || p.SkipAdd? || p.Validate?
  }

  lemma LocalStep(c: Config, s: State, p: Step)
    requires Sufficient(c) && ServerInv(s) && LocalInv(c, s) && Enabled(c, s, p) && Local(p)
    ensures ServerInv(Next(c, s, p)) && LocalInv(c, Next(c, s, p))
  {
    PhaseServer(s, Next(c, s, p).phase);
  }

  lemma DeleteStep(c: Config, s: State, ok: bool)
    requires ServerInv(s) && LocalInv(c, s) && Enabled(c, s, Delete(ok))
    ensures ServerInv(Next(c, s, Delete(ok))) && LocalInv(c, Next(c, s, Delete(ok)))
  {
  }

  lemma SyncStep(c: Config, s: State)
    requires ServerInv(s) && LocalInv(c, s) && s.phase.Valid?
    ensures ServerInv(Next(c, s, Sync)) && LocalInv(c, Next(c, s, Sync))
  {
  }

  lemma SeenStep(c: Config, s: State, s': State, p: Step)
    requires ServerInv(s) && LocalInv(c, s) && SeenInv(c, s) && Enabled(c, s, p) && s' == Next(c, s, p)
    ensures SeenInv(c, s')
  {
    if c.source.Forward? {
      assert s.history <= s'.history && s.floor <= s'.floor;
      forall u | u in s'.cleaned ensures SeenDeleting(s', u) {
        if u in s.cleaned {
          var o :| o in s.history && o.uid == u && o.deleting && o.version <= s.floor;
          assert o in s'.history;
        } else {
          assert s.phase.local in s'.history;
        }
      }
    }
  }

  lemma InvStep(c: Config, s: State, p: Step)
    requires Sufficient(c) && Inv(c, s) && Enabled(c, s, p)
    ensures Inv(c, Next(c, s, p))
  {
    SeenStep(c, s, Next(c, s, p), p);
    match p
    case RemoveFinalizer(w) => RemoveStep(c, s, w);
    case AddFinalizer(w) => AddStep(c, s, w);
    case UpdateStatus(w) => StatusStep(c, s, w);
    case Create(others) => CreateStep(c, s, others);
    case Edit(_) => UserStep(c, s, p);
    case UserDelete => UserStep(c, s, p);
    case Delete(ok) => DeleteStep(c, s, ok);
    case Sync => SyncStep(c, s);
    case Fetch(o) => FetchStep(c, s, o);
    case Crash => CrashStep(c, s);
    case _ => LocalStep(c, s, p);
  }

  /** The record of calls: an object is synced by Sync on it and by nothing else, and stops
      being so by a successful Delete of it, which cleans it up. */
  lemma RecordOfCalls(c: Config, s: State, p: Step, uid: nat)
    requires Enabled(c, s, p)
    ensures uid in Next(c, s, p).synced <==>
      (p.Sync? && s.phase.local.uid == uid) || (uid in s.synced && !(p == Delete(true) && s.phase.local.uid == uid))
    ensures uid in Next(c, s, p).cleaned <==> uid in s.cleaned || (p == Delete(true) && s.phase.local.uid == uid)
  {
  }

  lemma {:induction false} InvRun(c: Config, s: State, run: seq<Step>)
    requires Sufficient(c) && Inv(c, s) && Runnable(c, s, run)
    ensures Inv(c, Exec(c, s, run))
    decreases |run|
  {
    if |run| > 0 {
      InvStep(c, s, run[0]);
      InvRun(c, Next(c, s, run[0]), run[1..]);
    }
  }

  /** At every point of every run, an object whose Sync or Run was called since its last
      successful Delete is still stored with the finalizer. */
  lemma SyncedStaysGuarded(c: Config, run: seq<Step>)
    requires Sufficient(c) && Runnable(c, INIT, run)
    ensures Safe(Exec(c, INIT, run))
  {
    InvRun(c, INIT, run);
  }

  /** Nothing is left behind: once the object is gone, or another one has its name,
      nothing is synced for it. */
  lemma NothingLeftBehind(c: Config, run: seq<Step>, uid: nat)
    requires Sufficient(c) && Runnable(c, INIT, run)
    requires var s := Exec(c, INIT, run); s.server.None? || s.server.value.uid != uid
    ensures uid !in Exec(c, INIT, run).synced
  {
    InvRun(c, INIT, run);
  }

  lemma {:induction false} CleanedStays(c: Config, s: State, run: seq<Step>, uid: nat)
    requires Runnable(c, s, run) && uid in s.cleaned
    ensures uid in Exec(c, s, run).cleaned
    decreases |run|
  {
    if |run| > 0 {
      CleanedStays(c, Next(c, s, run[0]), run[1..], uid);
    }
  }

  /** What was cleaned up is never synced again. */
  lemma NoResurrection(c: Config, s: State, run: seq<Step>, uid: nat)
    requires Sufficient(c) && Inv(c, s) && Runnable(c, s, run) && uid in s.cleaned
    ensures uid !in Exec(c, s, run).synced
  {
    CleanedStays(c, s, run, uid);
    InvRun(c, s, run);
  }

  // The calls of one undisturbed run on an object that is being deleted.
  function DeletionRun(o: Object): seq<Step> {
    [Fetch(o), NewTask(true), Delete(true), RemoveFinalizer(Success)]
  }

  /** The finalizer does not outlive its use: one undisturbed run on an object being
      deleted cleans it up and removes it, unless another finalizer holds it. */
  lemma DeletionCompletes(c: Config, s: State)
    requires Sufficient(c) && Inv(c, s) && s.phase.Idle? && s.server.Some?
    requires s.server.value.deleting && s.server.value.guarded
    ensures Runnable(c, s, DeletionRun(s.server.value))
    ensures var s' := Exec(c, s, DeletionRun(s.server.value));
      && s.server.value.uid !in s'.synced && s.server.value.uid in s'.cleaned
      && (s'.server.None? <==> !s.server.value.others)
  {
    var o := s.server.value;
    var s1 := Next(c, s, Fetch(o));
    var s2 := Next(c, s1, NewTask(true));
    var s3 := Next(c, s2, Delete(true));
    var r := DeletionRun(o);
    assert r[1..] == [NewTask(true), Delete(true), RemoveFinalizer(Success)];
    assert r[1..][1..] == [Delete(true), RemoveFinalizer(Success)];
    assert r[1..][1..][1..] == [RemoveFinalizer(Success)];
    assert r[1..][1..][1..][1..] == [];
    assert Runnable(c, s3, [RemoveFinalizer(Success)]);
    assert Runnable(c, s2, [Delete(true), RemoveFinalizer(Success)]);
    assert Runnable(c, s1, [NewTask(true), Delete(true), RemoveFinalizer(Success)]);
  }

  /******* Stale reads *******/

  // A process that lives sees versions in order only.
  lemma {:induction false} NoRestart(kind: Kind, s: State, run: seq<Step>)
    requires Runnable(Config(kind, PerProcess), s, run) && forall i :: 0 <= i < |run| ==> !run[i].Crash?
    ensures Runnable(Config(kind, Forward), s, run)
    ensures Exec(Config(kind, Forward), s, run) == Exec(Config(kind, PerProcess), s, run)
    decreases |run|
  {
    if |run| > 0 {
      NoRestart(kind, Next(Config(kind, PerProcess), s, run[0]), run[1..]);
    }
  }

  /** So it takes a restart to make an informer's cache unsafe. */
  lemma SafeUntilRestart(kind: Kind, run: seq<Step>)
    requires Runnable(Config(kind, PerProcess), INIT, run) && forall i :: 0 <= i < |run| ==> !run[i].Crash?
    ensures Safe(Exec(Config(kind, PerProcess), INIT, run))
  {
    NoRestart(kind, INIT, run);
    SyncedStaysGuarded(Config(kind, Forward), run);
  }

  // A runtime is created, run, deleted and cleaned up; then the process restarts, and its
  // new cache brings back the version from before the deletion.
  function StaleRun(): seq<Step> {
    var created := Object(0, 0, false, false, false);
    var guarded := Object(0, 1, true, false, false);
    var deleted := Object(0, 2, true, false, true);
    [Create(false), Fetch(created), NewTask(true), AddFinalizer(AnswerLost),
     UserDelete, Fetch(deleted), NewTask(true), Delete(true), RemoveFinalizer(Success),
     Crash, Fetch(guarded), NewTask(true), SkipAdd, Validate(true), Sync]
  }

  lemma Prepend(c: Config, s: State, run: seq<Step>, i: nat, s': State)
    requires i < |run| && Enabled(c, s, run[i]) && s' == Next(c, s, run[i]) && Runnable(c, s', run[i + 1..])
    ensures Runnable(c, s, run[i..]) && Exec(c, s, run[i..]) == Exec(c, s', run[i + 1..])
  {
    assert run[i..][1..] == run[i + 1..];
  }

  // The object was created, guarded, deleted and cleaned up.
  function Gone(): State {
    State(None, 1, 4, Idle, {}, {0},
      {Object(0, 0, false, false, false), Object(0, 1, true, false, false), Object(0, 2, true, false, true)}, 2)
  }

  lemma StaleReadOrphans(c: Config, run: seq<Step>)
    requires c == Config(RuntimeKind, PerProcess)
    requires run == [Fetch(Object(0, 1, true, false, false)), NewTask(true), SkipAdd, Validate(true), Sync]
    ensures Runnable(c, Gone().(floor := 0), run) && !Safe(Exec(c, Gone().(floor := 0), run))
  {
    var guarded := Object(0, 1, true, false, false);
    var s1 := Gone().(phase := Fetched(guarded), floor := 1);
    var s2 := s1.(phase := Tasked(guarded));
    var s3 := s1.(phase := Guarded(guarded));
    var s4 := s1.(phase := Valid(guarded));
    var s5 := s1.(phase := Reporting(guarded), synced := {0});
    assert run[5..] == [];
    Prepend(c, s4, run, 4, s5);
    Prepend(c, s3, run, 3, s4);
    Prepend(c, s2, run, 2, s3);
    Prepend(c, s1, run, 1, s2);
    Prepend(c, Gone().(floor := 0), run, 0, s1);
    assert run[0..] == run && 0 in s5.synced;
  }

  // The object is created and guarded.
  function Marked(): State {
    State(Some(Object(0, 1, true, false, false)), 1, 2, Idle, {}, {},
      {Object(0, 0, false, false, false), Object(0, 1, true, false, false)}, 0)
  }

  // The user has deleted it.
  function Deleted(): State {
    State(Some(Object(0, 2, true, false, true)), 1, 3, Idle, {}, {}, Gone().history, 0)
  }

  // The reconciler has read that.
  function DeletionRead(): State {
    Deleted().(phase := Fetched(Object(0, 2, true, false, true)), floor := 2)
  }

  // And has cleaned up.
  function CleanedUp(): State {
    DeletionRead().(phase := Cleaned(Object(0, 2, true, false, true)), cleaned := {0})
  }

  lemma ReleasedRunOrphans(c: Config, run: seq<Step>)
    requires c == Config(RuntimeKind, PerProcess) && run == StaleRun()[8..]
    ensures Runnable(c, CleanedUp(), run) && !Safe(Exec(c, CleanedUp(), run))
  {
    StaleReadOrphans(c, run[2..]);
    Prepend(c, Gone(), run, 1, Gone().(floor := 0));
    Prepend(c, CleanedUp(), run, 0, Gone());
    assert run[0..] == run;
  }

  lemma CleanedRunOrphans(c: Config, run: seq<Step>)
    requires c == Config(RuntimeKind, PerProcess) && run == StaleRun()[6..]
    ensures Runnable(c, DeletionRead(), run) && !Safe(Exec(c, DeletionRead(), run))
  {
    var s2 := DeletionRead().(phase := Tasked(Object(0, 2, true, false, true)));
    ReleasedRunOrphans(c, run[2..]);
    Prepend(c, s2, run, 1, CleanedUp());
    Prepend(c, DeletionRead(), run, 0, s2);
    assert run[0..] == run;
  }

  lemma DeletedRunOrphans(c: Config, run: seq<Step>)
    requires c == Config(RuntimeKind, PerProcess) && run == StaleRun()[4..]
    ensures Runnable(c, Marked(), run) && !Safe(Exec(c, Marked(), run))
  {
    CleanedRunOrphans(c, run[2..]);
    Prepend(c, Deleted(), run, 1, DeletionRead());
    Prepend(c, Marked(), run, 0, Deleted());
    assert run[0..] == run;
  }

  // The new object has been read.
  function FirstRead(): State {
    var created := Object(0, 0, false, false, false);
    State(Some(created), 1, 1, Fetched(created), {}, {}, {created}, 0)
  }

  // The finalizer is stored, though the answer is lost.
  lemma MarkStep(c: Config, s: State)
    requires c == Config(RuntimeKind, PerProcess)
    requires s == FirstRead().(phase := Tasked(Object(0, 0, false, false, false)))
    ensures Enabled(c, s, AddFinalizer(AnswerLost)) && Next(c, s, AddFinalizer(AnswerLost)) == Marked()
  {
    assert s.history + {Object(0, 1, true, false, false)} == Marked().history;
  }

  lemma TaskedRunOrphans(c: Config, run: seq<Step>)
    requires c == Config(RuntimeKind, PerProcess) && run == StaleRun()[2..]
    ensures Runnable(c, FirstRead(), run) && !Safe(Exec(c, FirstRead(), run))
  {
    var s3 := FirstRead().(phase := Tasked(Object(0, 0, false, false, false)));
    DeletedRunOrphans(c, run[2..]);
    MarkStep(c, s3);
    Prepend(c, s3, run, 1, Marked());
    Prepend(c, FirstRead(), run, 0, s3);
    assert run[0..] == run;
  }

  /** One restart onto an older listing is enough for a runtime reconciler to sync what is
      gone. */
  lemma StaleRunOrphans(c: Config)
    requires c == Config(RuntimeKind, PerProcess)
    ensures Runnable(c, INIT, StaleRun()) && !Safe(Exec(c, INIT, StaleRun()))
  {
    var created := Object(0, 0, false, false, false);
    var r := StaleRun();
    var s1 := State(Some(created), 1, 1, Idle, {}, {}, {created}, 0);
    TaskedRunOrphans(c, r[2..]);
    Prepend(c, s1, r, 1, FirstRead());
    Prepend(c, INIT, r, 0, s1);
    assert r[0..] == r;
  }

  /** The order of calls guarantees safety exactly when reads never go back or the finalizer
      is written, with its version check, on every run. */
  lemma SafetyExact(c: Config)
    ensures (forall run :: Runnable(c, INIT, run) ==> Safe(Exec(c, INIT, run))) <==> Sufficient(c)
  {
    if Sufficient(c) {
      forall run | Runnable(c, INIT, run) ensures Safe(Exec(c, INIT, run)) {
        SyncedStaysGuarded(c, run);
      }
    } else {
      StaleRunOrphans(c);
    }
  }
}
