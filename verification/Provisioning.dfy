/**
 The other half of the deletion protocol: what a lost reply and a failed call come
 to, who deletes a row, and that the worker and the allocator of a live Gateway do
 bring its namespaces and both databases into being.
 */
module Provisioning {
  import opened Common
  import opened GatewayRecord
  import opened DeletionProtocol
  import opened DeletionSafety
  import opened DeletionProgress
  import opened Operations

  /* ---------- faults ---------- */

  /** A call whose reply was lost has the effect of one that succeeded, and a call that failed has none. */
  lemma LostReplyHasEffect(w: World, k: Worker, secret: Digest, console: bool)
    ensures WorkerNext(w, k, LostReply, secret, console).0 == WorkerNext(w, k, NoFault, secret, console).0
    ensures WorkerNext(w, k, NoEffect, secret, console).0 == w
  {
    hide Commit, CloseSQLState, BindSQLState, CompleteConsoleSQLCleanup;
    match k {
      case Ensuring(v, e) => match e { case Require(_) => case _ => }
      case _ =>
    }
  }

  lemma LostRequestHasEffect(w: World, a: Allocator, console: bool, sandbox: bool)
    ensures AllocatorNext(w, a, LostReply, console, sandbox).0 == AllocatorNext(w, a, NoFault, console, sandbox).0
    ensures AllocatorNext(w, a, NoEffect, console, sandbox).0 == w
  {
    hide Commit;
  }

  /** An operation that met a fault ends, or goes on without the right to record success. */
  predicate Discredited(k: Worker) {
    k == Idle || (k.Dropping? && !k.clean) || (k.Checking? && k.check == CommitWorkload(false))
  }

  lemma FaultsNeverCountAsSuccess(w: World, k: Worker, f: Fault, secret: Digest, console: bool)
    requires f != NoFault
    ensures Discredited(WorkerNext(w, k, f, secret, console).1)
    ensures k.Dropping? && !k.clean ==> WorkerNext(w, k, NoFault, secret, console).1.Dropping? ==> !WorkerNext(w, k, NoFault, secret, console).1.clean
  {
    hide Commit, CloseSQLState, BindSQLState, CompleteConsoleSQLCleanup;
  }

  lemma FailedRequestsNeverComplete(w: World, a: Allocator, f: Fault, console: bool, sandbox: bool)
    requires f != NoFault
    ensures var b := AllocatorNext(w, a, f, console, sandbox).1;
            b == Resting || (b.Removing? && (b.remove == CommitAllocation(false) || (b.remove.DeleteSandboxNs? && b.remove.failed)))
    ensures a.Removing? && a.remove.DeleteSandboxNs? && a.remove.failed ==>
              var b := AllocatorNext(w, a, NoFault, console, sandbox).1; b.Removing? && b.remove == CommitAllocation(false)
  {
    hide Commit;
  }

  /* ---------- the delete request ---------- */

  /** A request deletes the row, empties its observations and raises its revision, once; nothing else of the world changes. */
  lemma UserDeleteActs(s: State)
    ensures var row, t := s.world.store.row, Apply(s, UserDelete);
            && t == s.(world := s.world.(store := s.world.store.(row := t.world.store.row, events := t.world.store.events)))
            && t.world.store.row.deleted
            && (row.deleted ==> t == s)
            && (!row.deleted ==> t.world.store.row == Row(row.cluster, row.version + 1, true, PENDING, row.finalized))
  {}

  lemma StepDeletes(s: State, a: Action)
    ensures Apply(s, a).world.store.row.deleted <==> s.world.store.row.deleted || a == UserDelete
  {
    hide WorkerNext, AllocatorNext;
    match a
    case WorkerCall(f, secret, console) => WorkerKeepsDeleted(s.world, s.worker, f, secret, console);
    case AllocatorCall(f, console, sandbox) => AllocatorKeepsDeleted(s.world, s.allocator, f, console, sandbox);
    case _ =>
  }

  lemma WorkerKeepsDeleted(w: World, k: Worker, f: Fault, secret: Digest, console: bool)
    ensures WorkerNext(w, k, f, secret, console).0.store.row.deleted == w.store.row.deleted
  {
    if (k.Dropping? && k.drop.CommitSql?) || (k.Checking? && k.check.CommitWorkload?) {
      CommitKeepsDeleted(w, k.version, Sql, true);
      if k.Checking? {
        CommitKeepsDeleted(w, k.version, Workload, k.check.observed);
      }
    } else {
      WorkerKeepsRow(w, k, f, secret, console);
      hide WorkerNext;
    }
    hide Commit;
  }

  lemma CommitKeepsDeleted(w: World, v: nat, owner: Owner, complete: bool)
    ensures Commit(w, v, owner, complete).store.row.deleted == w.store.row.deleted
  {
    hide ConsoleProven;
  }

  lemma AllocatorKeepsDeleted(w: World, a: Allocator, f: Fault, console: bool, sandbox: bool)
    ensures AllocatorNext(w, a, f, console, sandbox).0.store.row.deleted == w.store.row.deleted
  {
    if a.Removing? && a.remove.CommitAllocation? {
      CommitKeepsDeleted(w, a.version, Allocation, a.remove.done);
    } else {
      AllocatorKeepsRow(w, a, f, console, sandbox);
      hide AllocatorNext;
    }
    hide Commit;
  }

  /** On every run the row is deleted exactly if the user asked for it. */
  lemma {:induction false} DeletedExactlyWhenAsked(cluster: Cluster, actions: seq<Action>)
    ensures Run(Init(cluster), actions).world.store.row.deleted <==> UserDelete in actions
    decreases |actions|
  {
    if actions != [] {
      var n := |actions| - 1;
      DeletedExactlyWhenAsked(cluster, actions[..n]);
      StepDeletes(Run(Init(cluster), actions[..n]), actions[n]);
      assert actions == actions[..n] + [actions[n]];
      hide Apply;
    }
  }

  /* ---------- an open registration names a digest ---------- */

  predicate Named(b: Binding) {
    b.present && !b.closed ==> b.digest.Some?
  }

  predicate BothNamed(w: World) {
    Named(w.store.gateway) && Named(w.store.console)
  }

  lemma WorkerKeepsNamed(w: World, k: Worker, f: Fault, secret: Digest, console: bool)
    requires BothNamed(w)
    ensures BothNamed(WorkerNext(w, k, f, secret, console).0)
  {
    hide ConsoleProven;
  }

  lemma StepKeepsNamed(s: State, a: Action)
    requires BothNamed(s.world)
    ensures BothNamed(Apply(s, a).world)
  {
    hide WorkerNext, ConsoleProven;
    if a.WorkerCall? {
      WorkerKeepsNamed(s.world, s.worker, a.fault, a.secret, a.console);
    }
  }

  lemma {:induction false} OpenNamesDigest(cluster: Cluster, actions: seq<Action>)
    ensures BothNamed(Run(Init(cluster), actions).world)
    decreases |actions|
  {
    if actions != [] {
      OpenNamesDigest(cluster, actions[..|actions| - 1]);
      StepKeepsNamed(Run(Init(cluster), actions[..|actions| - 1]), actions[|actions| - 1]);
      hide Apply, BothNamed;
    }
  }

  /* ---------- a live Gateway gets its databases ---------- */

  /** A state of a live Gateway that a run can reach. */
  predicate LiveOk(s: State) {
    Inv(s) && BothNamed(s.world) && !s.world.store.row.deleted
  }

  predicate SameRow(s: State, t: State) {
    t.world.store.row == s.world.store.row
  }

  lemma LiveStep(s: State, a: Action)
    requires LiveOk(s) && a != UserDelete
    ensures LiveOk(Apply(s, a))
  {
    ApplyKeepsInv(s, a);
    StepKeepsNamed(s, a);
    StepDeletes(s, a);
    hide Inv, Apply, BothNamed;
  }

  function Repeated(a: Action, n: nat): seq<Action> {
    seq(n, _ => a)
  }

  lemma RepeatNext(s: State, a: Action, n: nat)
    ensures Run(s, Repeated(a, n + 1)) == Apply(Run(s, Repeated(a, n)), a)
    ensures Run(s, Repeated(a, 0)) == s
  {
    hide Apply;
    assert Repeated(a, n + 1)[..n] == Repeated(a, n);
  }

  /** An ensure under way comes to its end. */
  lemma {:induction false} WorkerRests(s: State) returns (n: nat)
    requires LiveOk(s)
    ensures n <= 5
    ensures var t := Run(s, Repeated(WorkerCall(NoFault, 0, false), n));
            LiveOk(t) && SameRow(s, t) && t.worker == Idle && t.allocator == s.allocator
    ensures n <= if s.worker.Ensuring? then EnsureSteps(s.worker.ensure) else 0
    decreases if s.worker.Ensuring? then EnsureSteps(s.worker.ensure) else 0
  {
    var call := WorkerCall(NoFault, 0, false);
    n := 0;
    RepeatNext(s, call, 0);
    if s.worker.Ensuring? {
      var t := Apply(s, call);
      LiveStep(s, call);
      EnsureMoves(s);
      n := WorkerRests(t);
      RunOne(s, call);
      RunSplits(s, [call], Repeated(call, n));
      assert [call] + Repeated(call, n) == Repeated(call, n + 1);
      n := n + 1;
    }
    hide LiveOk, Run, Apply;
    assert s.worker.Ensuring? || s.worker == Idle by { NotDropping(s); }
  }

  lemma NotDropping(s: State)
    requires LiveOk(s)
    ensures s.worker.Ensuring? || s.worker == Idle
    ensures s.allocator.Allocating? || s.allocator == Resting
    ensures s.world.stateNs != Terminating && s.world.consoleNs != Terminating
  {}

  lemma EnsureMoves(s: State)
    requires s.worker.Ensuring?
    ensures var t := Apply(s, WorkerCall(NoFault, 0, false));
            SameRow(s, t) && t.allocator == s.allocator && (t.worker == Idle || (t.worker.Ensuring? && EnsureSteps(t.worker.ensure) < EnsureSteps(s.worker.ensure)))
  {}

  function AllocateSteps(a: Allocator): nat {
    match a
    case Allocating(n) => (match n { case StateNs => 4 case ConsoleNs => 3 case GatewayNs => 2 case SandboxNs => 1 })
    case _ => 0
  }

  lemma AllocateMoves(s: State)
    requires s.allocator.Allocating?
    ensures var t := Apply(s, AllocatorCall(NoFault, true, false));
            SameRow(s, t) && t.worker == s.worker && (t.allocator == Resting || (t.allocator.Allocating? && AllocateSteps(t.allocator) < AllocateSteps(s.allocator)))
  {}

  lemma {:induction false} AllocatorRests(s: State) returns (n: nat)
    requires LiveOk(s)
    ensures n <= AllocateSteps(s.allocator)
    ensures var t := Run(s, Repeated(AllocatorCall(NoFault, true, false), n));
            LiveOk(t) && SameRow(s, t) && t.worker == s.worker && t.allocator == Resting
    decreases AllocateSteps(s.allocator)
  {
    var call := AllocatorCall(NoFault, true, false);
    n := 0;
    RepeatNext(s, call, 0);
    if s.allocator.Allocating? {
      var t := Apply(s, call);
      LiveStep(s, call);
      AllocateMoves(s);
      n := AllocatorRests(t);
      RunOne(s, call);
      RunSplits(s, [call], Repeated(call, n));
      assert [call] + Repeated(call, n) == Repeated(call, n + 1);
      n := n + 1;
    }
    hide LiveOk, Run, Apply;
    assert s.allocator.Allocating? || s.allocator == Resting by { NotDropping(s); }
  }

  /** One allocation call: a terminating namespace is waited for, an absent one is created, and a live one kept. */
  lemma AllocateActs(s: State, n: NsName, console: bool, sandbox: bool)
    requires s.allocator == Allocating(n)
    ensures var t, ns := Apply(s, AllocatorCall(NoFault, console, sandbox)), GetNs(s.world, n);
            && GetNs(t.world, n) == (if ns == Absent then Live(None) else ns)
            && (forall m :: m != n ==> GetNs(t.world, m) == GetNs(s.world, m))
            && t.world.store == s.world.store && t.worker == s.worker
            && t.allocator == (if ns == Terminating || n == SandboxNs || (n == GatewayNs && !sandbox) then Resting
                               else if n == StateNs && console then Allocating(ConsoleNs)
                               else if n == GatewayNs then Allocating(SandboxNs)
                               else Allocating(GatewayNs))
  {}

  /** The sandbox namespace is asked to go whatever became of the request for the other one. */
  lemma SandboxAlwaysAsked(w: World, a: Allocator, f: Fault)
    requires a.Removing? && a.remove.DeleteSandboxNs? && f != NoEffect
    ensures RemoveCall(w, a, f).0.sandboxNs == Asked(w.sandboxNs)
    ensures forall g: Fault :: RemoveCall(w, a.(remove := DeleteGatewayNs), g).1.Removing? && RemoveCall(w, a.(remove := DeleteGatewayNs), g).1.remove.DeleteSandboxNs?
  {}

  function Allocated(ns: Ns): Ns {
    if ns == Absent then Live(None) else ns
  }

  /** One allocation without faults makes every namespace that it names live and keeps those that are. */
  lemma AllocationActs(w: World, k: Worker)
    requires !w.store.row.deleted && w.gatewayNs != Terminating && w.stateNs != Terminating && w.consoleNs != Terminating
    ensures Run(State(w, k, Resting), Repeated(AllocatorCall(NoFault, true, false), 4)) ==
            State(w.(stateNs := Allocated(w.stateNs), consoleNs := Allocated(w.consoleNs), gatewayNs := Allocated(w.gatewayNs)), k, Resting)
  {
    var s, call := State(w, k, Resting), AllocatorCall(NoFault, true, false);
    RepeatNext(s, call, 0);
    RepeatNext(s, call, 1);
    RepeatNext(s, call, 2);
    RepeatNext(s, call, 3);
    hide Run, Repeated;
    var t := w.(stateNs := Allocated(w.stateNs));
    assert Run(s, Repeated(call, 1)) == State(w, k, Allocating(StateNs));
    assert Run(s, Repeated(call, 2)) == State(t, k, Allocating(ConsoleNs));
    var u := t.(consoleNs := Allocated(w.consoleNs));
    assert Run(s, Repeated(call, 3)) == State(u, k, Allocating(GatewayNs));
  }

  /** One ensure without faults, inside the protocol. */
  lemma EnsureActs(w: World, c: Component, secret: Digest, a: Allocator)
    requires Ensurable(w, c)
    ensures var t := Run(State(w, Ensuring(w.store.row.version, Require(c)), a), Repeated(WorkerCall(NoFault, secret, true), 5));
            && Provisioned(t.world, c, SecretFor(w, c, secret)) && SameElsewhere(w, t.world, c)
            && t.allocator == a && t.worker == if c == Gateway then Ensuring(w.store.row.version, Require(Console)) else Idle
  {
    hide Run, Repeated, Apply, Ensured, Provisioned, SameElsewhere;
    var v, digest := w.store.row.version, SecretFor(w, c, secret);
    var s, call := State(w, Ensuring(v, Require(c)), a), WorkerCall(NoFault, secret, true);
    RepeatNext(s, call, 3);
    RepeatNext(s, call, 4);
    SecretActs(w, c, secret, a);
    DatabaseActs(w, c, digest, secret, a);
    EnsuredProvisions(w, c, digest);
    hide *;
  }

  /** The world after an ensure that registered this digest. */
  function Ensured(w: World, c: Component, digest: Digest): World {
    var t := WithNs(w, StateNsOf(c), Live(Some(digest)));
    WithDb(t.(store := WithBound(t.store, c, Binding(true, Some(digest), false))), c, true)
  }

  lemma EnsuredProvisions(w: World, c: Component, digest: Digest)
    ensures Provisioned(Ensured(w, c, digest), c, digest) && SameElsewhere(w, Ensured(w, c, digest), c)
  {}

  lemma DatabaseActs(w: World, c: Component, digest: Digest, secret: Digest, a: Allocator)
    requires !w.store.row.deleted && !Bound(w.store, c).closed
    requires Bound(w.store, c).present ==> Bound(w.store, c).digest == Some(digest)
    ensures var v, call := w.store.row.version, WorkerCall(NoFault, secret, true);
            Apply(Apply(State(WithNs(w, StateNsOf(c), Live(Some(digest))), Ensuring(v, Register(c, digest)), a), call), call) ==
            State(Ensured(w, c, digest), if c == Gateway then Ensuring(v, Require(Console)) else Idle, a)
  {}

  lemma SecretActs(w: World, c: Component, secret: Digest, a: Allocator)
    requires Ensurable(w, c)
    ensures var v, digest := w.store.row.version, SecretFor(w, c, secret);
            Run(State(w, Ensuring(v, Require(c)), a), Repeated(WorkerCall(NoFault, secret, true), 3))
              == State(WithNs(w, StateNsOf(c), Live(Some(digest))), Ensuring(v, Register(c, digest)), a)
  {
    var v, b := w.store.row.version, Bound(w.store, c);
    var s, call := State(w, Ensuring(v, Require(c)), a), WorkerCall(NoFault, secret, true);
    RepeatNext(s, call, 0);
    RepeatNext(s, call, 1);
    RepeatNext(s, call, 2);
    hide Run, Repeated;
    assert Run(s, Repeated(call, 1)) == State(w, Ensuring(v, LoadBinding(c)), a);
    assert Run(s, Repeated(call, 2)) == State(w, Ensuring(v, OpenSecret(c, b)), a);
  }

  /** The database of a component exists on its open registration and the Secret with that digest. */
  predicate Serves(w: World, c: Component) {
    var digest := Bound(w.store, c).digest;
    digest.Some? && Provisioned(w, c, digest.value)
  }

  lemma LiveEnsurable(s: State, c: Component)
    requires LiveOk(s) && s.world.gatewayNs.Live? && GetNs(s.world, StateNsOf(c)).Live?
    ensures Ensurable(s.world, c)
  {}

  lemma BothEnsured(s: State, secret: Digest)
    requires LiveOk(s) && s.worker == Idle
    requires s.world.gatewayNs.Live? && s.world.stateNs.Live? && s.world.consoleNs.Live?
    ensures var t := Run(s, Repeated(WorkerCall(NoFault, secret, true), 11));
            SameRow(s, t) && Serves(t.world, Gateway) && Serves(t.world, Console) && t.worker == Idle
  {
    var call := WorkerCall(NoFault, secret, true);
    LiveEnsurable(s, Gateway);
    LiveEnsurable(s, Console);
    var first := Apply(s, call);
    EnsureActs(s.world, Gateway, secret, s.allocator);
    var second := Run(first, Repeated(call, 5));
    EnsureActs(second.world, Console, secret, s.allocator);
    RunOne(s, call);
    RunSplits(s, [call], Repeated(call, 5));
    RunSplits(s, [call] + Repeated(call, 5), Repeated(call, 5));
    assert [call] + Repeated(call, 5) + Repeated(call, 5) == Repeated(call, 11);
    hide Run, LiveOk;
  }

  lemma RepeatsClean(a: Action, n: nat)
    requires FaultFree(a)
    ensures forall b :: b in Repeated(a, n) ==> FaultFree(b)
    ensures |Repeated(a, n)| == n
  {}

  /** With nothing under way: the old namespace goes, a new allocation and an ensure follow. */
  lemma RestingProvisions(s: State, secret: Digest) returns (rest: seq<Action>)
    requires LiveOk(s) && s.worker == Idle && s.allocator == Resting
    ensures |rest| == 16 && forall a :: a in rest ==> FaultFree(a)
    ensures var t := Run(s, rest); SameRow(s, t) && Serves(t.world, Gateway) && Serves(t.world, Console)
  {
    var gone, allocate, ensure := NsFinalized(GatewayNs), AllocatorCall(NoFault, true, false), WorkerCall(NoFault, secret, true);
    var t := Apply(s, gone);
    LiveStep(s, gone);
    NotDropping(t);
    RunOne(s, gone);
    AllocationActs(t.world, t.worker);
    var u := Run(t, Repeated(allocate, 4));
    RunLive(t, allocate, 4);
    BothEnsured(u, secret);
    RunSplits(s, [gone], Repeated(allocate, 4));
    RunSplits(s, [gone] + Repeated(allocate, 4), Repeated(ensure, 11));
    RepeatsClean(allocate, 4);
    RepeatsClean(ensure, 11);
    rest := [gone] + Repeated(allocate, 4) + Repeated(ensure, 11);
    hide Run, LiveOk, Repeated, Serves;
  }

  lemma {:induction false} RunLive(s: State, a: Action, n: nat)
    requires LiveOk(s) && a != UserDelete
    ensures LiveOk(Run(s, Repeated(a, n)))
  {
    if n > 0 {
      RunLive(s, a, n - 1);
      LiveStep(Run(s, Repeated(a, n - 1)), a);
      RepeatNext(s, a, n - 1);
      hide LiveOk, Run, Apply;
    }
    hide LiveOk;
  }

  /**
   However a run began, a Gateway that is not deleted gets both databases, each on an
   open registration and its stored Secret, within 25 fault-free actions that leave its row alone.
   */
  lemma ProvisioningCanFinish(cluster: Cluster, actions: seq<Action>, secret: Digest)
    requires UserDelete !in actions
    ensures exists rest: seq<Action> ::
              && |rest| <= 25
              && (forall a :: a in rest ==> FaultFree(a))
              && SameRow(Run(Init(cluster), actions), Run(Init(cluster), actions + rest))
              && Serves(Run(Init(cluster), actions + rest).world, Gateway) && Serves(Run(Init(cluster), actions + rest).world, Console)
  {
    DeletedExactlyWhenAsked(cluster, actions);
    InitInv(cluster);
    RunKeepsInv(Init(cluster), actions);
    OpenNamesDigest(cluster, actions);
    var rest := LiveProvisions(Run(Init(cluster), actions), secret);
    RunSplits(Init(cluster), actions, rest);
    hide Run, Serves, Inv, BothNamed, FaultFree;
  }

  lemma LiveProvisions(s: State, secret: Digest) returns (rest: seq<Action>)
    requires LiveOk(s)
    ensures |rest| <= 25 && forall a :: a in rest ==> FaultFree(a)
    ensures var t := Run(s, rest); SameRow(s, t) && Serves(t.world, Gateway) && Serves(t.world, Console)
  {
    hide LiveOk, Run, Serves;
    var call, allocate := WorkerCall(NoFault, 0, false), AllocatorCall(NoFault, true, false);
    var m := WorkerRests(s);
    var t := Run(s, Repeated(call, m));
    var n := AllocatorRests(t);
    rest := RestingProvisions(Run(t, Repeated(allocate, n)), secret);
    RunSplits(s, Repeated(call, m), Repeated(allocate, n));
    RunSplits(s, Repeated(call, m) + Repeated(allocate, n), rest);
    RepeatsClean(call, m);
    RepeatsClean(allocate, n);
    rest := Repeated(call, m) + Repeated(allocate, n) + rest;
    hide Repeated;
  }

  /* ---------- the other parties ---------- */

  /** A live row can change at any time, a terminating namespace goes, and a crash loses an operation and nothing else. */
  lemma OthersAct(s: State, n: NsName)
    ensures var t, row := Apply(s, LiveUpdate), s.world.store.row;
            t == s.(world := s.world.(store := s.world.store.(row := row.(version := if row.deleted then row.version else row.version + 1))))
    ensures var t := Apply(s, NsFinalized(n));
            GetNs(t.world, n) == (if GetNs(s.world, n) == Terminating then Absent else GetNs(s.world, n)) && t.worker == s.worker && t.allocator == s.allocator
    ensures Apply(s, WorkerCrash) == s.(worker := Idle) && Apply(s, AllocatorCrash) == s.(allocator := Resting)
  {}

  /* ---------- the workload observation ---------- */

  lemma ObservationCommits(w: World, a: Allocator, observed: bool)
    requires w.store.row.deleted && w.store.row.version >= 1
    ensures var t := Apply(State(w, Checking(w.store.row.version, w.store.row.done.workload, CommitWorkload(observed)), a), WorkerCall(NoFault, 0, false));
            && t.world == w.(store := w.store.(row := t.world.store.row, events := t.world.store.events))
            && t.world.store.row.done.workload == observed && t.worker == Idle && t.allocator == a
  {}

  /** A workload check without faults at the current row observes exactly whether both workload namespaces are gone, and withdraws what no longer holds. */
  lemma CheckActs(w: World, a: Allocator)
    requires w.store.row.deleted && w.store.row.version >= 1
    ensures var row := w.store.row;
            var t := Run(State(w, Checking(row.version, row.done.workload, GatewayAway), a), Repeated(WorkerCall(NoFault, 0, false), if w.gatewayNs == Absent then 3 else 2));
            && t.world == w.(store := w.store.(row := t.world.store.row, events := t.world.store.events))
            && (t.world.store.row.done.workload <==> w.gatewayNs == Absent && w.sandboxNs == Absent)
            && t.worker == Idle && t.allocator == a
  {
    var row, call := w.store.row, WorkerCall(NoFault, 0, false);
    var s := State(w, Checking(row.version, row.done.workload, GatewayAway), a);
    RepeatNext(s, call, 0);
    RepeatNext(s, call, 1);
    RepeatNext(s, call, 2);
    hide Run, Repeated;
    var gone := w.gatewayNs == Absent && w.sandboxNs == Absent;
    if w.gatewayNs == Absent {
      assert Run(s, Repeated(call, 1)) == State(w, Checking(row.version, row.done.workload, SandboxAway), a);
      assert Run(s, Repeated(call, 2)) == State(w, Checking(row.version, row.done.workload, CommitWorkload(gone)), a);
      ObservationCommits(w, a, gone);
    } else {
      assert Run(s, Repeated(call, 1)) == State(w, Checking(row.version, row.done.workload, CommitWorkload(false)), a);
      ObservationCommits(w, a, false);
    }
  }
}
