/** What every action of the deletion protocol keeps, and what follows on every run. */
module DeletionSafety {
  import opened Common
  import opened GatewayRecord
  import opened DeletionProtocol

  /** A digest that cleanup still needs keeps its Secret; a database needs its digest. */
  predicate Backed(w: World, c: Component) {
    var digest := Bound(w.store, c).digest;
    && (digest.Some? && !w.store.row.done.sql ==> GetNs(w, StateNsOf(c)) == Live(digest))
    && (Db(w, c) ==> digest.Some? && !w.store.row.done.sql)
    && (GetNs(w, StateNsOf(c)) == Terminating ==> w.store.row.done.sql)
  }

  predicate ConsoleClean(w: World) {
    w.store.console.closed && !w.consoleDb
  }

  predicate GatewayClean(w: World) {
    w.store.gateway.closed && !w.gatewayDb
  }

  predicate AllAbsent(w: World) {
    w.gatewayNs == w.sandboxNs == w.stateNs == w.consoleNs == Absent
  }

  predicate BindingsOk(w: World) {
    && (w.store.gateway.present || w.store.gateway == ABSENT)
    && (w.store.console.present || w.store.console == ABSENT)
    && (w.store.completion.present || w.store.completion == ABSENT)
    && (w.store.gateway.closed || w.store.console.closed ==> w.store.row.deleted)
    && (w.store.completion.present || w.store.completion.closed ==>
          && w.store.completion.present && w.store.completion.closed
          && ConsoleClean(w) && w.store.completion.digest == w.store.console.digest)
  }

  predicate DoneOk(w: World) {
    var done := w.store.row.done;
    && (done.sql ==> ConsoleProven(w.store) && ConsoleClean(w) && GatewayClean(w))
    && (done.workload ==> done.sql)
    && (done.allocation ==> done.sql && AllAbsent(w))
  }

  predicate WorldOk(w: World) {
    Ledger(w.store) && BindingsOk(w) && DoneOk(w) && Backed(w, Gateway) && Backed(w, Console)
  }

  predicate PastConsole(d: DropStep) {
    d == CommitSql || d == Close(Gateway) || d == DropDb(Gateway) || (d.ReadState? && d.c == Gateway)
  }

  predicate WorkerOk(w: World, k: Worker) {
    match k
    case Idle => true
    case Ensuring(v, e) =>
      && v <= w.store.row.version
      && !w.store.row.done.sql
      && !w.store.gateway.closed && !w.store.console.closed
      && (e.Register? ==> GetNs(w, StateNsOf(e.c)) == Live(Some(e.digest)))
      && (e.CreateDb? ==> Bound(w.store, e.c).digest == Some(e.digest))
    case Dropping(v, clean, d) =>
      && v <= w.store.row.version
      && w.store.row.deleted
      && !w.store.row.done.sql
      && (d.ReadState? || d.DropDb? ==> Bound(w.store, d.c).closed)
      && (d.ReadState? ==> Bound(w.store, d.c).digest == Some(d.digest))
      && (d.CompleteConsole? ==> ConsoleClean(w))
      && (clean && PastConsole(d) ==> ConsoleClean(w) && ConsoleProven(w.store))
      && (clean && d == CommitSql ==> GatewayClean(w))
    case Checking(v, prior, _) =>
      && v <= w.store.row.version
      && w.store.row.deleted
      && w.store.row.done.sql
      && (v == w.store.row.version ==> prior == w.store.row.done.workload)
  }

  predicate AllocatorOk(w: World, a: Allocator) {
    match a
    case Resting => true
    case Allocating(_) => !w.store.row.done.allocation
    case Removing(v, sql, workload, prior, r) =>
      && v <= w.store.row.version
      && w.store.row.deleted
      && (sql ==> w.store.row.done.sql)
      && (v == w.store.row.version ==>
            sql == w.store.row.done.sql && workload == w.store.row.done.workload && prior == w.store.row.done.allocation)
      && (r.DeleteConsoleNs? || r.DeleteStateNs? || r == CommitAllocation(true) ==> sql && workload)
      && (r.DeleteSandboxNs? && r.gatewayDone ==> w.gatewayNs == Absent)
      && (r.DeleteConsoleNs? || r.DeleteStateNs? ==> w.gatewayNs == w.sandboxNs == Absent)
      && (r.DeleteStateNs? && r.consoleDone ==> w.consoleNs == Absent)
      && (r == CommitAllocation(true) ==> AllAbsent(w))
  }

  predicate Inv(s: State) {
    WorldOk(s.world) && WorkerOk(s.world, s.worker) && AllocatorOk(s.world, s.allocator)
  }

  lemma InitInv(cluster: Cluster)
    ensures Inv(Init(cluster))
  {}

  /** A committed observation, seen from a worker that did not write it. */
  lemma ObservedKeepsOk(w: World, t: Store, owner: Owner, complete: bool)
    requires WorldOk(w)
    requires Committed(w.store, t, owner, complete)
    requires owner == Sql ==> complete && ConsoleClean(w) && GatewayClean(w) && ConsoleProven(w.store)
    requires owner == Workload && complete ==> w.store.row.done.sql
    requires owner == Allocation && complete ==> w.store.row.done.sql && AllAbsent(w)
    ensures WorldOk(w.(store := t))
    ensures forall k: Worker :: WorkerOk(w, k) && !Targeted(owner) ==> WorkerOk(w.(store := t), k)
    ensures forall k: Worker :: WorkerOk(w, k) && owner == Allocation ==> WorkerOk(w.(store := t), k)
    ensures forall a: Allocator :: AllocatorOk(w, a) && owner != Allocation ==> AllocatorOk(w.(store := t), a)
  {
  }

  lemma RegisterKeepsOk(w: World, v: nat, c: Component, digest: Digest, a: Allocator, f: Fault)
    requires WorldOk(w) && WorkerOk(w, Ensuring(v, Register(c, digest))) && AllocatorOk(w, a)
    ensures var (t, k) := EnsureCall(w, v, Register(c, digest), f, 0, false); Inv(State(t, k, a))
  {
    var (t, k) := EnsureCall(w, v, Register(c, digest), f, 0, false);
    assert AllocatorOk(t, a);
  }

  lemma EnsureKeepsWorld(w: World, v: nat, e: EnsureStep, f: Fault, secret: Digest)
    requires WorldOk(w) && WorkerOk(w, Ensuring(v, e)) && !e.Register?
    ensures WorldOk(EnsureCall(w, v, e, f, secret, false).0)
  {
  }

  lemma EnsureKeepsOk(w: World, v: nat, e: EnsureStep, a: Allocator, f: Fault, secret: Digest, console: bool)
    requires WorldOk(w) && WorkerOk(w, Ensuring(v, e)) && AllocatorOk(w, a) && !e.Register?
    ensures var (t, k) := EnsureCall(w, v, e, f, secret, console); Inv(State(t, k, a))
  {
    EnsureKeepsWorld(w, v, e, f, secret);
    var (t, k) := EnsureCall(w, v, e, f, secret, console);
    assert AllocatorOk(t, a) by { hide WorkerOk; }
    hide AllocatorOk, Ledger, BindingsOk;
  }

  lemma ClosedKeepsWorld(w: World, c: Component, a: Allocator)
    requires WorldOk(w) && AllocatorOk(w, a) && w.store.row.deleted && !w.store.row.done.sql
    ensures var t := w.(store := CloseSQLState(w.store, w.store.row.cluster, c).value);
            WorldOk(t) && AllocatorOk(t, a)
  {
    assert WorldOk(w.(store := CloseSQLState(w.store, w.store.row.cluster, c).value)) by { hide AllocatorOk; }
  }

  lemma CloseKeepsOk(w: World, v: nat, clean: bool, c: Component, a: Allocator, f: Fault)
    requires WorldOk(w) && WorkerOk(w, Dropping(v, clean, Close(c))) && AllocatorOk(w, a)
    ensures var (t, k) := DropCall(w, v, clean, Close(c), f); Inv(State(t, k, a))
  {
    ClosedKeepsWorld(w, c, a);
    hide AllocatorOk, Ledger;
  }

  lemma DropKeepsWorld(w: World, v: nat, clean: bool, d: DropStep, f: Fault)
    requires WorldOk(w) && WorkerOk(w, Dropping(v, clean, d))
    requires !d.Close? && !d.CommitSql?
    ensures WorldOk(DropCall(w, v, clean, d, f).0)
  {
  }

  lemma DropKeepsOk(w: World, v: nat, clean: bool, d: DropStep, a: Allocator, f: Fault)
    requires WorldOk(w) && WorkerOk(w, Dropping(v, clean, d)) && AllocatorOk(w, a)
    requires !d.Close? && !d.CommitSql?
    ensures var (t, k) := DropCall(w, v, clean, d, f); Inv(State(t, k, a))
  {
    DropKeepsWorld(w, v, clean, d, f);
    var (t, k) := DropCall(w, v, clean, d, f);
    assert AllocatorOk(t, a) by { hide WorkerOk; }
    hide AllocatorOk, Ledger;
  }

  lemma AllocateKeepsWorld(w: World, n: NsName, f: Fault)
    requires WorldOk(w) && !w.store.row.done.allocation
    ensures WorldOk(AllocateCall(w, n, f, false, false).0)
  {
  }

  lemma AllocateKeepsOk(w: World, n: NsName, k: Worker, f: Fault, console: bool, sandbox: bool)
    requires WorldOk(w) && WorkerOk(w, k) && AllocatorOk(w, Allocating(n))
    ensures var (t, a) := AllocateCall(w, n, f, console, sandbox); Inv(State(t, k, a))
  {
    AllocateKeepsWorld(w, n, f);
    hide WorldOk;
  }

  /** A state namespace may be asked to go only once its SQL cleanup is recorded. */
  lemma RequestDeleteKeepsOk(w: World, n: NsName, k: Worker, f: Fault)
    requires WorldOk(w) && WorkerOk(w, k)
    requires n == StateNs || n == ConsoleNs ==> w.store.row.done.sql
    ensures WorldOk(RequestDelete(w, n, f)) && WorkerOk(RequestDelete(w, n, f), k)
  {
    var t := RequestDelete(w, n, f);
    assert WorkerOk(t, k);
  }

  lemma RemoveKeepsAllocatorOk(w: World, a: Allocator, f: Fault)
    requires WorldOk(w) && AllocatorOk(w, a) && a.Removing? && !a.remove.CommitAllocation?
    ensures var (t, a') := RemoveCall(w, a, f); AllocatorOk(t, a')
  {
  }

  lemma RemoveKeepsOk(w: World, a: Allocator, k: Worker, f: Fault)
    requires WorldOk(w) && WorkerOk(w, k) && AllocatorOk(w, a) && a.Removing? && !a.remove.CommitAllocation?
    ensures var (t, a') := RemoveCall(w, a, f); Inv(State(t, k, a'))
  {
    RemoveKeepsAllocatorOk(w, a, f);
    match a.remove
    case DeleteGatewayNs => RequestDeleteKeepsOk(w, GatewayNs, k, f);
    case DeleteSandboxNs(_, _) => RequestDeleteKeepsOk(w, SandboxNs, k, f);
    case DeleteConsoleNs => RequestDeleteKeepsOk(w, ConsoleNs, k, f);
    case DeleteStateNs(_) => RequestDeleteKeepsOk(w, StateNs, k, f);
  }

  lemma CommitKeepsOk(w: World, v: nat, owner: Owner, complete: bool)
    requires WorldOk(w)
    requires owner == Sql ==> complete && ConsoleClean(w) && GatewayClean(w) && ConsoleProven(w.store)
    requires owner == Workload && complete ==> w.store.row.done.sql
    requires owner == Allocation && complete ==> w.store.row.done.sql && AllAbsent(w)
    ensures WorldOk(Commit(w, v, owner, complete))
    ensures forall k: Worker :: WorkerOk(w, k) && (owner == Allocation || !Targeted(owner)) ==> WorkerOk(Commit(w, v, owner, complete), k)
    ensures forall a: Allocator :: AllocatorOk(w, a) && owner != Allocation ==> AllocatorOk(Commit(w, v, owner, complete), a)
  {
    var target := if Targeted(owner) then Some(w.store.row.cluster) else None;
    var observed := RecordCleanup(w.store, v, owner, target, complete);
    if observed.Ok? {
      CleanupEffect(w.store, v, owner, target, complete);
      ObservedKeepsOk(w, observed.value, owner, complete);
    }
  }

  lemma StartsOk(w: World)
    requires WorldOk(w)
    ensures WorkerOk(w, StartWork(w.store.row)) && AllocatorOk(w, StartAllocation(w.store.row))
  {
  }

  lemma WorkerKeepsInv(s: State, f: Fault, secret: Digest, console: bool)
    requires Inv(s)
    ensures Inv(Apply(s, WorkerCall(f, secret, console)))
  {
    hide WorldOk, AllocatorOk;
    var w, a := s.world, s.allocator;
    match s.worker
    case Idle => StartsOk(w);
    case Ensuring(v, e) =>
      if e.Register? {
        RegisterKeepsOk(w, v, e.c, e.digest, a, f);
      } else {
        EnsureKeepsOk(w, v, e, a, f, secret, console);
      }
    case Dropping(v, clean, d) =>
      if d.Close? {
        CloseKeepsOk(w, v, clean, d.c, a, f);
      } else if d.CommitSql? {
        if clean && f != NoEffect {
          CommitKeepsOk(w, v, Sql, true);
        }
      } else {
        DropKeepsOk(w, v, clean, d, a, f);
      }
    case Checking(v, _, c) =>
      if c.CommitWorkload? {
        CommitKeepsOk(w, v, Workload, c.observed);
      }
  }

  lemma AllocatorKeepsInv(s: State, f: Fault, console: bool, sandbox: bool)
    requires Inv(s)
    ensures Inv(Apply(s, AllocatorCall(f, console, sandbox)))
  {
    hide WorldOk, WorkerOk;
    var w, a := s.world, s.allocator;
    match a
    case Resting => StartsOk(w);
    case Allocating(n) => AllocateKeepsOk(w, n, s.worker, f, console, sandbox);
    case Removing(v, _, _, _, r) =>
      if r.CommitAllocation? {
        CommitKeepsOk(w, v, Allocation, r.done);
      } else {
        RemoveKeepsOk(w, a, s.worker, f);
      }
  }

  lemma UserDeleteKeepsInv(w: World, k: Worker, a: Allocator)
    requires Inv(State(w, k, a))
    ensures Inv(State(Environment(w, UserDelete), k, a))
  {
    DeletedEventsAppend(w.store.events, Updated);
    var t := Environment(w, UserDelete);
    assert WorkerOk(t, k);
    assert AllocatorOk(t, a);
  }

  lemma LiveUpdateKeepsInv(w: World, k: Worker, a: Allocator)
    requires Inv(State(w, k, a))
    ensures Inv(State(Environment(w, LiveUpdate), k, a))
  {
    var t := Environment(w, LiveUpdate);
    assert WorkerOk(t, k);
    assert AllocatorOk(t, a);
  }

  lemma NsFinalizedKeepsInv(w: World, k: Worker, a: Allocator, n: NsName)
    requires Inv(State(w, k, a))
    ensures Inv(State(Environment(w, NsFinalized(n)), k, a))
  {
    var t := Environment(w, NsFinalized(n));
    assert WorkerOk(t, k);
    assert AllocatorOk(t, a);
  }

  lemma ReportKeepsInv(w: World, k: Worker, a: Allocator, owner: Owner, complete: bool)
    requires Inv(State(w, k, a)) && !Targeted(owner)
    ensures Inv(State(Commit(w, w.store.row.version, owner, complete), k, a))
  {
    CommitKeepsOk(w, w.store.row.version, owner, complete);
    hide WorldOk, WorkerOk, AllocatorOk, Commit;
  }

  lemma EnvironmentKeepsInv(s: State, a: Action)
    requires Inv(s)
    ensures Inv(s.(world := Environment(s.world, a)))
  {
    hide Inv;
    match a
    case UserDelete => UserDeleteKeepsInv(s.world, s.worker, s.allocator);
    case LiveUpdate => LiveUpdateKeepsInv(s.world, s.worker, s.allocator);
    case NsFinalized(n) => NsFinalizedKeepsInv(s.world, s.worker, s.allocator, n);
    case Report(owner, complete) =>
      if !Targeted(owner) {
        ReportKeepsInv(s.world, s.worker, s.allocator, owner, complete);
      }
    case _ =>
  }

  lemma ApplyKeepsInv(s: State, a: Action)
    requires Inv(s)
    ensures Inv(Apply(s, a))
  {
    hide WorldOk, Environment, WorkerNext, AllocatorNext;
    match a
    case WorkerCall(f, secret, console) => WorkerKeepsInv(s, f, secret, console);
    case AllocatorCall(f, console, sandbox) => AllocatorKeepsInv(s, f, console, sandbox);
    case WorkerCrash =>
    case AllocatorCrash =>
    case _ => EnvironmentKeepsInv(s, a);
  }

  lemma {:induction false} RunKeepsInv(s: State, actions: seq<Action>)
    requires Inv(s)
    ensures Inv(Run(s, actions))
    decreases |actions|
  {
    if actions != [] {
      RunKeepsInv(s, actions[..|actions| - 1]);
      ApplyKeepsInv(Run(s, actions[..|actions| - 1]), actions[|actions| - 1]);
    }
  }

  /* ---------- what the runs guarantee ---------- */

  predicate Kept(w: World, c: Component) {
    Db(w, c) ==> Bound(w.store, c).digest.Some? && GetNs(w, StateNsOf(c)) == Live(Bound(w.store, c).digest)
  }

  /** In every reachable state a database has a registered digest and a live state namespace that holds its Secret. */
  lemma DatabasesAreBacked(cluster: Cluster, actions: seq<Action>)
    ensures var w := Run(Init(cluster), actions).world; Kept(w, Gateway) && Kept(w, Console)
  {
    InitInv(cluster);
    RunKeepsInv(Init(cluster), actions);
  }

  /** Only the allocator, past its SQL and workload checks, asks a state namespace to go. */
  lemma StateRemovedByAllocator(s: State, a: Action, c: Component)
    requires GetNs(s.world, StateNsOf(c)).Live? && !GetNs(Apply(s, a).world, StateNsOf(c)).Live?
    ensures s.allocator.Removing? && (s.allocator.remove.DeleteConsoleNs? || s.allocator.remove.DeleteStateNs?)
  {
    hide RecordCleanup, CloseSQLState, BindSQLState, CompleteConsoleSQLCleanup;
  }

  /** The first request to remove either state namespace finds both databases dropped and both registrations closed. */
  lemma StateNamespacesGoLast(cluster: Cluster, actions: seq<Action>, next: Action, c: Component)
    requires GetNs(Run(Init(cluster), actions).world, StateNsOf(c)).Live?
    requires !GetNs(Apply(Run(Init(cluster), actions), next).world, StateNsOf(c)).Live?
    ensures var w := Run(Init(cluster), actions).world;
            && !w.gatewayDb && !w.consoleDb
            && w.store.gateway.closed && w.store.console.closed
            && w.store.row.deleted && w.store.row.done.sql
  {
    StateRemovedByAllocator(Run(Init(cluster), actions), next, c);
    InitInv(cluster);
    RunKeepsInv(Init(cluster), actions);
    hide Apply, Run, Backed, Ledger;
  }

  /** Cleanup progresses in order, finalizes once and announces that once. */
  predicate Ordered(w: World, t: World) {
    var done, next := w.store.row.done, t.store.row.done;
    && (w.store.row.deleted ==> t.store.row.deleted)
    && (done.sql ==> next.sql)
    && (next.sql && !done.sql ==> w.store.row.deleted && ConsoleProven(w.store) && ConsoleClean(w) && GatewayClean(w))
    && (next.workload && !done.workload ==> done.sql)
    && (next.allocation && !done.allocation ==> done.sql && done.workload && AllAbsent(w))
    && (w.store.row.finalized ==> t.store.row.finalized)
    && w.store.row.version <= t.store.row.version
    && (t.store.row.finalized && !w.store.row.finalized ==> Complete(next))
    && (t.store.row.version == w.store.row.version ==> t.store.row == w.store.row)
    && DeletedEvents(t.store.events) - DeletedEvents(w.store.events)
         == (if t.store.row.finalized && !w.store.row.finalized then 1 else 0)
  }

  lemma CommitOrdered(w: World, v: nat, owner: Owner, complete: bool)
    requires WorldOk(w)
    requires owner == Sql ==> complete && ConsoleClean(w) && GatewayClean(w)
    requires owner == Workload && complete ==> w.store.row.done.sql
    requires owner == Allocation && complete && v == w.store.row.version ==>
               w.store.row.done.sql && w.store.row.done.workload && AllAbsent(w)
    ensures Ordered(w, Commit(w, v, owner, complete))
  {
    var target := if Targeted(owner) then Some(w.store.row.cluster) else None;
    if RecordCleanup(w.store, v, owner, target, complete).Ok? {
      CleanupEffect(w.store, v, owner, target, complete);
    }
  }

  predicate RowKept(w: World, t: World) {
    t.store.row == w.store.row && t.store.events == w.store.events
  }

  /** Only the last step of an operation writes an observation. */
  lemma WorkerKeepsRow(w: World, k: Worker, f: Fault, secret: Digest, console: bool)
    requires !(k.Dropping? && k.drop.CommitSql?) && !(k.Checking? && k.check.CommitWorkload?)
    ensures RowKept(w, WorkerNext(w, k, f, secret, console).0)
  {
    hide Commit;
  }

  lemma AllocatorKeepsRow(w: World, a: Allocator, f: Fault, console: bool, sandbox: bool)
    requires !(a.Removing? && a.remove.CommitAllocation?)
    ensures RowKept(w, AllocatorNext(w, a, f, console, sandbox).0)
  {
    hide Commit;
  }

  lemma RowKeptOrdered(w: World, t: World)
    requires RowKept(w, t)
    ensures Ordered(w, t)
  {}

  lemma WorkerOrdered(w: World, k: Worker, f: Fault, secret: Digest, console: bool)
    requires WorldOk(w) && WorkerOk(w, k)
    ensures Ordered(w, WorkerNext(w, k, f, secret, console).0)
  {
    if k.Dropping? && k.drop.CommitSql? {
      if k.clean && f != NoEffect {
        CommitOrdered(w, k.version, Sql, true);
      } else {
        RowKeptOrdered(w, w);
      }
    } else if k.Checking? && k.check.CommitWorkload? {
      CommitOrdered(w, k.version, Workload, k.check.observed);
      RowKeptOrdered(w, w);
    } else {
      WorkerKeepsRow(w, k, f, secret, console);
      RowKeptOrdered(w, WorkerNext(w, k, f, secret, console).0);
    }
  }

  lemma AllocatorOrdered(w: World, a: Allocator, f: Fault, console: bool, sandbox: bool)
    requires WorldOk(w) && AllocatorOk(w, a)
    ensures Ordered(w, AllocatorNext(w, a, f, console, sandbox).0)
  {
    if a.Removing? && a.remove.CommitAllocation? {
      CommitOrdered(w, a.version, Allocation, a.remove.done);
      RowKeptOrdered(w, w);
    } else {
      AllocatorKeepsRow(w, a, f, console, sandbox);
      RowKeptOrdered(w, AllocatorNext(w, a, f, console, sandbox).0);
    }
  }

  lemma EnvironmentOrdered(w: World, a: Action)
    requires WorldOk(w)
    ensures Ordered(w, Environment(w, a))
  {
    match a
    case UserDelete => DeletedEventsAppend(w.store.events, Updated);
    case LiveUpdate =>
    case Report(owner, complete) =>
      if Targeted(owner) {
        RowKeptOrdered(w, w);
      } else {
        CommitOrdered(w, w.store.row.version, owner, complete);
      }
    case _ => RowKeptOrdered(w, Environment(w, a));
  }

  lemma StepOrdered(s: State, a: Action)
    requires Inv(s)
    ensures Ordered(s.world, Apply(s, a).world)
  {
    hide WorldOk, WorkerOk, AllocatorOk, Ordered, WorkerNext, AllocatorNext;
    match a
    case WorkerCall(f, secret, console) => WorkerOrdered(s.world, s.worker, f, secret, console);
    case AllocatorCall(f, console, sandbox) => AllocatorOrdered(s.world, s.allocator, f, console, sandbox);
    case WorkerCrash => RowKeptOrdered(s.world, s.world);
    case AllocatorCrash => RowKeptOrdered(s.world, s.world);
    case _ => EnvironmentOrdered(s.world, a);
  }

  lemma {:induction false} RunSplits(s: State, before: seq<Action>, after: seq<Action>)
    ensures Run(s, before + after) == Run(Run(s, before), after)
    decreases |after|
  {
    if after == [] {
      assert before + after == before;
    } else {
      var n := |after| - 1;
      assert (before + after)[..|before| + n] == before + after[..n];
      hide Apply;
      RunSplits(s, before, after[..n]);
    }
  }

  /** The facts about a row that no later action undoes. */
  predicate Settled(w: World, t: World) {
    && (w.store.row.deleted ==> t.store.row.deleted)
    && (w.store.row.done.sql ==> t.store.row.done.sql)
    && (w.store.row.finalized ==> t.store.row.finalized)
    && w.store.row.version <= t.store.row.version
  }

  lemma {:induction false} ContinuationSettles(s: State, actions: seq<Action>)
    requires Inv(s)
    ensures Settled(s.world, Run(s, actions).world)
    decreases |actions|
  {
    if actions != [] {
      var before := Run(s, actions[..|actions| - 1]);
      ContinuationSettles(s, actions[..|actions| - 1]);
      RunKeepsInv(s, actions[..|actions| - 1]);
      StepOrdered(before, actions[|actions| - 1]);
      hide Inv, Apply;
    }
  }

  /** Deletion, a complete sql observation and finalization are never undone, and the Deleted event stands once, exactly from finalization on. */
  lemma RunsSettle(cluster: Cluster, before: seq<Action>, after: seq<Action>)
    ensures Settled(Run(Init(cluster), before).world, Run(Init(cluster), before + after).world)
    ensures var s := Run(Init(cluster), before + after).world.store;
            DeletedEvents(s.events) == (if s.row.finalized then 1 else 0)
  {
    InitInv(cluster);
    RunKeepsInv(Init(cluster), before);
    ContinuationSettles(Run(Init(cluster), before), after);
    RunSplits(Init(cluster), before, after);
    RunKeepsInv(Init(cluster), before + after);
    hide BindingsOk, DoneOk, Backed, WorkerOk, AllocatorOk, Apply, Run;
  }

  predicate SameDigests(w: World, t: World) {
    t.store.gateway.digest == w.store.gateway.digest && t.store.console.digest == w.store.console.digest
  }

  lemma WorkerFreezesDigests(w: World, k: Worker, f: Fault, secret: Digest, console: bool)
    requires w.store.row.deleted
    ensures SameDigests(w, WorkerNext(w, k, f, secret, console).0)
  {
    hide ConsoleProven;
  }

  /** No binding gains or changes a digest once the row is deleted. */
  lemma DeletionFreezesDigests(s: State, a: Action)
    requires s.world.store.row.deleted
    ensures SameDigests(s.world, Apply(s, a).world)
  {
    hide WorkerNext, ConsoleProven;
    if a.WorkerCall? {
      WorkerFreezesDigests(s.world, s.worker, a.fault, a.secret, a.console);
    }
  }

  /** A registered digest stays, and a closed registration never opens again. */
  predicate Retained(b: Binding, c: Binding) {
    b.present ==> c.present && c.digest == b.digest && (b.closed ==> c.closed)
  }

  predicate BindingsRetained(w: World, t: World) {
    Retained(w.store.gateway, t.store.gateway) && Retained(w.store.console, t.store.console)
  }

  lemma WorkerRetainsBindings(w: World, k: Worker, f: Fault, secret: Digest, console: bool)
    ensures BindingsRetained(w, WorkerNext(w, k, f, secret, console).0)
  {
    hide ConsoleProven;
  }

  /** No action of any party changes the digest of a registered binding or reopens a closed one. */
  lemma BindingsNeverChange(s: State, a: Action)
    ensures BindingsRetained(s.world, Apply(s, a).world)
  {
    hide WorkerNext, ConsoleProven;
    if a.WorkerCall? {
      WorkerRetainsBindings(s.world, s.worker, a.fault, a.secret, a.console);
    }
  }

  /** A complete sql target leaves no console digest without closed evidence of the same digest. */
  lemma CompleteSqlProvesConsole(cluster: Cluster, actions: seq<Action>)
    requires Run(Init(cluster), actions).world.store.row.done.sql
    ensures var s := Run(Init(cluster), actions).world.store;
            s.console.digest == None || (s.console.closed && s.completion.closed && s.completion.digest == s.console.digest)
  {
    InitInv(cluster);
    RunKeepsInv(Init(cluster), actions);
    hide Backed, WorkerOk, AllocatorOk, Run;
  }

  /** On every run, completing console cleanup a second time returns the same store. */
  lemma ConsoleCompletionIdempotent(cluster: Cluster, actions: seq<Action>, t: Store)
    requires CompleteConsoleSQLCleanup(Run(Init(cluster), actions).world.store, cluster) == Ok(t)
    ensures CompleteConsoleSQLCleanup(t, cluster) == Ok(t) && ConsoleProven(t)
  {
    InitInv(cluster);
    RunKeepsInv(Init(cluster), actions);
    CompletionIdempotent(Run(Init(cluster), actions).world.store, cluster);
    hide *;
  }
}
