/**
 Deletion has no stuck state: a rank over the remaining namespaces, the pending
 observations and the operations in progress falls at one fault-free action
 from every reachable deleted state, until the row is finalized.
 */
module DeletionProgress {
  import opened Common
  import opened GatewayRecord
  import opened DeletionProtocol
  import opened DeletionSafety

  /** Above the steps of any one operation. */
  const IDLE := 11

  /** Above every rise that the end of an operation can cause. */
  const UNIT := 32

  function NsWork(ns: Ns): nat {
    match ns
    case Absent => 0
    case Live(_) => 2
    case Terminating => 1
  }

  function Pending(done: bool): nat {
    if done then 0 else 1
  }

  function PendingOwners(d: Done): nat {
    Pending(d.accounts) + Pending(d.identity) + Pending(d.workload) + Pending(d.sql) + Pending(d.allocation)
  }

  function Work(w: World): nat {
    NsWork(w.gatewayNs) + NsWork(w.sandboxNs) + NsWork(w.stateNs) + NsWork(w.consoleNs) + PendingOwners(w.store.row.done)
  }

  function EnsureSteps(e: EnsureStep): nat {
    match e
    case Require(_) => 5
    case LoadBinding(_) => 4
    case OpenSecret(_, _) => 3
    case Register(_, _) => 2
    case CreateDb(_, _) => 1
  }

  function DropSteps(d: DropStep): nat {
    match d
    case GatewayGone => 10
    case SandboxGone => 9
    case Close(c) => if c == Console then 8 else 4
    case ReadState(c, _) => if c == Console then 7 else 3
    case DropDb(c) => if c == Console then 6 else 2
    case CompleteConsole => 5
    case CommitSql => 1
  }

  function CheckSteps(k: CheckStep): nat {
    match k
    case GatewayAway => 3
    case SandboxAway => 2
    case CommitWorkload(_) => 1
  }

  function RemoveSteps(r: RemoveStep): nat {
    match r
    case DeleteGatewayNs => 5
    case DeleteSandboxNs(_, _) => 4
    case DeleteConsoleNs => 3
    case DeleteStateNs(_) => 2
    case CommitAllocation(_) => 1
  }

  predicate RuntimeGone(w: World) {
    w.gatewayNs == Absent && w.sandboxNs == Absent
  }

  /** Left alone, this cleanup will commit. */
  predicate WillDrop(w: World, v: nat, clean: bool, d: DropStep) {
    && clean && v == w.store.row.version
    && (d.GatewayGone? ==> RuntimeGone(w))
    && (d.SandboxGone? ==> w.sandboxNs == Absent)
  }

  predicate WillCheck(w: World, v: nat, prior: bool, k: CheckStep) {
    && !prior && v == w.store.row.version
    && (k.GatewayAway? ==> RuntimeGone(w))
    && (k.SandboxAway? ==> w.sandboxNs == Absent)
    && (k.CommitWorkload? ==> k.observed)
  }

  predicate WillCommitAllocation(w: World, a: Allocator, done: bool)
    requires a.Removing?
  {
    done && !a.prior && a.version == w.store.row.version
  }

  predicate WillRemoveState(w: World, a: Allocator, consoleDone: bool)
    requires a.Removing?
  {
    w.stateNs.Live? || WillCommitAllocation(w, a, consoleDone && w.stateNs == Absent)
  }

  predicate WillRemoveConsole(w: World, a: Allocator)
    requires a.Removing?
  {
    w.consoleNs.Live? || WillRemoveState(w, a, w.consoleNs == Absent)
  }

  /** Left alone, this removal will request a deletion or commit. */
  predicate WillRemove(w: World, a: Allocator)
    requires a.Removing?
  {
    match a.remove
    case DeleteGatewayNs =>
      w.gatewayNs.Live? || w.sandboxNs.Live? || (RuntimeGone(w) && a.sql && a.workload && WillRemoveConsole(w, a))
    case DeleteSandboxNs(gatewayDone, failed) =>
      w.sandboxNs.Live? || (w.sandboxNs == Absent && gatewayDone && !failed && a.sql && a.workload && WillRemoveConsole(w, a))
    case DeleteConsoleNs => WillRemoveConsole(w, a)
    case DeleteStateNs(consoleDone) => WillRemoveState(w, a, consoleDone)
    case CommitAllocation(done) => WillCommitAllocation(w, a, done)
  }

  /** An operation that read a complete observation may still withdraw it. */
  function Withdrawal(prior: bool): nat {
    if prior then 2 * UNIT else 0
  }

  function WorkerRank(w: World, k: Worker): nat {
    match k
    case Idle => IDLE
    case Ensuring(_, e) => IDLE + EnsureSteps(e)
    case Dropping(v, clean, d) => DropSteps(d) + (if WillDrop(w, v, clean, d) then 0 else IDLE)
    case Checking(v, prior, c) => CheckSteps(c) + Withdrawal(prior) + (if WillCheck(w, v, prior, c) then 0 else IDLE)
  }

  /** Each namespace an allocation may still create is paid for here. */
  function AllocatorRank(w: World, a: Allocator): nat {
    match a
    case Resting => IDLE
    case Allocating(n) => IDLE + (2 * UNIT + 1) * (if n == StateNs || n == ConsoleNs then 2 else 1)
    case Removing(_, _, _, prior, r) => RemoveSteps(r) + Withdrawal(prior) + (if WillRemove(w, a) then 0 else IDLE)
  }

  function Rank(s: State): nat {
    UNIT * Work(s.world) + WorkerRank(s.world, s.worker) + AllocatorRank(s.world, s.allocator)
  }

  /** The next fault-free action of a row that is deleted and not finalized. */
  function Next(s: State): Action {
    var w := s.world;
    var done := w.store.row.done;
    if s.worker != Idle then WorkerCall(NoFault, 0, false)
    else if s.allocator != Resting then AllocatorCall(NoFault, false, false)
    else if w.gatewayNs == Terminating then NsFinalized(GatewayNs)
    else if w.sandboxNs == Terminating then NsFinalized(SandboxNs)
    else if w.consoleNs == Terminating then NsFinalized(ConsoleNs)
    else if w.stateNs == Terminating then NsFinalized(StateNs)
    else if !RuntimeGone(w) then AllocatorCall(NoFault, false, false)
    else if !done.sql || !done.workload then WorkerCall(NoFault, 0, false)
    else if !done.allocation then AllocatorCall(NoFault, false, false)
    else if !done.identity then Report(Identity, true)
    else Report(Accounts, true)
  }

  predicate Unfinished(w: World) {
    w.store.row.deleted && !w.store.row.finalized
  }

  predicate Falls(s: State, t: State) {
    Rank(t) < Rank(s)
  }

  /** What a worker step that commits nothing leaves of the other ranks. */
  predicate Unworked(w: World, t: World) {
    && t.store.row == w.store.row
    && NsWork(t.gatewayNs) == NsWork(w.gatewayNs) && NsWork(t.sandboxNs) == NsWork(w.sandboxNs)
    && NsWork(t.stateNs) == NsWork(w.stateNs) && NsWork(t.consoleNs) == NsWork(w.consoleNs)
  }

  lemma UnworkedRanks(w: World, t: World, a: Allocator)
    requires Unworked(w, t)
    ensures Work(t) == Work(w) && AllocatorRank(t, a) == AllocatorRank(w, a)
  {}

  lemma UnworkedFalls(w: World, t: World, k: Worker, k': Worker, a: Allocator)
    requires Unworked(w, t) && WorkerRank(t, k') < WorkerRank(w, k)
    ensures Falls(State(w, k, a), State(t, k', a))
  {
    UnworkedRanks(w, t, a);
    hide Work, WorkerRank, AllocatorRank;
  }

  lemma EnsureFalls(w: World, v: nat, e: EnsureStep)
    requires w.store.row.deleted
    ensures var (t, k) := EnsureCall(w, v, e, NoFault, 0, false);
            Unworked(w, t) && WorkerRank(t, k) < WorkerRank(w, Ensuring(v, e))
  {}

  lemma DropFalls(w: World, v: nat, clean: bool, d: DropStep)
    requires WorldOk(w) && WorkerOk(w, Dropping(v, clean, d)) && !d.CommitSql?
    ensures var (t, k) := DropCall(w, v, clean, d, NoFault);
            Unworked(w, t) && WorkerRank(t, k) < WorkerRank(w, Dropping(v, clean, d))
  {
    hide Ledger, DoneOk;
  }

  lemma CheckFalls(w: World, v: nat, prior: bool, c: CheckStep)
    requires !c.CommitWorkload?
    ensures var (t, k) := CheckCall(w, v, prior, c, NoFault);
            Unworked(w, t) && WorkerRank(t, k) < WorkerRank(w, Checking(v, prior, c))
  {}

  /** A changed revision may spoil the other operation, by less than one unit of work. */
  lemma SpoiledBound(w: World, t: World, a: Allocator)
    ensures AllocatorRank(t, a) <= AllocatorRank(w, a) + IDLE
  {
    hide WillRemove;
  }

  function Sign(complete: bool): int {
    if complete then -1 else 1
  }

  lemma MarkPending(d: Done, owner: Owner, complete: bool)
    requires Has(d, owner) != complete
    ensures PendingOwners(Mark(d, owner, complete)) == PendingOwners(d) + Sign(complete)
  {}

  lemma CommitWork(w: World, v: nat, owner: Owner, complete: bool)
    requires w.store.row.deleted && Ledger(w.store)
    requires v == w.store.row.version ==> Has(w.store.row.done, owner) != complete
    requires owner == Sql && complete ==> ConsoleProven(w.store)
    ensures v != w.store.row.version ==> Commit(w, v, owner, complete) == w
    ensures v == w.store.row.version ==> Work(Commit(w, v, owner, complete)) == Work(w) + Sign(complete)
  {
    if v == w.store.row.version {
      var target := if Targeted(owner) then Some(w.store.row.cluster) else None;
      assert RecordCleanup(w.store, v, owner, target, complete).Ok? by { hide Observed, Finalized, Mark, Complete; }
      CleanupEffect(w.store, v, owner, target, complete);
      MarkPending(w.store.row.done, owner, complete);
      hide RecordCleanup, PendingOwners, Mark, Ledger, ConsoleProven;
    } else {
      hide Work, Mark;
    }
  }

  lemma WorkerCommitFalls(w: World, k: Worker, a: Allocator)
    requires WorldOk(w) && WorkerOk(w, k)
    requires (k.Dropping? && k.drop.CommitSql?) || (k.Checking? && k.check.CommitWorkload?)
    ensures var (t, k') := WorkerNext(w, k, NoFault, 0, false); Falls(State(w, k, a), State(t, k', a))
  {
    var t := WorkerNext(w, k, NoFault, 0, false).0;
    SpoiledBound(w, t, a);
    if k.Dropping? {
      if k.clean {
        CommitWork(w, k.version, Sql, true);
      }
    } else if k.check.observed != k.prior {
      CommitWork(w, k.version, Workload, k.check.observed);
    }
    hide Work, AllocatorRank, Commit;
  }

  lemma CallFalls(w: World, k: Worker)
    requires WorldOk(w) && WorkerOk(w, k) && k != Idle && w.store.row.deleted
    requires !(k.Dropping? && k.drop.CommitSql?) && !(k.Checking? && k.check.CommitWorkload?)
    ensures var (t, k') := WorkerNext(w, k, NoFault, 0, false); Unworked(w, t) && WorkerRank(t, k') < WorkerRank(w, k)
  {
    hide WorldOk, WorkerOk, EnsureCall, DropCall, CheckCall, Unworked, WorkerRank;
    match k
    case Ensuring(v, e) => EnsureFalls(w, v, e);
    case Dropping(v, clean, d) => DropFalls(w, v, clean, d);
    case Checking(v, prior, c) => CheckFalls(w, v, prior, c);
  }

  lemma WorkerFalls(w: World, k: Worker, a: Allocator)
    requires WorldOk(w) && WorkerOk(w, k) && k != Idle && w.store.row.deleted
    ensures var (t, k') := WorkerNext(w, k, NoFault, 0, false); Falls(State(w, k, a), State(t, k', a))
  {
    hide *;
    if (k.Dropping? && k.drop.CommitSql?) || (k.Checking? && k.check.CommitWorkload?) {
      WorkerCommitFalls(w, k, a);
    } else {
      CallFalls(w, k);
      UnworkedFalls(w, WorkerNext(w, k, NoFault, 0, false).0, k, WorkerNext(w, k, NoFault, 0, false).1, a);
    }
  }

  lemma AllocateFalls(w: World, n: NsName)
    ensures var (t, a) := AllocateCall(w, n, NoFault, false, false);
            UNIT * Work(t) + AllocatorRank(t, a) < UNIT * Work(w) + AllocatorRank(w, Allocating(n))
  {}

  lemma RequestWork(w: World, n: NsName)
    ensures Work(RequestDelete(w, n, NoFault)) == Work(w) - (if GetNs(w, n).Live? then 1 else 0)
  {}

  /** A deletion request pays for any later course; without one the course is kept. */
  lemma RemoveFalls(w: World, a: Allocator)
    requires a.Removing? && !a.remove.CommitAllocation?
    ensures var (t, a') := RemoveCall(w, a, NoFault);
            UNIT * Work(t) + AllocatorRank(t, a') < UNIT * Work(w) + AllocatorRank(w, a)
  {
    var n := match a.remove
      case DeleteGatewayNs => GatewayNs
      case DeleteSandboxNs(_, _) => SandboxNs
      case DeleteConsoleNs => ConsoleNs
      case _ => StateNs;
    RequestWork(w, n);
    hide Work;
  }

  lemma AllocatorCommitFalls(w: World, k: Worker, a: Allocator)
    requires WorldOk(w) && AllocatorOk(w, a) && k == Idle && a.Removing? && a.remove.CommitAllocation?
    ensures var (t, a') := AllocatorNext(w, a, NoFault, false, false); Falls(State(w, k, a), State(t, k, a'))
  {
    if a.remove.done != a.prior {
      CommitWork(w, a.version, Allocation, a.remove.done);
    }
    hide Work, Commit;
  }

  lemma AllocatorFalls(w: World, k: Worker, a: Allocator)
    requires WorldOk(w) && AllocatorOk(w, a) && k == Idle && a != Resting
    ensures var (t, a') := AllocatorNext(w, a, NoFault, false, false); Falls(State(w, k, a), State(t, k, a'))
  {
    hide Work, AllocateCall, RemoveCall, WillRemove;
    match a
    case Allocating(n) => AllocateFalls(w, n);
    case Removing(_, _, _, _, r) =>
      if r.CommitAllocation? {
        AllocatorCommitFalls(w, k, a);
      } else {
        RemoveFalls(w, a);
      }
  }

  lemma FinalizedNsFalls(w: World, n: NsName)
    requires GetNs(w, n) == Terminating
    ensures Falls(State(w, Idle, Resting), State(Environment(w, NsFinalized(n)), Idle, Resting))
  {}

  lemma ReportFalls(w: World, owner: Owner)
    requires WorldOk(w) && w.store.row.deleted && !Targeted(owner) && !Has(w.store.row.done, owner)
    ensures Falls(State(w, Idle, Resting), State(Environment(w, Report(owner, true)), Idle, Resting))
  {
    CommitWork(w, w.store.row.version, owner, true);
    hide Work, Commit;
  }

  /** With nothing under way and nothing terminating, the operation that starts next will succeed. */
  lemma StartFalls(w: World)
    requires WorldOk(w) && w.store.row.deleted
    requires w.gatewayNs != Terminating && w.sandboxNs != Terminating && w.consoleNs != Terminating && w.stateNs != Terminating
    ensures !RuntimeGone(w) ==> Falls(State(w, Idle, Resting), State(w, Idle, StartAllocation(w.store.row)))
    ensures RuntimeGone(w) && !(w.store.row.done.sql && w.store.row.done.workload) ==>
              Falls(State(w, Idle, Resting), State(w, StartWork(w.store.row), Resting))
    ensures RuntimeGone(w) && w.store.row.done.sql && w.store.row.done.workload && !w.store.row.done.allocation ==>
              Falls(State(w, Idle, Resting), State(w, Idle, StartAllocation(w.store.row)))
  {
    hide Work, Ledger, BindingsOk, Backed;
  }

  /** With nothing under way the next action lowers the rank. */
  lemma RestingFalls(w: World)
    requires WorldOk(w) && Unfinished(w)
    ensures Falls(State(w, Idle, Resting), Apply(State(w, Idle, Resting), Next(State(w, Idle, Resting))))
  {
    hide Falls, StartWork, StartAllocation, BindingsOk, Backed;
    if w.gatewayNs == Terminating {
      FinalizedNsFalls(w, GatewayNs);
    } else if w.sandboxNs == Terminating {
      FinalizedNsFalls(w, SandboxNs);
    } else if w.consoleNs == Terminating {
      FinalizedNsFalls(w, ConsoleNs);
    } else if w.stateNs == Terminating {
      FinalizedNsFalls(w, StateNs);
    } else if RuntimeGone(w) && w.store.row.done.sql && w.store.row.done.workload && w.store.row.done.allocation {
      ReportFalls(w, if w.store.row.done.identity then Accounts else Identity);
      hide Environment;
    } else {
      StartFalls(w);
    }
  }

  /** No reachable deleted state is stuck: the next fault-free action lowers the rank. */
  lemma RankFalls(s: State)
    requires Inv(s) && Unfinished(s.world)
    ensures Rank(Apply(s, Next(s))) < Rank(s)
  {
    hide Rank, WorldOk, WorkerOk, AllocatorOk, WorkerNext, AllocatorNext, RuntimeGone;
    if s.worker != Idle {
      WorkerFalls(s.world, s.worker, s.allocator);
    } else if s.allocator != Resting {
      AllocatorFalls(s.world, s.worker, s.allocator);
    } else {
      hide Apply, Next;
      RestingFalls(s.world);
    }
  }

  function Finish(s: State): (actions: seq<Action>)
    requires Inv(s) && s.world.store.row.deleted
    decreases Rank(s)
  {
    if s.world.store.row.finalized then []
    else
      RankFalls(s);
      ApplyKeepsInv(s, Next(s));
      StepOrdered(s, Next(s));
      [Next(s)] + Finish(Apply(s, Next(s)))
  }

  predicate FaultFree(a: Action) {
    match a
    case WorkerCall(f, _, _) => f == NoFault
    case AllocatorCall(f, _, _) => f == NoFault
    case Report(_, complete) => complete
    case NsFinalized(_) => true
    case _ => false
  }

  lemma NextIsFaultFree(s: State)
    ensures FaultFree(Next(s))
  {}

  lemma {:induction false} FinishIsFaultFree(s: State)
    requires Inv(s) && s.world.store.row.deleted
    ensures forall a :: a in Finish(s) ==> FaultFree(a)
    decreases Rank(s)
  {
    if !s.world.store.row.finalized {
      RankFalls(s);
      ApplyKeepsInv(s, Next(s));
      StepOrdered(s, Next(s));
      FinishIsFaultFree(Apply(s, Next(s)));
      NextIsFaultFree(s);
      hide Apply, Rank, Inv, Next, FaultFree;
    }
  }

  lemma RunOne(s: State, a: Action)
    ensures Run(s, [a]) == Apply(s, a)
  {
    hide Apply;
    assert [a][..0] == [] && Run(s, [a]) == Apply(Run(s, []), a);
  }

  /** From every reachable deleted state the fault-free run is no longer than the rank and reaches finalization. */
  lemma {:induction false} FinishReachesFinalization(s: State)
    requires Inv(s) && s.world.store.row.deleted
    ensures Run(s, Finish(s)).world.store.row.finalized
    ensures |Finish(s)| <= Rank(s)
    decreases Rank(s)
  {
    if !s.world.store.row.finalized {
      RankFalls(s);
      ApplyKeepsInv(s, Next(s));
      StepOrdered(s, Next(s));
      FinishReachesFinalization(Apply(s, Next(s)));
      RunOne(s, Next(s));
      RunSplits(s, [Next(s)], Finish(Apply(s, Next(s))));
      hide Apply, Rank, Inv, Next, Run;
    }
  }

  lemma RankBound(s: State)
    ensures Rank(s) <= 650
  {}

  /** However the run began, at most 650 further fault-free actions finish a deletion. */
  lemma DeletionCanFinish(cluster: Cluster, actions: seq<Action>)
    requires Run(Init(cluster), actions).world.store.row.deleted
    ensures exists rest: seq<Action> ::
              && |rest| <= 650
              && (forall a :: a in rest ==> FaultFree(a))
              && Run(Init(cluster), actions + rest).world.store.row.finalized
  {
    InitInv(cluster);
    RunKeepsInv(Init(cluster), actions);
    var s := Run(Init(cluster), actions);
    FinishReachesFinalization(s);
    FinishIsFaultFree(s);
    RankBound(s);
    RunSplits(Init(cluster), actions, Finish(s));
    hide Inv, Rank, Run, Finish, FaultFree;
  }
}
