/**
 Durable Gateway deletion: the user, the workload worker and the namespace
 allocator of one managed cluster. An action is one transaction, one external
 call, a crash, or a step of the environment, in any order. A worker acts on the
 row it read when its operation began, however stale that read has become.
 */
module DeletionProtocol {
  import opened Common
  import opened GatewayRecord

  /** A live state namespace may hold the immutable Secret of its SQL state. */
  datatype Ns = Absent | Live(secret: Option<Digest>) | Terminating

  datatype NsName = GatewayNs | SandboxNs | StateNs | ConsoleNs

  /** How one external call of a worker ends. A lost reply has its effect. */
  datatype Fault = NoFault | NoEffect | LostReply

  datatype EnsureStep =
    | Require(c: Component)
    | LoadBinding(c: Component)
    | OpenSecret(c: Component, seen: Binding)
    | Register(c: Component, digest: Digest)
    | CreateDb(c: Component, digest: Digest)

  datatype DropStep =
    | GatewayGone
    | SandboxGone
    | Close(c: Component)
    | ReadState(c: Component, digest: Digest)
    | DropDb(c: Component)
    | CompleteConsole
    | CommitSql

  datatype CheckStep = GatewayAway | SandboxAway | CommitWorkload(observed: bool)

  datatype Worker =
    | Idle
    | Ensuring(version: nat, ensure: EnsureStep)
    | Dropping(version: nat, clean: bool, drop: DropStep)
    | Checking(version: nat, prior: bool, check: CheckStep)

  datatype RemoveStep =
    | DeleteGatewayNs
    | DeleteSandboxNs(gatewayDone: bool, failed: bool)
    | DeleteConsoleNs
    | DeleteStateNs(consoleDone: bool)
    | CommitAllocation(done: bool)

  datatype Allocator =
    | Resting
    | Allocating(next: NsName)
    | Removing(version: nat, sql: bool, workload: bool, prior: bool, remove: RemoveStep)

  /** The control-plane store and everything the workers act on outside it. */
  datatype World = World(
    store: Store,
    gatewayNs: Ns, sandboxNs: Ns, stateNs: Ns, consoleNs: Ns,
    gatewayDb: bool, consoleDb: bool)

  datatype State = State(world: World, worker: Worker, allocator: Allocator)

  /** `secret` is the digest of newly generated credentials. */
  datatype Action =
    | UserDelete
    | LiveUpdate
    | Report(owner: Owner, complete: bool)
    | NsFinalized(name: NsName)
    | WorkerCall(fault: Fault, secret: Digest, console: bool)
    | WorkerCrash
    | AllocatorCall(fault: Fault, console: bool, sandbox: bool)
    | AllocatorCrash

  function Init(cluster: Cluster): State {
    State(World(Created(cluster), Absent, Absent, Absent, Absent, false, false), Idle, Resting)
  }

  function Db(w: World, c: Component): bool {
    if c == Gateway then w.gatewayDb else w.consoleDb
  }

  function WithDb(w: World, c: Component, present: bool): World {
    if c == Gateway then w.(gatewayDb := present) else w.(consoleDb := present)
  }

  function GetNs(w: World, n: NsName): Ns {
    match n
    case GatewayNs => w.gatewayNs
    case SandboxNs => w.sandboxNs
    case StateNs => w.stateNs
    case ConsoleNs => w.consoleNs
  }

  function WithNs(w: World, n: NsName, ns: Ns): World {
    match n
    case GatewayNs => w.(gatewayNs := ns)
    case SandboxNs => w.(sandboxNs := ns)
    case StateNs => w.(stateNs := ns)
    case ConsoleNs => w.(consoleNs := ns)
  }

  function StateNsOf(c: Component): NsName {
    if c == Gateway then StateNs else ConsoleNs
  }

  /* ---------- workload worker ---------- */

  /** The read at the start of a reconcile decides the whole operation. */
  function StartWork(row: Row): Worker {
    if !row.deleted then Ensuring(row.version, Require(Gateway))
    else if !row.done.sql then Dropping(row.version, true, GatewayGone)
    else Checking(row.version, row.done.workload, GatewayAway)
  }

  function EnsureCall(w: World, v: nat, e: EnsureStep, f: Fault, secret: Digest, console: bool): (World, Worker) {
    match e
    case Require(c) =>
      (w, if f != NoFault || !w.gatewayNs.Live? then Idle else Ensuring(v, LoadBinding(c)))
    case LoadBinding(c) =>
      var b := Bound(w.store, c);
      (w, if f != NoFault || !GetNs(w, StateNsOf(c)).Live? || b.closed then Idle else Ensuring(v, OpenSecret(c, b)))
    case OpenSecret(c, seen) =>
      var ns := GetNs(w, StateNsOf(c));
      if f == NoEffect || !ns.Live? then (w, Idle)
      else if ns.secret.Some? then
        (w, if f == LostReply || (seen.present && seen.digest != ns.secret) then Idle else Ensuring(v, Register(c, ns.secret.value)))
      else if seen.present || Db(w, c) then (w, Idle)
      else
        (WithNs(w, StateNsOf(c), Live(Some(secret))), if f == LostReply then Idle else Ensuring(v, Register(c, secret)))
    case Register(c, digest) =>
      var bound := BindSQLState(w.store, w.store.row.cluster, c, digest, v);
      if f == NoEffect || bound.Err? then (w, Idle)
      else (w.(store := bound.value), if f == LostReply then Idle else Ensuring(v, CreateDb(c, digest)))
    case CreateDb(c, _) =>
      if f == NoEffect then (w, Idle)
      else
        (WithDb(w, c, true), if f == NoFault && c == Gateway && console then Ensuring(v, Require(Console)) else Idle)
  }

  /** Both components are attempted; one failure keeps the observation pending. */
  function Failed(v: nat, c: Component): Worker {
    Dropping(v, false, if c == Console then Close(Gateway) else CommitSql)
  }

  function Dropped(v: nat, clean: bool, c: Component): Worker {
    Dropping(v, clean, if c == Console then CompleteConsole else CommitSql)
  }

  function DropCall(w: World, v: nat, clean: bool, d: DropStep, f: Fault): (World, Worker) {
    match d
    case GatewayGone =>
      (w, if f != NoFault || w.gatewayNs != Absent then Idle else Dropping(v, clean, SandboxGone))
    case SandboxGone =>
      (w, if f != NoFault || w.sandboxNs != Absent then Idle else Dropping(v, clean, Close(Console)))
    case Close(c) =>
      var closed := CloseSQLState(w.store, w.store.row.cluster, c);
      if f == NoEffect || closed.Err? then (w, Failed(v, c))
      else
        var digest := Bound(closed.value, c).digest;
        (w.(store := closed.value),
         if f == LostReply then Failed(v, c)
         else if digest.Some? then Dropping(v, clean, ReadState(c, digest.value))
         else Dropped(v, clean, c))
    case ReadState(c, digest) =>
      if f != NoFault || GetNs(w, StateNsOf(c)) != Live(Some(digest)) || Bound(w.store, c).digest != Some(digest) then
        (w, Failed(v, c))
      else (w, Dropping(v, clean, DropDb(c)))
    case DropDb(c) =>
      if f == NoEffect then (w, Failed(v, c))
      else (WithDb(w, c, false), if f == LostReply then Failed(v, c) else Dropped(v, clean, c))
    case CompleteConsole =>
      var completed := CompleteConsoleSQLCleanup(w.store, w.store.row.cluster);
      if f == NoEffect || completed.Err? then (w, Failed(v, Console))
      else (w.(store := completed.value), Dropping(v, clean && f == NoFault, Close(Gateway)))
    case CommitSql =>
      (if clean && f != NoEffect then Commit(w, v, Sql, true) else w, Idle)
  }

  function CheckCall(w: World, v: nat, prior: bool, k: CheckStep, f: Fault): (World, Worker) {
    match k
    case GatewayAway =>
      (w, Checking(v, prior, if f != NoFault || w.gatewayNs != Absent then CommitWorkload(false) else SandboxAway))
    case SandboxAway =>
      (w, Checking(v, prior, CommitWorkload(f == NoFault && w.sandboxNs == Absent)))
    case CommitWorkload(observed) =>
      (if observed != prior && f != NoEffect then Commit(w, v, Workload, observed) else w, Idle)
  }

  /** A refused observation leaves the store as it was. */
  function Commit(w: World, v: nat, owner: Owner, complete: bool): World {
    var target := if Targeted(owner) then Some(w.store.row.cluster) else None;
    var observed := RecordCleanup(w.store, v, owner, target, complete);
    if observed.Ok? then w.(store := observed.value) else w
  }

  function WorkerNext(w: World, k: Worker, f: Fault, secret: Digest, console: bool): (World, Worker) {
    match k
    case Idle => (w, if f != NoFault then Idle else StartWork(w.store.row))
    case Ensuring(v, e) => EnsureCall(w, v, e, f, secret, console)
    case Dropping(v, clean, d) => DropCall(w, v, clean, d, f)
    case Checking(v, prior, c) => CheckCall(w, v, prior, c, f)
  }

  /* ---------- namespace allocator ---------- */

  function StartAllocation(row: Row): Allocator {
    if !row.deleted then Allocating(StateNs)
    else Removing(row.version, row.done.sql, row.done.workload, row.done.allocation, DeleteGatewayNs)
  }

  function AfterEnsure(n: NsName, console: bool, sandbox: bool): Allocator {
    match n
    case StateNs => Allocating(if console then ConsoleNs else GatewayNs)
    case ConsoleNs => Allocating(GatewayNs)
    case GatewayNs => if sandbox then Allocating(SandboxNs) else Resting
    case SandboxNs => Resting
  }

  function AllocateCall(w: World, n: NsName, f: Fault, console: bool, sandbox: bool): (World, Allocator) {
    var ns := GetNs(w, n);
    if f == NoEffect || ns == Terminating then (w, Resting)
    else
      (if ns == Absent then WithNs(w, n, Live(None)) else w,
       if f == LostReply then Resting else AfterEnsure(n, console, sandbox))
  }

  /** Deletion is a request; a namespace is gone only when a call finds it absent. */
  function RequestDelete(w: World, n: NsName, f: Fault): World {
    if f != NoEffect && GetNs(w, n).Live? then WithNs(w, n, Terminating) else w
  }

  function RemoveCall(w: World, a: Allocator, f: Fault): (World, Allocator)
    requires a.Removing?
  {
    match a.remove
    case DeleteGatewayNs =>
      (RequestDelete(w, GatewayNs, f),
       a.(remove := DeleteSandboxNs(f == NoFault && w.gatewayNs == Absent, f != NoFault)))
    case DeleteSandboxNs(gatewayDone, failed) =>
      var ready := f == NoFault && w.sandboxNs == Absent && gatewayDone && !failed && a.sql && a.workload;
      (RequestDelete(w, SandboxNs, f), a.(remove := if ready then DeleteConsoleNs else CommitAllocation(false)))
    case DeleteConsoleNs =>
      (RequestDelete(w, ConsoleNs, f),
       a.(remove := if f != NoFault then CommitAllocation(false) else DeleteStateNs(w.consoleNs == Absent)))
    case DeleteStateNs(consoleDone) =>
      (RequestDelete(w, StateNs, f),
       a.(remove := CommitAllocation(f == NoFault && consoleDone && w.stateNs == Absent)))
    case CommitAllocation(done) =>
      (if done != a.prior && f != NoEffect then Commit(w, a.version, Allocation, done) else w, Resting)
  }

  function AllocatorNext(w: World, a: Allocator, f: Fault, console: bool, sandbox: bool): (World, Allocator) {
    match a
    case Resting => (w, if f != NoFault then Resting else StartAllocation(w.store.row))
    case Allocating(n) => AllocateCall(w, n, f, console, sandbox)
    case Removing(_, _, _, _, _) => RemoveCall(w, a, f)
  }

  /* ---------- whole system ---------- */

  function Environment(w: World, a: Action): World {
    match a
    case UserDelete => w.(store := DeleteGateway(w.store))
    case LiveUpdate =>
      if w.store.row.deleted then w
      else w.(store := w.store.(row := w.store.row.(version := w.store.row.version + 1)))
    case Report(owner, complete) => if Targeted(owner) then w else Commit(w, w.store.row.version, owner, complete)
    case NsFinalized(n) => if GetNs(w, n) == Terminating then WithNs(w, n, Absent) else w
    case _ => w
  }

  function Apply(s: State, a: Action): State {
    match a
    case WorkerCall(f, secret, console) =>
      var (w, k) := WorkerNext(s.world, s.worker, f, secret, console);
      State(w, k, s.allocator)
    case WorkerCrash => s.(worker := Idle)
    case AllocatorCall(f, console, sandbox) =>
      var (w, a) := AllocatorNext(s.world, s.allocator, f, console, sandbox);
      State(w, s.worker, a)
    case AllocatorCrash => s.(allocator := Resting)
    case _ => s.(world := Environment(s.world, a))
  }

  function Run(s: State, actions: seq<Action>): State
    decreases |actions|
  {
    if actions == [] then s else Apply(Run(s, actions[..|actions| - 1]), actions[|actions| - 1])
  }
}
