/**
 The rest of one operation of the workload worker or the allocator when no other
 action comes between its calls: a run of the protocol, and what it comes to when
 no call fails. `Faults` says how the call with each remaining step count ends.
 */
module Operations {
  import opened Common
  import opened GatewayRecord
  import opened DeletionProtocol
  import opened DeletionSafety
  import opened DeletionProgress

  type Faults = nat -> Fault

  /** The rest of one operation, without interruption. */
  function EnsureRest(w: World, v: nat, e: EnsureStep, secret: Digest, f: Faults): World
    decreases EnsureSteps(e)
  {
    var (t, k) := EnsureCall(w, v, e, f(EnsureSteps(e)), secret, false);
    if k.Ensuring? && EnsureSteps(k.ensure) < EnsureSteps(e) then EnsureRest(t, k.version, k.ensure, secret, f) else t
  }

  function DropRest(w: World, v: nat, clean: bool, d: DropStep, f: Faults): World
    decreases DropSteps(d)
  {
    var (t, k) := DropCall(w, v, clean, d, f(DropSteps(d)));
    if k.Dropping? && DropSteps(k.drop) < DropSteps(d) then DropRest(t, k.version, k.clean, k.drop, f) else t
  }

  function AfterDrop(c: Component): DropStep {
    if c == Console then CompleteConsole else CommitSql
  }

  /** Both components are attempted, whether or not the first one failed. */
  function AfterComponent(c: Component): DropStep {
    if c == Console then Close(Gateway) else CommitSql
  }

  function RemoveRest(w: World, a: Allocator, f: Faults): World
    requires a.Removing?
    decreases RemoveSteps(a.remove)
  {
    var (t, k) := RemoveCall(w, a, f(RemoveSteps(a.remove)));
    if k.Removing? && RemoveSteps(k.remove) < RemoveSteps(a.remove) then RemoveRest(t, k, f) else t
  }

  /** An uninterrupted operation is one of the runs of the protocol, so every run's guarantees hold of it. */
  lemma EnsureRestIsRun(w: World, v: nat, e: EnsureStep, secret: Digest, f: Faults, a: Allocator) returns (actions: seq<Action>)
    ensures Run(State(w, Ensuring(v, e), a), actions).world == EnsureRest(w, v, e, secret, f)
    decreases EnsureSteps(e)
  {
    var s, call := State(w, Ensuring(v, e), a), WorkerCall(f(EnsureSteps(e)), secret, false);
    RunOne(s, call);
    actions := [call];
    var (t, k) := EnsureCall(w, v, e, f(EnsureSteps(e)), secret, false);
    if k.Ensuring? && EnsureSteps(k.ensure) < EnsureSteps(e) {
      var rest := EnsureRestIsRun(t, k.version, k.ensure, secret, f, a);
      RunSplits(s, actions, rest);
      actions := actions + rest;
    }
    hide EnsureCall, Run;
  }

  lemma DropRestIsRun(w: World, v: nat, clean: bool, d: DropStep, f: Faults, a: Allocator) returns (actions: seq<Action>)
    ensures Run(State(w, Dropping(v, clean, d), a), actions).world == DropRest(w, v, clean, d, f)
    decreases DropSteps(d)
  {
    var s, call := State(w, Dropping(v, clean, d), a), WorkerCall(f(DropSteps(d)), 0, false);
    RunOne(s, call);
    actions := [call];
    var (t, k) := DropCall(w, v, clean, d, f(DropSteps(d)));
    if k.Dropping? && DropSteps(k.drop) < DropSteps(d) {
      var rest := DropRestIsRun(t, k.version, k.clean, k.drop, f, a);
      RunSplits(s, actions, rest);
      actions := actions + rest;
    }
    hide DropCall, Run;
  }

  lemma RemoveRestIsRun(w: World, k: Worker, a: Allocator, f: Faults) returns (actions: seq<Action>)
    requires a.Removing?
    ensures Run(State(w, k, a), actions).world == RemoveRest(w, a, f)
    decreases RemoveSteps(a.remove)
  {
    var s, call := State(w, k, a), AllocatorCall(f(RemoveSteps(a.remove)), false, false);
    RunOne(s, call);
    actions := [call];
    var (t, b) := RemoveCall(w, a, f(RemoveSteps(a.remove)));
    if b.Removing? && RemoveSteps(b.remove) < RemoveSteps(a.remove) {
      var rest := RemoveRestIsRun(t, k, b, f);
      RunSplits(s, actions, rest);
      actions := actions + rest;
    }
    hide RemoveCall, Run;
  }

  /* ---------- what an operation without faults comes to ---------- */

  ghost predicate NoFaults(f: Faults) {
    forall n: nat :: f(n) == NoFault
  }

  /** A live Gateway whose state was never used, or whose open registration names the stored Secret. */
  predicate Ensurable(w: World, c: Component) {
    var b, ns := Bound(w.store, c), GetNs(w, StateNsOf(c));
    && !w.store.row.deleted && w.gatewayNs.Live? && ns.Live?
    && !b.closed
    && (b.present ==> b.digest.Some? && b.digest == ns.secret)
    && (!b.present && ns.secret == None ==> !Db(w, c))
  }

  /** The database exists, its digest is registered and open, and the state namespace holds the Secret with that digest. */
  predicate Provisioned(w: World, c: Component, digest: Digest) {
    && Db(w, c)
    && Bound(w.store, c) == Binding(true, Some(digest), false)
    && GetNs(w, StateNsOf(c)) == Live(Some(digest))
  }

  /** Everything of the world that an ensure of this component has no business with. */
  predicate SameElsewhere(w: World, t: World, c: Component) {
    var other := if c == Gateway then Console else Gateway;
    && t.store.row == w.store.row && t.store.completion == w.store.completion && t.store.events == w.store.events
    && t.gatewayNs == w.gatewayNs && t.sandboxNs == w.sandboxNs
    && Db(t, other) == Db(w, other) && Bound(t.store, other) == Bound(w.store, other)
    && GetNs(t, StateNsOf(other)) == GetNs(w, StateNsOf(other))
  }

  /** The Secret that the state namespace already holds, or the newly generated one. */
  function SecretFor(w: World, c: Component, secret: Digest): Digest {
    match GetNs(w, StateNsOf(c))
    case Live(Some(stored)) => stored
    case _ => secret
  }

  /** An ensure without faults creates the database on the kept or new Secret and touches nothing else. */
  lemma EnsureCreates(w: World, c: Component, secret: Digest, f: Faults)
    requires Ensurable(w, c) && NoFaults(f)
    ensures var t := EnsureRest(w, w.store.row.version, Require(c), secret, f);
            Provisioned(t, c, SecretFor(w, c, secret)) && SameElsewhere(w, t, c)
  {
    var v, b, digest := w.store.row.version, Bound(w.store, c), SecretFor(w, c, secret);
    var t := WithNs(w, StateNsOf(c), Live(Some(digest)));
    assert EnsureCall(w, v, Require(c), NoFault, secret, false) == (w, Ensuring(v, LoadBinding(c)));
    assert EnsureCall(w, v, LoadBinding(c), NoFault, secret, false) == (w, Ensuring(v, OpenSecret(c, b)));
    assert EnsureCall(w, v, OpenSecret(c, b), NoFault, secret, false) == (t, Ensuring(v, Register(c, digest)));
    var u := t.(store := WithBound(t.store, c, Binding(true, Some(digest), false)));
    assert EnsureCall(t, v, Register(c, digest), NoFault, secret, false) == (u, Ensuring(v, CreateDb(c, digest)));
    hide EnsureCall;
    assert f(5) == f(4) == f(3) == f(2) == f(1) == NoFault;
    assert EnsureRest(w, v, Require(c), secret, f) == EnsureRest(t, v, Register(c, digest), secret, f);
    EnsureEnds(u, v, c, digest, secret, f);
  }

  lemma EnsureEnds(w: World, v: nat, c: Component, digest: Digest, secret: Digest, f: Faults)
    requires NoFaults(f)
    ensures EnsureRest(w, v, CreateDb(c, digest), secret, f) == WithDb(w, c, true)
  {
    assert f(1) == NoFault;
  }

  /** Of a live Gateway that is not ready for it, an ensure without faults changes nothing. */
  lemma EnsureRefuses(w: World, c: Component, secret: Digest, f: Faults)
    requires !w.store.row.deleted && !Ensurable(w, c) && NoFaults(f)
    ensures EnsureRest(w, w.store.row.version, Require(c), secret, f) == w
  {
    var v, b := w.store.row.version, Bound(w.store, c);
    assert f(5) == f(4) == f(3) == NoFault;
    if w.gatewayNs.Live? && GetNs(w, StateNsOf(c)).Live? && !b.closed {
      assert EnsureCall(w, v, OpenSecret(c, b), NoFault, secret, false) == (w, Idle);
      assert EnsureRest(w, v, LoadBinding(c), secret, f) == EnsureRest(w, v, OpenSecret(c, b), secret, f);
    }
  }

  /** An ensure that acts on an old read, or on a row deleted since, registers nothing and creates no database. */
  lemma EnsureOnOldRead(w: World, v: nat, e: EnsureStep, secret: Digest, f: Faults)
    requires (w.store.row.deleted || v != w.store.row.version) && !e.CreateDb?
    ensures var t := EnsureRest(w, v, e, secret, f); t.store == w.store && t.gatewayDb == w.gatewayDb && t.consoleDb == w.consoleDb
    decreases EnsureSteps(e)
  {
    var (t, k) := EnsureCall(w, v, e, f(EnsureSteps(e)), secret, false);
    assert t.store == w.store && t.gatewayDb == w.gatewayDb && t.consoleDb == w.consoleDb;
    if k.Ensuring? && EnsureSteps(k.ensure) < EnsureSteps(e) {
      assert k.version == v && !k.ensure.CreateDb?;
      EnsureOnOldRead(t, v, k.ensure, secret, f);
    }
  }

  /** A component whose database can be reached: what it still needs of its state is there. */
  predicate Droppable(w: World, c: Component) {
    var digest := Bound(w.store, c).digest;
    if digest.Some? then GetNs(w, StateNsOf(c)) == Live(digest) else !Db(w, c)
  }

  /** Without its database, and with its registration closed on the digest it had. */
  function WithoutComponent(w: World, c: Component): World {
    WithDb(w.(store := WithBound(w.store, c, Binding(true, Bound(w.store, c).digest, true))), c, false)
  }

  lemma ComponentDrops(w: World, v: nat, c: Component, f: Faults)
    requires w.store.row.deleted && Droppable(w, c) && NoFaults(f)
    ensures DropRest(w, v, true, Close(c), f) == DropRest(WithoutComponent(w, c), v, true, AfterDrop(c), f)
  {
    var digest := Bound(w.store, c).digest;
    var t := w.(store := WithBound(w.store, c, Binding(true, digest, true)));
    if digest.Some? {
      assert DropCall(w, v, true, Close(c), NoFault) == (t, Dropping(v, true, ReadState(c, digest.value)));
      assert DropCall(t, v, true, ReadState(c, digest.value), NoFault) == (t, Dropping(v, true, DropDb(c)));
      assert DropCall(t, v, true, DropDb(c), NoFault) == (WithoutComponent(w, c), Dropping(v, true, AfterDrop(c)));
      hide DropCall;
      assert f(8) == f(7) == f(6) == f(4) == f(3) == f(2) == NoFault;
      assert DropRest(w, v, true, Close(c), f) == DropRest(t, v, true, DropDb(c), f);
    } else {
      assert WithoutComponent(w, c) == t;
      assert DropCall(w, v, true, Close(c), NoFault) == (t, Dropping(v, true, AfterDrop(c)));
      hide DropCall;
      assert f(8) == f(4) == NoFault;
    }
  }

  /** Both databases are gone, both registrations and the console completion are closed on the digests they had, and `sql` is complete. */
  predicate Cleaned(w: World, t: World) {
    && !t.gatewayDb && !t.consoleDb
    && t.store.gateway == Binding(true, w.store.gateway.digest, true)
    && t.store.console == Binding(true, w.store.console.digest, true)
    && t.store.completion == Binding(true, w.store.console.digest, true)
    && t.store.row.done.sql
    && t.gatewayNs == w.gatewayNs && t.sandboxNs == w.sandboxNs && t.stateNs == w.stateNs && t.consoleNs == w.consoleNs
  }

  /** SQL cleanup without faults waits while a workload namespace stands, and otherwise drops both databases and records it. */
  lemma DropsEverything(w: World, f: Faults)
    requires WorldOk(w) && w.store.row.deleted && !w.store.row.done.sql && NoFaults(f)
    ensures var t := DropRest(w, w.store.row.version, true, GatewayGone, f);
            if RuntimeGone(w) then Cleaned(w, t) else t == w
  {
    assert f(10) == f(9) == NoFault;
    if RuntimeGone(w) {
      var v := w.store.row.version;
      var t := WithoutComponent(w, Console);
      ComponentDrops(w, v, Console, f);
      CompletionActs(w, v, f);
      var u := t.(store := t.store.(completion := Binding(true, w.store.console.digest, true)));
      ComponentDrops(u, v, Gateway, f);
      SqlCommits(WithoutComponent(u, Gateway), v, f);
      hide DropCall, DropRest;
      assert DropRest(w, v, true, GatewayGone, f) == DropRest(w, v, true, Close(Console), f) by { StartActs(w, v, f); }
    } else {
      hide WorldOk;
    }
  }

  /** Cleanup goes on to drop a database exactly when it read the state that the closed registration names. */
  lemma DropNeedsState(w: World, v: nat, clean: bool, c: Component, digest: Digest, f: Fault)
    ensures var (t, k) := DropCall(w, v, clean, ReadState(c, digest), f);
            && t == w
            && (k == Dropping(v, clean, DropDb(c)) <==>
                  f == NoFault && GetNs(w, StateNsOf(c)) == Live(Some(digest)) && Bound(w.store, c).digest == Some(digest))
            && (k != Dropping(v, clean, DropDb(c)) ==> k == Dropping(v, false, if c == Console then Close(Gateway) else CommitSql))
  {}

  /** What the console's half of a cleanup leaves alone: everything of the Gateway's own database. */
  predicate SameGateway(w: World, t: World) {
    t.gatewayDb == w.gatewayDb && t.store.gateway == w.store.gateway && t.store.row == w.store.row && t.stateNs == w.stateNs
  }

  predicate ConsoleHalf(d: DropStep) {
    d == Close(Console) || d == DropDb(Console) || d == CompleteConsole || (d.ReadState? && d.c == Console)
  }

  /** However the console's half goes, the Gateway's half follows, and drops its own database when its calls do not fail. */
  lemma {:induction false} GatewayStillDropped(w: World, v: nat, clean: bool, d: DropStep, f: Faults)
    requires ConsoleHalf(d) && w.store.row.deleted && Droppable(w, Gateway)
    requires f(4) == f(3) == f(2) == NoFault
    ensures var t := DropRest(w, v, clean, d, f); !t.gatewayDb && t.store.gateway == Binding(true, w.store.gateway.digest, true)
    decreases DropSteps(d)
  {
    var (t, k) := DropCall(w, v, clean, d, f(DropSteps(d)));
    ConsoleStepGoesOn(w, v, clean, d, f(DropSteps(d)));
    hide DropCall;
    assert DropRest(w, v, clean, d, f) == DropRest(t, v, k.clean, k.drop, f);
    if k.drop == Close(Gateway) {
      GatewayDrops(t, v, k.clean, f);
    } else {
      GatewayStillDropped(t, v, k.clean, k.drop, f);
    }
  }

  lemma ConsoleStepGoesOn(w: World, v: nat, clean: bool, d: DropStep, f: Fault)
    requires ConsoleHalf(d)
    ensures var (t, k) := DropCall(w, v, clean, d, f);
            && SameGateway(w, t) && k.Dropping? && k.version == v && DropSteps(k.drop) < DropSteps(d)
            && (ConsoleHalf(k.drop) || k.drop == Close(Gateway))
  {}

  lemma GatewayDrops(w: World, v: nat, clean: bool, f: Faults)
    requires w.store.row.deleted && Droppable(w, Gateway) && f(4) == f(3) == f(2) == NoFault
    ensures var t := DropRest(w, v, clean, Close(Gateway), f); !t.gatewayDb && t.store.gateway == Binding(true, w.store.gateway.digest, true)
  {
    var digest := w.store.gateway.digest;
    var t := w.(store := WithBound(w.store, Gateway, Binding(true, digest, true)));
    hide RecordCleanup;
    if digest.Some? {
      assert DropCall(w, v, clean, Close(Gateway), NoFault) == (t, Dropping(v, clean, ReadState(Gateway, digest.value)));
      assert DropCall(t, v, clean, ReadState(Gateway, digest.value), NoFault) == (t, Dropping(v, clean, DropDb(Gateway)));
      assert DropCall(t, v, clean, DropDb(Gateway), NoFault) == (t.(gatewayDb := false), Dropping(v, clean, CommitSql));
      assert DropRest(w, v, clean, Close(Gateway), f) == DropRest(t, v, clean, DropDb(Gateway), f);
      CommitKeepsRest(t.(gatewayDb := false), v, clean, f);
    } else {
      assert DropCall(w, v, clean, Close(Gateway), NoFault) == (t, Dropping(v, clean, CommitSql));
      CommitKeepsRest(t, v, clean, f);
    }
    hide DropCall, Commit;
  }

  lemma CommitKeepsRest(w: World, v: nat, clean: bool, f: Faults)
    ensures var t := DropRest(w, v, clean, CommitSql, f); t == w.(store := w.store.(row := t.store.row, events := t.store.events))
  {}

  lemma StartActs(w: World, v: nat, f: Faults)
    requires RuntimeGone(w) && NoFaults(f)
    ensures DropRest(w, v, true, GatewayGone, f) == DropRest(w, v, true, Close(Console), f)
  {
    assert f(10) == f(9) == NoFault;
    assert DropRest(w, v, true, GatewayGone, f) == DropRest(w, v, true, SandboxGone, f);
  }

  lemma CompletionActs(w: World, v: nat, f: Faults)
    requires WorldOk(w) && w.store.row.deleted && NoFaults(f)
    ensures var t := WithoutComponent(w, Console);
            DropRest(t, v, true, CompleteConsole, f)
              == DropRest(t.(store := t.store.(completion := Binding(true, w.store.console.digest, true))), v, true, Close(Gateway), f)
  {
    assert f(5) == NoFault;
    var t := WithoutComponent(w, Console);
    var u := t.(store := t.store.(completion := Binding(true, w.store.console.digest, true)));
    assert DropCall(t, v, true, CompleteConsole, NoFault) == (u, Dropping(v, true, Close(Gateway)));
    hide DropCall, WorldOk;
  }

  lemma SqlCommits(w: World, v: nat, f: Faults)
    requires w.store.row.deleted && w.store.row.version == v >= 1 && ConsoleProven(w.store) && NoFaults(f)
    ensures var t := DropRest(w, v, true, CommitSql, f);
            t.store.row.done.sql && t == w.(store := w.store.(row := t.store.row, events := t.store.events))
  {
    assert f(1) == NoFault;
  }

  function Asked(ns: Ns): Ns {
    if ns.Live? then Terminating else ns
  }

  /** What a removal leaves: which namespaces were asked to go, and whether allocation is observed as complete. */
  predicate Removed(w: World, t: World, history: bool) {
    var past := RuntimeGone(w) && history;
    && t.gatewayNs == Asked(w.gatewayNs) && t.sandboxNs == Asked(w.sandboxNs)
    && t.consoleNs == (if past then Asked(w.consoleNs) else w.consoleNs)
    && t.stateNs == (if past then Asked(w.stateNs) else w.stateNs)
    && t.store.row.done.allocation == (AllAbsent(w) && history)
    && t.gatewayDb == w.gatewayDb && t.consoleDb == w.consoleDb
    && t.store.gateway == w.store.gateway && t.store.console == w.store.console && t.store.completion == w.store.completion
  }

  lemma AllocationCommits(w: World, a: Allocator, f: Faults)
    requires a.Removing? && a.remove.CommitAllocation? && NoFaults(f)
    requires w.store.row.deleted && w.store.row.version == a.version >= 1 && a.prior == w.store.row.done.allocation
    ensures var t := RemoveRest(w, a, f);
            && t == w.(store := w.store.(row := t.store.row, events := t.store.events))
            && t.store.row.done.allocation == a.remove.done
  {
    assert f(1) == NoFault;
  }

  function Requested(w: World, n: NsName): World {
    WithNs(w, n, Asked(GetNs(w, n)))
  }

  lemma RuntimeActs(w: World, a: Allocator, f: Faults)
    requires a.Removing? && a.remove == DeleteGatewayNs && NoFaults(f)
    ensures RemoveRest(w, a, f) ==
            RemoveRest(Requested(Requested(w, GatewayNs), SandboxNs),
                       a.(remove := if RuntimeGone(w) && a.sql && a.workload then DeleteConsoleNs else CommitAllocation(false)), f)
  {
    assert f(5) == f(4) == NoFault;
    var t := Requested(w, GatewayNs);
    var b := a.(remove := DeleteSandboxNs(w.gatewayNs == Absent, false));
    assert RemoveCall(w, a, NoFault) == (t, b);
    assert RemoveCall(t, b, NoFault) ==
           (Requested(t, SandboxNs), a.(remove := if RuntimeGone(w) && a.sql && a.workload then DeleteConsoleNs else CommitAllocation(false)));
    hide RemoveCall, Requested;
    assert RemoveRest(w, a, f) == RemoveRest(t, b, f);
  }

  lemma StateActs(w: World, a: Allocator, f: Faults)
    requires a.Removing? && a.remove == DeleteConsoleNs && NoFaults(f)
    ensures RemoveRest(w, a, f) ==
            RemoveRest(Requested(Requested(w, ConsoleNs), StateNs), a.(remove := CommitAllocation(w.consoleNs == w.stateNs == Absent)), f)
  {
    assert f(3) == f(2) == NoFault;
    var t := Requested(w, ConsoleNs);
    var b := a.(remove := DeleteStateNs(w.consoleNs == Absent));
    assert RemoveCall(w, a, NoFault) == (t, b);
    assert RemoveCall(t, b, NoFault) == (Requested(t, StateNs), a.(remove := CommitAllocation(w.consoleNs == w.stateNs == Absent)));
    hide RemoveCall, Requested;
    assert RemoveRest(w, a, f) == RemoveRest(t, b, f);
  }

  /** The removal of the Gateway's row as it stands, begun and ended at that row. */
  function Removal(row: Row): Allocator {
    Removing(row.version, row.done.sql, row.done.workload, row.done.allocation, DeleteGatewayNs)
  }

  /** A removal without faults at the current row. */
  lemma RemoveActs(w: World, f: Faults)
    requires w.store.row.deleted && w.store.row.version >= 1 && NoFaults(f)
    ensures Removed(w, RemoveRest(w, Removal(w.store.row), f), w.store.row.done.sql && w.store.row.done.workload)
  {
    var row, a := w.store.row, Removal(w.store.row);
    var t := Requested(Requested(w, GatewayNs), SandboxNs);
    RuntimeActs(w, a, f);
    if RuntimeGone(w) && a.sql && a.workload {
      StateActs(t, a.(remove := DeleteConsoleNs), f);
      AllocationCommits(Requested(Requested(t, ConsoleNs), StateNs), a.(remove := CommitAllocation(w.consoleNs == w.stateNs == Absent)), f);
    } else {
      AllocationCommits(t, a.(remove := CommitAllocation(false)), f);
    }
    hide RemoveRest, NoFaults;
  }
}
