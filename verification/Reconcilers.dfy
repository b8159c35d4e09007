/**
 The bodies of the workload worker and the allocator, statement by statement, on
 the world they act on. Each leaves what its operation of the protocol leaves when
 no other action comes between its calls; the protocol then lets any action in.
 */
module Reconcilers {
  import opened Common
  import opened GatewayRecord
  import opened DeletionProtocol
  import opened DeletionSafety
  import opened DeletionProgress
  import opened Operations

  class Workload {
    var world: World

    constructor (w: World)
      ensures world == w
    {
      world := w;
    }

    /** State before database: the digest is registered before the database exists. */
    method EnsureDatabase(c: Component, version: nat, secret: Digest, faults: Faults)
      modifies this
      ensures world == EnsureRest(old(world), version, Require(c), secret, faults)
      ensures !old(world).store.row.deleted && version == old(world).store.row.version && NoFaults(faults) ==>
                if Ensurable(old(world), c) then Provisioned(world, c, SecretFor(old(world), c, secret)) && SameElsewhere(old(world), world, c)
                else world == old(world)
    {
      if !world.store.row.deleted && version == world.store.row.version && NoFaults(faults) {
        if Ensurable(world, c) {
          EnsureCreates(world, c, secret, faults);
        } else {
          EnsureRefuses(world, c, secret, faults);
        }
      }
      ghost var goal := EnsureRest(world, version, Require(c), secret, faults);
      if faults(5) != NoFault || !world.gatewayNs.Live? {
        return;
      }
      assert EnsureRest(world, version, LoadBinding(c), secret, faults) == goal;
      var name := StateNsOf(c);
      var seen := Bound(world.store, c);
      if faults(4) != NoFault || !GetNs(world, name).Live? || seen.closed {
        return;
      }
      assert EnsureRest(world, version, OpenSecret(c, seen), secret, faults) == goal;
      if faults(3) == NoEffect || !GetNs(world, name).Live? {
        return;
      }
      var digest := secret;
      if GetNs(world, name).secret.Some? {
        digest := GetNs(world, name).secret.value;
        if seen.present && seen.digest != Some(digest) {
          return;
        }
      } else {
        if seen.present || Db(world, c) {
          return;
        }
        world := WithNs(world, name, Live(Some(secret)));
      }
      if faults(3) == LostReply {
        return;
      }
      assert EnsureRest(world, version, Register(c, digest), secret, faults) == goal;
      var bound := BindSQLState(world.store, world.store.row.cluster, c, digest, version);
      if faults(2) == NoEffect || bound.Err? {
        return;
      }
      world := world.(store := bound.value);
      if faults(2) == LostReply {
        return;
      }
      assert EnsureRest(world, version, CreateDb(c, digest), secret, faults) == goal;
      if faults(1) != NoEffect {
        world := WithDb(world, c, true);
      }
    }

    /** The state that the closed registration names leads to the database; both must be there. */
    method DropDatabase(c: Component, digest: Digest, version: nat, ghost clean: bool, faults: Faults) returns (ok: bool)
      requires Bound(world.store, c).digest == Some(digest)
      modifies this
      ensures world.store == old(world).store
      ensures Db(world, c) != Db(old(world), c) ==> GetNs(world, StateNsOf(c)) == Live(Some(digest))
      ensures ok ==> !Db(world, c) && GetNs(world, StateNsOf(c)) == Live(Some(digest))
      ensures world == WithDb(old(world), c, Db(world, c))
      ensures DropRest(old(world), version, clean, ReadState(c, digest), faults) ==
              if ok then DropRest(world, version, clean, AfterDrop(c), faults) else DropRest(world, version, false, AfterComponent(c), faults)
    {
      hide CloseSQLState, CompleteConsoleSQLCleanup, Commit;
      ghost var goal := DropRest(world, version, clean, ReadState(c, digest), faults);
      var first := if c == Console then 7 else 3;
      if faults(first) != NoFault || GetNs(world, StateNsOf(c)) != Live(Some(digest)) {
        return false;
      }
      assert DropRest(world, version, clean, DropDb(c), faults) == goal;
      if faults(first - 1) == NoEffect {
        return false;
      }
      world := WithDb(world, c, false);
      return faults(first - 1) == NoFault;
    }

    /** Close the registration, drop the database it names, and for the console record the proof. */
    method DeleteComponent(c: Component, version: nat, ghost clean: bool, faults: Faults) returns (ok: bool)
      modifies this
      ensures DropRest(old(world), version, clean, Close(c), faults) == DropRest(world, version, clean && ok, AfterComponent(c), faults)
    {
      hide RecordCleanup, CompleteConsoleSQLCleanup;
      ghost var goal := DropRest(world, version, clean, Close(c), faults);
      var first := if c == Console then 8 else 4;
      var closed := CloseSQLState(world.store, world.store.row.cluster, c);
      if faults(first) == NoEffect || closed.Err? {
        return false;
      }
      world := world.(store := closed.value);
      if faults(first) == LostReply {
        return false;
      }
      var digest := Bound(world.store, c).digest;
      if digest.Some? {
        assert DropRest(world, version, clean, ReadState(c, digest.value), faults) == goal;
        ok := DropDatabase(c, digest.value, version, clean, faults);
        if !ok {
          return;
        }
      }
      assert DropRest(world, version, clean, AfterDrop(c), faults) == goal;
      ok := true;
      if c == Console {
        ok := RecordConsole(version, clean, faults);
      }
    }

    method RecordConsole(version: nat, ghost clean: bool, faults: Faults) returns (ok: bool)
      modifies this
      ensures DropRest(old(world), version, clean, CompleteConsole, faults) == DropRest(world, version, clean && ok, Close(Gateway), faults)
    {
      hide CloseSQLState, RecordCleanup;
      var completed := CompleteConsoleSQLCleanup(world.store, world.store.row.cluster);
      if faults(5) == NoEffect || completed.Err? {
        return false;
      }
      world := world.(store := completed.value);
      return faults(5) == NoFault;
    }

    /** SQL cleanup waits for the workload, tries both databases, and records only a clean pass. */
    method DeleteDatabase(version: nat, faults: Faults)
      modifies this
      ensures world == DropRest(old(world), version, true, GatewayGone, faults)
      ensures WorldOk(old(world)) && old(world).store.row.deleted && !old(world).store.row.done.sql
                && version == old(world).store.row.version && NoFaults(faults) ==>
                if RuntimeGone(old(world)) then Cleaned(old(world), world) else world == old(world)
    {
      if WorldOk(world) && world.store.row.deleted && !world.store.row.done.sql && version == world.store.row.version && NoFaults(faults) {
        DropsEverything(world, faults);
      }
      hide WorldOk, Cleaned;
      ghost var goal := DropRest(world, version, true, GatewayGone, faults);
      if faults(10) != NoFault || world.gatewayNs != Absent {
        return;
      }
      assert DropRest(world, version, true, SandboxGone, faults) == goal;
      if faults(9) != NoFault || world.sandboxNs != Absent {
        return;
      }
      assert DropRest(world, version, true, Close(Console), faults) == goal;
      var failures := 0;
      var ok := DeleteComponent(Console, version, true, faults);
      if !ok {
        failures := failures + 1;
      }
      ok := DeleteComponent(Gateway, version, failures == 0, faults);
      if !ok {
        failures := failures + 1;
      }
      assert DropRest(world, version, failures == 0, CommitSql, faults) == goal;
      if failures == 0 && faults(1) != NoEffect {
        world := Commit(world, version, Sql, true);
      }
    }
  }

  class NamespaceAllocator {
    var world: World

    constructor (w: World)
      ensures world == w
    {
      world := w;
    }

    /** One deletion request; done only if the namespace was already gone. */
    method Delete(n: NsName, fault: Fault) returns (done: bool, failed: bool)
      modifies this
      ensures world == RequestDelete(old(world), n, fault)
      ensures GetNs(world, n) == if fault != NoEffect then Asked(GetNs(old(world), n)) else GetNs(old(world), n)
      ensures failed == (fault != NoFault)
      ensures done == (fault == NoFault && GetNs(old(world), n) == Absent)
    {
      done, failed := fault == NoFault && GetNs(world, n) == Absent, fault != NoFault;
      if fault != NoEffect && GetNs(world, n).Live? {
        world := WithNs(world, n, Terminating);
      }
    }

    /** Both runtime namespaces are asked to go together; the state namespaces wait for SQL and workload history. */
    method Remove(version: nat, sql: bool, workload: bool, prior: bool, faults: Faults)
      modifies this
      ensures world == RemoveRest(old(world), Removing(version, sql, workload, prior, DeleteGatewayNs), faults)
    {
      hide Asked, Commit;
      ghost var start := Removing(version, sql, workload, prior, DeleteGatewayNs);
      ghost var goal := RemoveRest(world, start, faults);
      var done := false;
      var gatewayDone, gatewayFailed := Delete(GatewayNs, faults(5));
      assert RemoveRest(world, start.(remove := DeleteSandboxNs(gatewayDone, gatewayFailed)), faults) == goal;
      var sandboxDone, sandboxFailed := Delete(SandboxNs, faults(4));
      if !gatewayFailed && !sandboxFailed && gatewayDone && sandboxDone && workload && sql {
        assert RemoveRest(world, start.(remove := DeleteConsoleNs), faults) == goal;
        var consoleDone, consoleFailed := Delete(ConsoleNs, faults(3));
        if !consoleFailed {
          assert RemoveRest(world, start.(remove := DeleteStateNs(consoleDone)), faults) == goal;
          var stateDone, stateFailed := Delete(StateNs, faults(2));
          done := consoleDone && stateDone && !stateFailed;
        }
      }
      assert RemoveRest(world, start.(remove := CommitAllocation(done)), faults) == goal;
      if done != prior && faults(1) != NoEffect {
        world := Commit(world, version, Allocation, done);
      }
    }
  }
}
