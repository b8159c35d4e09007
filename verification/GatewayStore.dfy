/**
 The transactions of one retained Gateway as they run: each reads and writes the
 stored fields one statement at a time. Every method equals the transaction
 function of the same name, and one that fails leaves the store as it was.
 */
module GatewayStore {
  import opened Common
  import R = GatewayRecord

  /** What a transaction returns and leaves, against what its function says. */
  ghost predicate Follows(spec: Result<R.Store, R.Error>, before: R.Store, after: R.Store, error: Option<R.Error>) {
    match spec
    case Ok(t) => error == None && after == t
    case Err(e) => error == Some(e) && after == before
  }

  lemma PendingMatches(d: R.Done, pending: seq<R.Owner>)
    requires forall o :: o in pending <==> !R.Has(d, o)
    ensures pending == [] <==> R.Complete(d)
  {
    assert pending != [] ==> pending[0] in pending;
    assert R.Accounts in pending || R.Identity in pending || R.Workload in pending || R.Sql in pending || R.Allocation in pending || R.Complete(d);
  }

  class Retained {
    var row: R.Row
    var gateway: R.Binding
    var console: R.Binding
    var completion: R.Binding
    var events: seq<R.Event>

    ghost function Snapshot(): R.Store
      reads this
    {
      R.Store(row, gateway, console, completion, events)
    }

    constructor (cluster: R.Cluster)
      ensures Snapshot() == R.Created(cluster)
    {
      row := R.Row(cluster, 1, false, R.PENDING, false);
      gateway, console, completion := R.ABSENT, R.ABSENT, R.ABSENT;
      events := [];
    }

    /** The update holds only for a deleted row at exactly this revision; the storage trigger raises the revision. */
    method ObserveCleanupIfVersion(version: nat, owner: R.Owner, complete: bool) returns (error: Option<R.Error>)
      modifies this`row
      ensures error == if version < 1 then Some(R.Invalid)
                       else if version == old(row).version && old(row).deleted then None
                       else Some(R.VersionConflict)
      ensures row == if error == None then R.Observed(old(row), owner, complete) else old(row)
    {
      if version < 1 {
        return Some(R.Invalid);
      }
      if row.version != version || !row.deleted {
        return Some(R.VersionConflict);
      }
      row := row.(version := version + 1, done := R.Mark(row.done, owner, complete));
      return None;
    }

    /** A stale, live, incomplete or already finalized row is refused. */
    method FinalizeDeletionIfVersion(version: nat) returns (error: Option<R.Error>)
      modifies this`row
      ensures error == if version < 1 then Some(R.Invalid)
                       else if version == old(row).version && old(row).deleted && !old(row).finalized && R.Complete(old(row).done) then None
                       else Some(R.VersionConflict)
      ensures row == if error == None then R.Finalized(old(row)) else old(row)
    {
      if version < 1 {
        return Some(R.Invalid);
      }
      if row.version != version || !row.deleted || row.finalized || !R.Complete(row.done) {
        return Some(R.VersionConflict);
      }
      row := row.(version := version + 1, finalized := true);
      return None;
    }

    method PendingCleanup() returns (pending: seq<R.Owner>)
      ensures pending == [] <==> R.Complete(row.done)
      ensures forall o :: o in pending <==> !R.Has(row.done, o)
    {
      pending := [];
      var owners := [R.Accounts, R.Identity, R.Workload, R.Sql, R.Allocation];
      for i := 0 to |owners|
        invariant forall o :: o in pending <==> o in owners[..i] && !R.Has(row.done, o)
      {
        if !R.Has(row.done, owners[i]) {
          pending := pending + [owners[i]];
        }
      }
      assert owners[..|owners|] == owners;
      assert forall o :: o in owners by {
        assert owners[0] == R.Accounts && owners[1] == R.Identity && owners[2] == R.Workload && owners[3] == R.Sql;
        assert owners[4] == R.Allocation;
        forall o: R.Owner
          ensures o in owners
        {
          match o { case Accounts => case Identity => case Workload => case Sql => case Allocation => }
        }
      }
      PendingMatches(row.done, pending);
    }

    method RecordCleanup(version: nat, owner: R.Owner, target: Option<R.Cluster>, complete: bool) returns (error: Option<R.Error>)
      modifies this
      ensures Follows(R.RecordCleanup(old(Snapshot()), version, owner, target, complete), old(Snapshot()), Snapshot(), error)
      ensures error == None <==>
                && version >= 1 && version == old(row).version && old(row).deleted
                && target == (if owner == R.Accounts || owner == R.Identity then None else Some(old(row).cluster))
                && (owner == R.Sql && complete ==> R.ConsoleProven(old(Snapshot())))
      ensures error == None ==>
                && R.Has(row.done, owner) == complete
                && (forall o :: o != owner ==> R.Has(row.done, o) == R.Has(old(row).done, o))
    {
      if version < 1 || R.Targeted(owner) != target.Some? {
        return Some(R.Invalid);
      }
      if !row.deleted {
        return Some(R.StateConflict);
      }
      if row.version != version {
        return Some(R.VersionConflict);
      }
      if target.Some? && target.value != row.cluster {
        return Some(R.VersionConflict);
      }
      var changed := R.Has(row.done, owner) != complete;
      if owner == R.Sql && complete {
        if console.present && console.digest.Some? {
          if !console.closed || !completion.present || !completion.closed || completion.digest != console.digest {
            return Some(R.BindingConflict);
          }
        }
      }
      error := None;
      if changed {
        error := ObserveCleanupIfVersion(version, owner, complete);
        if error.Some? {
          return;
        }
      }
      var pending := PendingCleanup();
      if |pending| == 0 && !row.finalized {
        error := FinalizeDeletionIfVersion(row.version);
        if error.Some? {
          return;
        }
        events := events + [R.Deleted];
        return;
      }
      if !changed {
        return;
      }
      events := events + [R.Updated];
    }

    method BindSQLState(cluster: R.Cluster, c: R.Component, digest: R.Digest, version: nat) returns (error: Option<R.Error>)
      modifies this
      ensures Follows(R.BindSQLState(old(Snapshot()), cluster, c, digest, version), old(Snapshot()), Snapshot(), error)
      ensures error == None <==>
                && !old(row).deleted && cluster == old(row).cluster && version == old(row).version
                && var prior := R.Bound(old(Snapshot()), c); prior.present ==> !prior.closed && prior.digest == Some(digest)
      ensures error == None && R.Bound(old(Snapshot()), c) == R.ABSENT ==> R.Bound(Snapshot(), c) == R.Binding(true, Some(digest), false)
      ensures row == old(row) && completion == old(completion) && events == old(events)
      ensures if c == R.Gateway then console == old(console) else gateway == old(gateway)
      ensures R.Bound(old(Snapshot()), c).present ==> Snapshot() == old(Snapshot())
    {
      if row.deleted {
        return Some(R.NotFound);
      }
      if cluster != row.cluster {
        return Some(R.Forbidden);
      }
      if row.version != version {
        return Some(R.VersionConflict);
      }
      var prior := if c == R.Gateway then gateway else console;
      if prior.present {
        return if prior.closed || prior.digest != Some(digest) then Some(R.BindingConflict) else None;
      }
      if c == R.Gateway {
        gateway := R.Binding(true, Some(digest), false);
      } else {
        console := R.Binding(true, Some(digest), false);
      }
      return None;
    }

    method CloseSQLState(cluster: R.Cluster, c: R.Component) returns (error: Option<R.Error>)
      modifies this
      ensures Follows(R.CloseSQLState(old(Snapshot()), cluster, c), old(Snapshot()), Snapshot(), error)
      ensures error == None <==> cluster == old(row).cluster && old(row).deleted
      ensures error == None ==> R.Bound(Snapshot(), c) == R.Binding(true, R.Bound(old(Snapshot()), c).digest, true)
      ensures row == old(row) && completion == old(completion) && events == old(events)
      ensures if c == R.Gateway then console == old(console) else gateway == old(gateway)
    {
      if cluster != row.cluster {
        return Some(R.Forbidden);
      }
      if !row.deleted {
        return Some(R.VersionConflict);
      }
      if c == R.Gateway {
        gateway := gateway.(present := true, closed := true);
      } else {
        console := console.(present := true, closed := true);
      }
      return None;
    }

    method CompleteConsoleSQLCleanup(cluster: R.Cluster) returns (error: Option<R.Error>)
      modifies this
      ensures Follows(R.CompleteConsoleSQLCleanup(old(Snapshot()), cluster), old(Snapshot()), Snapshot(), error)
      ensures old(completion) == R.ABSENT ==>
                && (error == None <==> cluster == old(row).cluster && old(row).deleted && old(console).present && old(console).closed)
                && (error == None ==> completion == R.Binding(true, old(console).digest, true))
      ensures old(completion).closed ==> Snapshot() == old(Snapshot()) && (error == None ==> completion.digest == console.digest)
      ensures row == old(row) && gateway == old(gateway) && console == old(console) && events == old(events)
    {
      if cluster != row.cluster {
        return Some(R.Forbidden);
      }
      if !row.deleted {
        return Some(R.VersionConflict);
      }
      if !console.present || !console.closed {
        return Some(R.BindingConflict);
      }
      if completion.closed {
        return if completion.digest != console.digest then Some(R.BindingConflict) else None;
      }
      if console.digest.Some? {
        if completion.present && completion.digest != console.digest {
          return Some(R.BindingConflict);
        }
        completion := R.Binding(true, console.digest, false);
      }
      completion := R.Binding(true, if completion.present then completion.digest else None, true);
      return None;
    }
  }
}
