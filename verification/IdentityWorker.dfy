/**
 The identity worker's scan as its loops run: load, read pages, write each new
 user of a page, save. `Calls` says what its reads, writes and save come to;
 whatever that is, an execution is one of the runs of GrantSync.
 */
module IdentityWorker {
  import opened Common
  import opened ScanCycle
  import opened GrantSync
  import GrantProgress

  lemma Extend(s: State, trace: seq<Action>, a: Action)
    requires NoLateWrite(trace) && !a.LateWrite?
    ensures NoLateWrite(trace + [a]) && Run(s, trace + [a]) == Apply(Run(s, trace), a)
  {
    RunSnoc(s, trace, a);
  }

  /** How the work on one grant goes: its time, the read of its user, the write with what a failed one leaves, and whether an error is fatal. */
  datatype Reply = Reply(expired: bool, found: bool, ok: bool, left: Role, fatal: bool)

  /** The page read after each cursor, the work on each grant, whether time is up at the end of a page, and whether the save is reached. */
  datatype Calls = Calls(pages: GrantId -> (seq<GrantId>, bool), replies: GrantId -> Reply, ends: GrantId -> bool, saved: bool)

  predicate Good(r: Reply) {
    !r.expired && r.found && r.ok
  }

  /** Storage returns the next grants in order, and nothing fails or runs out of time. */
  ghost predicate Undisturbed(keys: set<GrantId>, calls: Calls) {
    && (forall after: GrantId :: calls.pages(after) == NextPage(keys, after, PAGE_SIZE))
    && (forall id: GrantId :: Good(calls.replies(id)))
    && (forall after: GrantId :: !calls.ends(after))
    && calls.saved
  }

  /** What a pass read when it loaded its checkpoint. */
  datatype Read = Read(version: nat, generation: nat, revision: nat, loaded: Cycle<nat>)

  function AsPass(read: Read, result: Cycle<nat>, pages: nat, stage: Stage): Worker {
    Pass(read.version, read.generation, read.revision, read.loaded, result, pages, stage)
  }

  /** The pass that this run ended with, before its save. */
  ghost predicate Ended(start: State, trace: seq<Action>, complete: bool) {
    && trace != [] && trace[|trace| - 1].Save?
    && var k := Run(start, trace[..|trace| - 1]).worker; k.Pass? && k.stage == Committing && k.current.complete == complete
  }

  /** Where the provider changed, the user now has the computed role. */
  ghost predicate Improves(g: map<GrantId, Grant>, p: Provider, q: Provider) {
    forall u: User :: ProviderRole(q, u) == ProviderRole(p, u) || Synced(g, q, u)
  }

  /** Every grant between two cursors has its user at the computed role. */
  predicate SyncedBetween(g: map<GrantId, Grant>, p: Provider, first: GrantId, last: GrantId) {
    forall id :: id in g && first < id <= last ==> Synced(g, p, g[id].user)
  }

  lemma PageSynced(g: map<GrantId, Grant>, p: Provider, q: Provider, first: GrantId, after: GrantId, ids: seq<GrantId>, more: bool)
    requires SyncedBetween(g, p, first, after) && Improves(g, p, q) && Covers(g.Keys, after, ids, more) && ids != []
    requires forall id :: id in ids ==> id in g && Synced(g, q, g[id].user)
    ensures SyncedBetween(g, q, first, ids[|ids| - 1])
  {
    forall id | id in g && first < id <= ids[|ids| - 1]
      ensures Synced(g, q, g[id].user)
    {
      if id <= after {
        assert Synced(g, p, g[id].user);
      } else {
        assert id in ids;
      }
    }
  }

  lemma PageGranted(keys: set<GrantId>, after: GrantId, ids: seq<GrantId>, more: bool)
    requires IsPage(keys, after, ids, more, PAGE_SIZE)
    ensures forall id :: id in ids ==> id in keys
  {}

  lemma Untouched(g: map<GrantId, Grant>, p: Provider)
    ensures Improves(g, p, p)
  {}

  /** A write at the computed role keeps every improvement made before it. */
  lemma StillSynced(g: map<GrantId, Grant>, p: Provider, q: Provider, r: Provider, seen: set<User>, user: User)
    requires Improves(g, p, q) && (forall u :: u in seen ==> Synced(g, q, u)) && Synced(g, r, user)
    requires forall u: User :: u != user ==> ProviderRole(r, u) == ProviderRole(q, u)
    ensures Improves(g, p, r) && forall u :: u in seen + {user} ==> Synced(g, r, u)
  {
    hide ProviderRole, RoleOf;
  }

  /* ---------- a pass that nothing disturbs ---------- */

  /** What stands between two pages: everything passed is in place, and enough pages are left for the rest. */
  ghost predicate Calm(g: map<GrantId, Grant>, p: Provider, first: Cycle<nat>, c: Cycle<nat>, pages: nat, over: bool) {
    && c == first.(after := c.after, complete := over)
    && first.after <= c.after && (c.after == first.after || c.after in g)
    && (!first.failed ==> SyncedBetween(g, p, first.after, c.after))
    && (if over then After(g.Keys, c.after) == {}
        else pages < MAX_PAGES && |After(g.Keys, c.after)| <= PAGE_SIZE * (MAX_PAGES - pages))
  }

  /** The cycle that a pass goes on with. */
  function Begun(row: Row): Cycle<nat> {
    Resume(if row.cycle.source == Some(row.generation) then row.cycle else Empty(), row.generation)
  }

  lemma CalmStarts(g: map<GrantId, Grant>, p: Provider, first: Cycle<nat>)
    requires |g| <= PAGE_SIZE * MAX_PAGES && !first.complete
    ensures Calm(g, p, first, first, 0, false)
  {
    AfterBound(g.Keys, first.after);
    assert |g.Keys| == |g|;
  }

  function Turned(c: Cycle<nat>, ids: seq<GrantId>, more: bool): Cycle<nat> {
    c.(after := if ids == [] then c.after else ids[|ids| - 1], complete := !more)
  }

  lemma CalmNext(g: map<GrantId, Grant>, p: Provider, q: Provider, first: Cycle<nat>, c: Cycle<nat>, pages: nat, ids: seq<GrantId>, more: bool)
    requires Calm(g, p, first, c, pages, false) && (ids, more) == NextPage(g.Keys, c.after, PAGE_SIZE)
    requires !first.failed ==> Improves(g, p, q) && forall id :: id in ids ==> id in g && Synced(g, q, g[id].user)
    ensures Calm(g, q, first, Turned(c, ids, more), pages + 1, !more)
  {
    hide NextPage, Improves, Synced;
    PageMore(g.Keys, c.after, PAGE_SIZE);
    if !first.failed {
      TurnSynced(g, p, q, first.after, c, ids, more);
    }
    hide SyncedBetween;
    if ids != [] {
      PageLeaves(g.Keys, c.after, ids, more);
      assert ids[|ids| - 1] in g.Keys && c.after < ids[|ids| - 1];
    }
    if !more {
      NothingAfter(g.Keys, c.after, ids);
    }
    hide After, Covers;
  }

  lemma TurnSynced(g: map<GrantId, Grant>, p: Provider, q: Provider, first: GrantId, c: Cycle<nat>, ids: seq<GrantId>, more: bool)
    requires SyncedBetween(g, p, first, c.after) && Covers(g.Keys, c.after, ids, more)
    requires Improves(g, p, q) && forall id :: id in ids ==> id in g && Synced(g, q, g[id].user)
    ensures SyncedBetween(g, q, first, Turned(c, ids, more).after)
  {
    hide SyncedBetween, Improves, Synced, Covers;
    if ids != [] {
      PageSynced(g, p, q, first, c.after, ids, more);
    } else {
      SyncedStays(g, p, q, first, c.after);
    }
  }

  lemma SyncedStays(g: map<GrantId, Grant>, p: Provider, q: Provider, first: GrantId, last: GrantId)
    requires SyncedBetween(g, p, first, last) && Improves(g, p, q)
    ensures SyncedBetween(g, q, first, last)
  {
    hide RoleOf, ProviderRole;
  }

  lemma NothingAfter(keys: set<nat>, after: nat, ids: seq<nat>)
    requires Covers(keys, after, ids, false)
    ensures After(keys, if ids == [] then after else ids[|ids| - 1]) == {}
  {
    forall key | key in keys && after < key
      ensures ids != [] && key <= ids[|ids| - 1]
    {
      var at :| 0 <= at < |ids| && ids[at] == key;
      assert at < |ids| - 1 ==> ids[at] < ids[|ids| - 1];
    }
  }

  /** The save of a pass that reached the end without a failure publishes, or finds that already published. */
  lemma CalmPublishes(row: Row, p: Provider, first: Cycle<nat>, c: Cycle<nat>, pages: nat)
    requires GrantProgress.RowLinked(row) && Calm(row.grants, p, first, c, pages, true) && !first.failed
    requires first == Begun(row)
    ensures var loaded := if row.cycle.source == Some(row.generation) then row.cycle else Empty();
            if c == loaded then row.condition == Condition(GrantSyncComplete, row.generation)
            else
              var saved := SaveIdentityScanCycle(row, row.version, row.generation, row.revision, c);
              saved.Ok? && saved.value.condition == Condition(GrantSyncComplete, row.generation) && saved.value.grants == row.grants
                && saved.value.generation == row.generation
  {
    hide SyncedBetween, After;
  }

  lemma AllBetween(g: map<GrantId, Grant>, p: Provider, first: GrantId, last: GrantId)
    requires SyncedBetween(g, p, first, last) && After(g.Keys, last) == {}
    ensures forall id :: id in g && first < id ==> Synced(g, p, g[id].user)
  {
    forall id | id in g && first < id
      ensures Synced(g, p, g[id].user)
    {
      assert id !in After(g.Keys, last);
    }
  }

  class Controller {
    var row: Row
    var provider: Provider
    ghost var lost: set<(User, Role)>

    constructor (id: GrantId, owner: User)
      requires id >= 1
      ensures State(row, provider, Idle, lost) == Init(id, owner)
    {
      row := Init(id, owner).row;
      provider := map[];
      lost := {};
    }

    /** One provider write; a failure may leave a role other than the requested one anyhow. */
    method WriteRole(user: User, role: Role, ok: bool, left: Role)
      modifies this`provider, this`lost
      ensures provider == ProviderAfter(old(provider), user, role, ok, left)
      ensures lost == if ok then old(lost) else old(lost) + {(user, role)}
      ensures ok ==> ProviderRole(provider, user) == role
      ensures forall u: User :: u != user ==> ProviderRole(provider, u) == ProviderRole(old(provider), u)
    {
      if ok {
        provider := provider[user := role];
      } else {
        lost := lost + {(user, role)};
        if ProviderRole(provider, user) != role {
          provider := provider[user := left];
        }
      }
    }

    /** Read the user's computed role, then write it. */
    method EmitUser(read: Read, result: Cycle<nat>, pages: nat, items: seq<GrantId>, more: bool, seen: set<User>, reply: Reply, ghost start: State, ghost prefix: seq<Action>)
      returns (failed: bool, fatal: bool, ghost trace: seq<Action>)
      requires items != [] && items[0] in row.grants && row.grants[items[0]].user !in seen && NoLateWrite(prefix)
      requires Run(start, prefix) == State(row, provider, AsPass(read, result, pages, Emitting(items, more, seen, None)), lost)
      modifies this`provider, this`lost
      ensures NoLateWrite(trace)
      ensures failed == !(reply.found && reply.ok) && fatal == (failed && reply.fatal)
      ensures var user := row.grants[items[0]].user;
              && provider == (if reply.found then ProviderAfter(old(provider), user, RoleOf(row.grants, user), reply.ok, reply.left) else old(provider))
              && (!failed ==> Synced(row.grants, provider, user))
              && forall u: User :: u != user ==> ProviderRole(provider, u) == ProviderRole(old(provider), u)
      ensures var now := seen + {row.grants[items[0]].user};
              Run(start, trace) == State(row, provider,
                if fatal then AsPass(read, result.(failed := true), pages, Committing)
                else Advance(AsPass(read, if failed then result.(failed := true) else result, pages, Emitting(items, more, now, None)), now),
                lost)
    {
      hide RoleOf, Run;
      var user := row.grants[items[0]].user;
      if !reply.found {
        Extend(start, prefix, ReadUser(false, reply.fatal));
        return true, reply.fatal, prefix + [ReadUser(false, reply.fatal)];
      }
      var role := RoleOf(row.grants, user);
      Extend(start, prefix, ReadUser(true, false));
      trace := prefix + [ReadUser(true, false)];
      WriteRole(user, role, reply.ok, reply.left);
      failed, fatal := !reply.ok, reply.fatal && !reply.ok;
      Extend(start, trace, Write(reply.ok, reply.left, fatal));
      trace := trace + [Write(reply.ok, reply.left, fatal)];
    }

    /** The items of one page, each new user once; `stopped` when an error or the deadline ends the pass. */
    method EmitPage(read: Read, before: Cycle<nat>, pages: nat, ids: seq<GrantId>, more: bool, calls: Calls, ghost start: State, ghost prefix: seq<Action>)
      returns (result: Cycle<nat>, stopped: bool, ghost trace: seq<Action>)
      requires ids != [] && (forall id :: id in ids ==> id in row.grants) && !before.complete
      requires NoLateWrite(prefix)
      requires Run(start, prefix) == State(row, provider, AsPass(read, before, pages, Emitting(ids, more, {}, None)), lost)
      modifies this`provider, this`lost
      ensures NoLateWrite(trace)
      ensures !result.complete && result.source == before.source
      ensures Run(start, trace) == State(row, provider, AsPass(read, result, pages, if stopped then Committing else Paged(more)), lost)
      ensures !stopped ==> result.after == ids[|ids| - 1]
      ensures before.failed ==> result.failed
      ensures !stopped && !result.failed ==>
                Improves(row.grants, old(provider), provider) && forall id :: id in ids ==> Synced(row.grants, provider, row.grants[id].user)
      ensures (forall id :: id in ids ==> Good(calls.replies(id))) ==> !stopped && result.failed == before.failed
    {
      hide RoleOf, Run, ProviderRole, ProviderAfter, Improves, Synced;
      Untouched(row.grants, provider);
      result, stopped, trace := before, false, prefix;
      var seen: set<User> := {};
      var i := 0;
      while i < |ids|
        invariant i <= |ids| && !result.complete && NoLateWrite(trace) && result.source == before.source
        invariant i < |ids| ==>
                    Run(start, trace) == State(row, provider, AsPass(read, result, pages, Emitting(ids[i..], more, seen, None)), lost)
        invariant i == |ids| ==>
                    Run(start, trace) == State(row, provider, AsPass(read, result, pages, Paged(more)), lost)
        invariant i > 0 ==> result.after == ids[i - 1]
        invariant before.failed ==> result.failed
        invariant !result.failed ==> Improves(row.grants, old(provider), provider) && forall u :: u in seen ==> Synced(row.grants, provider, u)
        invariant forall j :: 0 <= j < i ==> row.grants[ids[j]].user in seen
        invariant (forall id :: id in ids ==> Good(calls.replies(id))) ==> result.failed == before.failed
      {
        var reply := calls.replies(ids[i]);
        if reply.expired {
          Extend(start, trace, Stop);
          trace := trace + [Stop];
          return result, true, trace;
        }
        var user := row.grants[ids[i]].user;
        if user in seen {
          Extend(start, trace, ReadUser(true, false));
          trace := trace + [ReadUser(true, false)];
        } else {
          ghost var provided := provider;
          var failed, fatal;
          failed, fatal, trace := EmitUser(read, result, pages, ids[i..], more, seen, reply, start, trace);
          if !failed && !result.failed {
            StillSynced(row.grants, old(provider), provided, provider, seen, user);
          }
          seen := seen + {user};
          if failed {
            result := result.(failed := true);
            if fatal {
              return result, true, trace;
            }
          }
        }
        result := result.(after := ids[i]);
        i := i + 1;
      }
    }

    /** One page read, its items, and its end. `over` tells that the pass goes no further. */
    method PassPage(read: Read, before: Cycle<nat>, pages: nat, calls: Calls, ghost start: State, ghost prefix: seq<Action>)
      returns (result: Cycle<nat>, done: nat, over: bool, ghost trace: seq<Action>)
      requires NoLateWrite(prefix) && !before.complete && pages < MAX_PAGES
      requires Run(start, prefix) == State(row, provider, AsPass(read, before, pages, Reading), lost)
      modifies this`provider, this`lost
      ensures NoLateWrite(trace) && result.source == before.source && (result.complete ==> over)
      ensures done <= MAX_PAGES && (!over ==> done == pages + 1)
      ensures Run(start, trace) == State(row, provider, AsPass(read, result, done, if over || done == MAX_PAGES then Committing else Reading), lost)
      ensures Undisturbed(row.grants.Keys, calls) ==>
                var (ids, more) := NextPage(row.grants.Keys, before.after, PAGE_SIZE);
                && result == Turned(before, ids, more) && over == !more && done == pages + 1
                && (!before.failed ==> Improves(row.grants, old(provider), provider) && forall id :: id in ids ==> id in row.grants && Synced(row.grants, provider, row.grants[id].user))
    {
      hide Run, RoleOf, Advance, ProviderAfter, ProviderRole, Covers, PageDone, Synced, Improves, NextPage;
      result, done, over := before, pages, true;
      var (ids, more) := calls.pages(before.after);
      Extend(start, prefix, ReadPage(ids, more));
      trace := prefix + [ReadPage(ids, more)];
      if !IsPage(row.grants.Keys, before.after, ids, more, PAGE_SIZE) {
        return;
      }
      done, over := pages + 1, false;
      PageGranted(row.grants.Keys, before.after, ids, more);
      Untouched(row.grants, provider);
      if |ids| > 0 {
        result, over, trace := EmitPage(read, before, done, ids, more, calls, start, trace);
      }
      if !over {
        over, trace := PageEnds(read, result, done, more, calls, start, trace);
        if !over && !more {
          result, over := result.(complete := true), true;
        }
      }
    }

    /** The deadline is looked at once more before the page counts as done. */
    method PageEnds(read: Read, result: Cycle<nat>, pages: nat, more: bool, calls: Calls, ghost start: State, ghost prefix: seq<Action>)
      returns (stopped: bool, ghost trace: seq<Action>)
      requires NoLateWrite(prefix) && pages <= MAX_PAGES
      requires Run(start, prefix) == State(row, provider, AsPass(read, result, pages, Paged(more)), lost)
      ensures NoLateWrite(trace)
      ensures stopped == calls.ends(result.after)
      ensures Run(start, trace) == State(row, provider,
                if stopped then AsPass(read, result, pages, Committing)
                else if !more then AsPass(read, result.(complete := true), pages, Committing)
                else AsPass(read, result, pages, if pages == MAX_PAGES then Committing else Reading), lost)
    {
      hide Run;
      stopped := calls.ends(result.after);
      if stopped {
        Extend(start, prefix, Stop);
        trace := prefix + [Stop];
      } else {
        Extend(start, prefix, EndPage);
        trace := prefix + [EndPage];
      }
    }

    /** The conditional save of a changed cycle. */
    method Commit(read: Read, result: Cycle<nat>, pages: nat, saved: bool, ghost start: State, ghost prefix: seq<Action>) returns (ghost trace: seq<Action>)
      requires NoLateWrite(prefix)
      requires Run(start, prefix) == State(row, provider, AsPass(read, result, pages, Committing), lost)
      modifies this`row
      ensures NoLateWrite(trace)
      ensures Run(start, trace) == State(row, provider, Idle, lost)
      ensures |trace| == |prefix| + 1 && trace[..|prefix|] == prefix && trace[|prefix|].Save?
      ensures var accepted := SaveIdentityScanCycle(old(row), read.version, read.generation, read.revision, result);
              row == if result != read.loaded && saved && accepted.Ok? then accepted.value else old(row)
      ensures row.grants == old(row).grants
    {
      hide Run;
      Extend(start, prefix, Save(saved));
      trace := prefix + [Save(saved)];
      if result != read.loaded && saved {
        var accepted := SaveIdentityScanCycle(row, read.version, read.generation, read.revision, result);
        if accepted.Ok? {
          row := accepted.value;
        }
      }
    }

    /**
     One pass: `complete` tells whether its cycle reached the end of the grants. One
     that nothing disturbs publishes, with every user it passed at the computed role.
     */
    method ReconcileUsers(calls: Calls) returns (complete: bool, ghost trace: seq<Action>)
      modifies this
      ensures NoLateWrite(trace)
      ensures Run(old(State(row, provider, Idle, lost)), trace) == State(row, provider, Idle, lost)
      ensures Ended(old(State(row, provider, Idle, lost)), trace, complete)
      ensures row.grants == old(row).grants
      ensures Undisturbed(old(row).grants.Keys, calls) && GrantProgress.RowLinked(old(row)) && |old(row).grants| <= PAGE_SIZE * MAX_PAGES ==>
                var first := Begun(old(row));
                && complete
                && (!first.failed ==> row.condition == Condition(GrantSyncComplete, row.generation))
                && (!first.failed ==> forall id :: id in row.grants && first.after < id ==> Synced(row.grants, provider, row.grants[id].user))
    {
      ghost var start := State(row, provider, Idle, lost);
      var loaded := if row.cycle.source == Some(row.generation) then row.cycle else Empty();
      var read := Read(row.version, row.generation, row.revision, loaded);
      var result := Resume(loaded, read.generation);
      ghost var first := result;
      assert NoLateWrite([]) && Run(start, []) == start;
      hide Run, IsPage, SaveIdentityScanCycle, Advance, ProviderAfter, Covers, Synced, Improves, SyncedBetween, NextPage, Undisturbed, Calm;
      Extend(start, [], Load);
      trace := [] + [Load];
      ghost var calm := Undisturbed(row.grants.Keys, calls) && |row.grants| <= PAGE_SIZE * MAX_PAGES;
      if calm {
        CalmStarts(row.grants, provider, first);
      }
      var pages: nat, over := 0, false;
      while !over && pages < MAX_PAGES
        invariant row == old(row) && pages <= MAX_PAGES && NoLateWrite(trace) && (result.complete ==> over)
        invariant Run(start, trace) == State(row, provider,
                    AsPass(read, result, pages, if over || pages == MAX_PAGES then Committing else Reading), lost)
        invariant calm ==> Calm(row.grants, provider, first, result, pages, over)
      {
        ghost var provided, previous, turned := provider, result, pages;
        result, pages, over, trace := PassPage(read, result, pages, calls, start, trace);
        if calm {
          ghost var (ids, more) := NextPage(row.grants.Keys, previous.after, PAGE_SIZE);
          assert previous.failed == first.failed by { CalmCycle(row.grants, provided, first, previous, turned, false); }
          CalmNext(row.grants, provided, provider, first, previous, turned, ids, more);
        }
      }
      complete := result.complete;
      trace := Commit(read, result, pages, calls.saved, start, trace);
      if calm && GrantProgress.RowLinked(old(row)) {
        CalmOutcome(old(row), row, provider, first, result, pages, calls.saved);
      }
    }
  }

  /** What a row holds after a pass that nothing disturbed. */
  lemma CalmOutcome(before: Row, after: Row, p: Provider, first: Cycle<nat>, c: Cycle<nat>, pages: nat, saved: bool)
    requires GrantProgress.RowLinked(before) && Calm(before.grants, p, first, c, pages, true) && saved
    requires first == Begun(before)
    requires var accepted := SaveIdentityScanCycle(before, before.version, before.generation, before.revision, c);
             after == if c != (if before.cycle.source == Some(before.generation) then before.cycle else Empty()) && accepted.Ok? then accepted.value else before
    ensures c.complete
    ensures !first.failed ==> after.condition == Condition(GrantSyncComplete, after.generation)
    ensures !first.failed ==> forall id :: id in before.grants && first.after < id ==> Synced(before.grants, p, before.grants[id].user)
  {
    CalmCycle(before.grants, p, first, c, pages, true);
    if !first.failed {
      CalmPublishes(before, p, first, c, pages);
      AllBetween(before.grants, p, first.after, c.after);
    }
    hide Calm, Synced, SyncedBetween, SaveIdentityScanCycle, GrantProgress.RowLinked;
  }

  lemma CalmCycle(g: map<GrantId, Grant>, p: Provider, first: Cycle<nat>, c: Cycle<nat>, pages: nat, over: bool)
    requires Calm(g, p, first, c, pages, over)
    ensures c.failed == first.failed && c.complete == over && (!over ==> pages < MAX_PAGES)
    ensures !first.failed ==> SyncedBetween(g, p, first.after, c.after)
    ensures over ==> After(g.Keys, c.after) == {}
  {}
}
