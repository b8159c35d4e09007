/**
 Lost provider writes that land late: exactly those that something relies on can
 ever be published over, and a reachable state in which one is.
 */
module GrantLateWrites {
  import opened Common
  import opened ScanCycle
  import opened GrantSync
  import opened GrantSafety
  import opened GrantProgress

  /* ---------- what a harmful write leads to ---------- */

  /** A wrong role that the next publication will not correct. */
  predicate Doomed(s: State, u: User) {
    && Granted(s.row.grants, u) && !Synced(s.row.grants, s.provider, u)
    && (Published(s) || (s.worker == Idle && StoredSkips(s.row, u)) || PassSkips(s, u))
  }

  /** The pass keeps skipping the user and writes only others. */
  predicate StillSkipped(s: State, t: State, u: User) {
    && t.row == s.row && PassSkips(t, u)
    && ProviderRole(t.provider, u) == ProviderRole(s.provider, u)
  }

  lemma HeadIsAnother(s: State, u: User)
    requires Linked(s) && PassSkips(s, u) && s.worker.stage.Emitting?
    requires s.worker.stage.call.Some? || s.row.grants[s.worker.stage.items[0]].user !in s.worker.stage.seen
    ensures s.row.grants[s.worker.stage.items[0]].user != u
  {
    var g, k := s.row.grants, s.worker;
    var items := k.stage.items;
    assert items[0] in g && k.current.after < items[0] && !k.current.complete;
    hide Savable, Linked;
  }

  lemma AdvanceSkips(g: map<GrantId, Grant>, row: Row, k: Worker, seen: set<User>, u: User)
    requires PassLinked(row, k) && k.Pass? && k.stage.Emitting? && g == row.grants && Savable(row, k) && !k.current.failed
    requires Claims(g, k.current, u) || Skipped(g, k.stage.items, seen, None, u)
    ensures var t := Advance(k, seen);
            && Savable(row, t) && !t.current.failed
            && (Claims(g, t.current, u) || (t.stage.Emitting? && Skipped(g, t.stage.items, seen, None, u)))
  {
    var items := k.stage.items;
    if Claims(g, k.current, u) {
      assert Passed(g, u, items[0]);
    } else if |items| == 1 {
      assert Passed(g, u, items[0]);
    } else {
      assert items[1..][|items| - 2] == items[|items| - 1];
      hide Passed;
    }
  }
  lemma ReadUserSkips(s: State, u: User)
    requires Linked(s) && PassSkips(s, u) && s.worker.stage.Emitting? && s.worker.stage.call.None?
    ensures StillSkipped(s, Apply(s, Next(s)), u)
  {
    var g, k := s.row.grants, s.worker;
    hide RoleOf, Covers, NextPage, CreateGrant, DeleteGrant, SaveIdentityScanCycle, LoadPass, ReadPageStep;
    assert k.stage.items[0] in g;
    if g[k.stage.items[0]].user in k.stage.seen {
      AdvanceSkips(g, s.row, k, k.stage.seen, u);
    } else {
      HeadIsAnother(s, u);
    }
    hide Passed, Linked, Advance;
  }

  lemma WriteSkips(s: State, u: User)
    requires Linked(s) && PassSkips(s, u) && s.worker.stage.Emitting? && s.worker.stage.call.Some?
    ensures StillSkipped(s, Apply(s, Next(s)), u)
  {
    var g, k := s.row.grants, s.worker;
    hide RoleOf, Covers, NextPage, CreateGrant, DeleteGrant, SaveIdentityScanCycle, LoadPass, ReadPageStep;
    assert k.stage.items[0] in g;
    HeadIsAnother(s, u);
    AdvanceSkips(g, s.row, k, k.stage.seen, u);
    hide Passed, Linked, Advance;
  }

  lemma PageSkips(s: State, u: User)
    requires Linked(s) && PassSkips(s, u) && (s.worker.stage == Reading || s.worker.stage.Paged?)
    ensures StillSkipped(s, Apply(s, Next(s)), u)
  {
    hide RoleOf, NextPage, CreateGrant, DeleteGrant, SaveIdentityScanCycle, LoadPass, IsPage, Passed;
  }

  lemma SaveSkips(s: State, u: User)
    requires Linked(s) && PassSkips(s, u) && s.worker.stage == Committing
    ensures var t := Apply(s, Next(s)); t.row.grants == s.row.grants && t.provider == s.provider && (Published(t) || (t.worker == Idle && StoredSkips(t.row, u)))
  {
    hide RoleOf, CreateGrant, DeleteGrant, LoadPass, ReadPageStep, Passed;
  }

  lemma LoadSkips(s: State, u: User)
    requires Linked(s) && s.worker == Idle && StoredSkips(s.row, u) && !Published(s)
    ensures StillSkipped(s, Apply(s, Next(s)), u)
  {
    hide RoleOf, CreateGrant, DeleteGrant, SaveIdentityScanCycle, ReadPageStep, Passed;
  }

  /** The fault-free run only carries the wrong role to its publication. */
  lemma NextKeepsDoomed(s: State, u: User)
    requires Linked(s) && Doomed(s, u) && !Published(s)
    ensures Doomed(Apply(s, Next(s)), u)
  {
    assert s.worker == Idle ==> !PassSkips(s, u);
    hide RoleOf, Linked, StoredSkips, PassSkips, Next, Apply;
    if s.worker == Idle {
      LoadSkips(s, u);
    } else if s.worker.stage == Committing {
      SaveSkips(s, u);
    } else if s.worker.stage.Emitting? {
      if s.worker.stage.call.None? {
        ReadUserSkips(s, u);
      } else {
        WriteSkips(s, u);
      }
    } else {
      PageSkips(s, u);
    }
  }

  lemma {:induction false} DoomedPublishes(s: State, u: User) returns (rest: seq<Action>)
    requires Linked(s) && Doomed(s, u)
    ensures NoLateWrite(rest) && Published(Run(s, rest))
    ensures Granted(Run(s, rest).row.grants, u) && !Synced(Run(s, rest).row.grants, Run(s, rest).provider, u)
    decreases Rank(s)
  {
    rest := [];
    if !Published(s) {
      NextKeepsDoomed(s, u);
      RankFalls(s);
      StepKeepsLinked(s, Next(s));
      RunOne(s, Next(s));
      var t := Apply(s, Next(s));
      rest := [Next(s)];
      assert !Next(s).LateWrite?;
      if !Published(t) {
        hide Apply, Next, Rank, Linked, Run;
        var more := DoomedPublishes(t, u);
        RunSplits(s, rest, more);
        rest := rest + more;
      }
    }
    hide Linked, RoleOf;
  }

  /** A harmful write can be published over: by what is published, by the pass under way, or after a crash by the checkpoint. */
  lemma HarmfulPublishes(s: State, u: User) returns (rest: seq<Action>)
    requires Linked(s) && Relied(s, u) && !Synced(s.row.grants, s.provider, u)
    ensures NoLateWrite(rest) && Published(Run(s, rest))
    ensures !AllSynced(Run(s, rest).row.grants, Run(s, rest).provider)
  {
    hide RoleOf, Linked, Claims, Skipped, Synced;
    if Published(s) || PassSkips(s, u) {
      rest := DoomedPublishes(s, u);
    } else {
      var t := Apply(s, Crash);
      StepKeepsLinked(s, Crash);
      RunOne(s, Crash);
      var more := DoomedPublishes(t, u);
      RunSplits(s, [Crash], more);
      rest := [Crash] + more;
    }
    hide Run;
  }

  lemma NoLateWriteIsTame(s: State, actions: seq<Action>)
    requires NoLateWrite(actions)
    ensures Tame(s, actions)
  {
    hide Run, Harmless;
  }

  /** No tame continuation publishes a condition that is not true. */
  ghost predicate NeverMisleads(t: State) {
    forall after: seq<Action> :: Tame(t, after) && Published(Run(t, after)) ==> AllSynced(Run(t, after).row.grants, Run(t, after).provider)
  }

  /**
   After any tame run, a lost write that lands now keeps every later publication
   true exactly when it is harmless: it says what the grants say, or nothing
   published, stored or under way relies on its user.
   */
  lemma LateWriteExactly(id: GrantId, owner: User, before: seq<Action>, u: User, role: Role)
    requires id >= 1 && Tame(Init(id, owner), before) && (u, role) in Run(Init(id, owner), before).lost
    ensures var s := Run(Init(id, owner), before);
            Harmless(s, u, role) <==> NeverMisleads(Apply(s, LateWrite(u, role)))
  {
    InitInv(id, owner);
    RunKeepsInv(Init(id, owner), before);
    RunKeepsLinked(id, owner, before);
    var s := Run(Init(id, owner), before);
    var t := Apply(s, LateWrite(u, role));
    hide Run, Tame, Linked, WorkerStep;
    if Harmless(s, u, role) {
      HarmlessPublishesTruth(s, u, role);
    } else {
      StepKeepsLinked(s, LateWrite(u, role));
      assert Relied(t, u);
      OthersSynced(s.row.grants, s.provider, u, role);
      var rest := HarmfulPublishes(t, u);
      NoLateWriteIsTame(t, rest);
      hide Inv, Harmless, AllSynced, Published;
      assert !NeverMisleads(t);
    }
  }

  /** After any tame run the worker can reach, without faults, a current condition that is true. */
  lemma ScanCanPublishTruth(id: GrantId, owner: User, before: seq<Action>)
    requires id >= 1 && Tame(Init(id, owner), before)
    ensures var s := Run(Init(id, owner), before);
            exists rest: seq<Action> ::
              && |rest| <= 36 * |s.row.grants.Keys| + 53
              && (forall a :: a in rest ==> FaultFree(a))
              && Current(Run(s, rest)) && AllSynced(s.row.grants, Run(s, rest).provider)
  {
    InitInv(id, owner);
    RunKeepsInv(Init(id, owner), before);
    RunKeepsLinked(id, owner, before);
    var s := Run(Init(id, owner), before);
    FinishPublishes(s);
    RankBound(s);
    var rest := Finish(s);
    assert NoLateWrite(rest) by {
      forall i | 0 <= i < |rest|
        ensures !rest[i].LateWrite?
      {
        assert FaultFree(rest[i]);
      }
    }
    NoLateWriteIsTame(s, rest);
    RunKeepsInv(s, rest);
    assert AllSynced(s.row.grants, Run(s, rest).provider) by { hide Run, WorkerOk, Finish; }
    hide Linked, Rank, Run, Finish, FaultFree, Current, AllSynced, Inv;
  }

  lemma HarmlessPublishesTruth(s: State, u: User, role: Role)
    requires Inv(s) && (u, role) in s.lost && Harmless(s, u, role)
    ensures NeverMisleads(Apply(s, LateWrite(u, role)))
  {
    var t := Apply(s, LateWrite(u, role));
    LateWriteKeepsInvExactly(s, u, role);
    hide Run, Tame, Apply, Harmless;
    forall after: seq<Action> | Tame(t, after) && Published(Run(t, after))
      ensures AllSynced(Run(t, after).row.grants, Run(t, after).provider)
    {
      RunKeepsInv(t, after);
      hide WorkerOk;
    }
  }

  /* ---------- a reachable state that a late write makes wrong ---------- */

  ghost predicate Reachable(s: State) {
    exists id: GrantId, owner: User, actions: seq<Action> :: id >= 1 && NoLateWrite(actions) && s == Run(Init(id, owner), actions)
  }

  lemma ReachStep(s: State, a: Action)
    requires Reachable(s) && !a.LateWrite?
    ensures Reachable(Apply(s, a))
  {
    var id: GrantId, owner: User, actions: seq<Action> :| id >= 1 && NoLateWrite(actions) && s == Run(Init(id, owner), actions);
    RunSnoc(Init(id, owner), actions, a);
    hide Apply;
    assert NoLateWrite(actions + [a]);
  }

  function TwoGrants(live: bool): map<GrantId, Grant> {
    map[1 := Grant(7, Owner, true), 2 := Grant(8, Viewer, live)]
  }

  function SecondRole(live: bool): Role {
    if live then Viewer else NoRole
  }

  lemma TwoRoles(live: bool)
    ensures RoleOf(TwoGrants(live), 7) == Owner
    ensures RoleOf(TwoGrants(live), 8) == SecondRole(live)
    ensures IsPage(TwoGrants(live).Keys, 0, [1, 2], false, PAGE_SIZE)
  {
    var g := TwoGrants(live);
    assert g[1] == Grant(7, Owner, true) && g[2] == Grant(8, Viewer, live);
    assert [1, 2][0] == 1 && [1, 2][1] == 2;
  }

  predicate Fresh(s: State, live: bool) {
    && s.row.grants == TwoGrants(live) && s.row.cycle == Empty<nat>() && s.row.generation == 1 && s.row.revision >= 1
    && s.worker == Idle && s.row.condition.reason == GrantsChanged
  }

  /** The worker has written the first of the two users. */
  predicate HalfDone(s: State, live: bool) {
    && Fresh(s.(worker := Idle), live)
    && s.worker == Pass(s.row.version, 1, s.row.revision, Empty(), Cycle(Some(1), 1, false, false), 1, Emitting([2], false, {7}, None))
  }

  lemma FirstUser(s: State, live: bool) returns (t: State)
    requires Reachable(s) && Fresh(s, live)
    ensures Reachable(t) && HalfDone(t, live) && t.lost == s.lost
  {
    TwoRoles(live);
    hide RoleOf, IsPage, Reachable;
    var s1 := Apply(s, Load);
    var s2 := Apply(s1, ReadPage([1, 2], false));
    var s3 := Apply(s2, ReadUser(true, false));
    t := Apply(s3, Write(true, NoRole, false));
    assert [1, 2][1..] == [2] && [1, 2][0] == 1;
    assert s3.worker.stage == Emitting([1, 2], false, {7}, Some(Owner));
    ReachStep(s, Load);
    ReachStep(s1, ReadPage([1, 2], false));
    ReachStep(s2, ReadUser(true, false));
    ReachStep(s3, Write(true, NoRole, false));
  }

  /** The second user's write has ended, well or not, and with it the page. */
  predicate PageWritten(s: State, live: bool, ok: bool) {
    && Fresh(s.(worker := Idle), live)
    && s.worker == Pass(s.row.version, 1, s.row.revision, Empty(), Cycle(Some(1), 2, !ok, false), 1, Paged(false))
  }

  lemma SecondWrite(s: State, live: bool, ok: bool) returns (t: State)
    requires Reachable(s) && HalfDone(s, live)
    ensures Reachable(t) && PageWritten(t, live, ok)
    ensures t.lost == if ok then s.lost else s.lost + {(8, SecondRole(live))}
  {
    TwoRoles(live);
    hide RoleOf, Reachable, CreateGrant, DeleteGrant, SaveIdentityScanCycle, LoadPass, ReadPageStep;
    var s1 := Apply(s, ReadUser(true, false));
    t := Apply(s1, Write(ok, NoRole, false));
    ReachStep(s, ReadUser(true, false));
    ReachStep(s1, Write(ok, NoRole, false));
  }

  lemma SecondUser(s: State, live: bool, ok: bool) returns (t: State)
    requires Reachable(s) && HalfDone(s, live)
    ensures Reachable(t) && t.worker == Idle && t.row.grants == TwoGrants(live) && t.row.generation == 1 && t.row.revision >= 1
    ensures t.row.condition.reason == if ok then GrantSyncComplete else GrantSyncIncomplete
    ensures t.lost == if ok then s.lost else s.lost + {(8, SecondRole(live))}
  {
    hide RoleOf, Reachable, CreateGrant, DeleteGrant, LoadPass, ReadPageStep, HalfDone;
    var s1 := SecondWrite(s, live, ok);
    var s2 := Apply(s1, EndPage);
    t := Apply(s2, Save(true));
    ReachStep(s1, EndPage);
    ReachStep(s2, Save(true));
  }

  /** A viewer is granted; the grant is reset evidence for a scan from the start. */
  lemma ViewerGranted() returns (s: State)
    ensures Reachable(s) && Fresh(s, true)
  {
    assert Run(Init(1, 7), []) == Init(1, 7) && NoLateWrite([]);
    assert Reachable(Init(1, 7));
    ReachStep(Init(1, 7), GrantCreate(2, 8, Viewer));
    hide Reachable;
    s := Apply(Init(1, 7), GrantCreate(2, 8, Viewer));
    assert s.row.grants == TwoGrants(true);
  }

  lemma ViewerRevoked(s: State) returns (t: State)
    requires Reachable(s) && s.worker == Idle && s.row.grants == TwoGrants(true) && s.row.generation == 1 && s.row.revision >= 1
    ensures Reachable(t) && Fresh(t, false) && t.lost == s.lost
  {
    hide Reachable;
    ReachStep(s, GrantDelete(2));
    t := Apply(s, GrantDelete(2));
    assert t.row.grants == TwoGrants(false);
  }

  /**
   The condition fails: a viewer's write loses its reply, the grant is revoked, a
   clean pass publishes True, and then the lost write lands.
   */
  lemma LateWriteMisleads() returns (s: State)
    ensures Reachable(s) && Published(s) && (8, Viewer) in s.lost
    ensures !AllSynced(s.row.grants, Apply(s, LateWrite(8, Viewer)).provider)
  {
    hide Reachable, RoleOf, Fresh, HalfDone;
    s := ViewerGranted();
    s := FirstUser(s, true);
    s := SecondUser(s, true, false);
    s := ViewerRevoked(s);
    s := FirstUser(s, false);
    s := SecondUser(s, false, true);
    TwoRoles(false);
    hide WorkerStep;
    var q := Apply(s, LateWrite(8, Viewer)).provider;
    assert q[8] == Viewer;
    assert s.row.grants[2] == Grant(8, Viewer, false);
    assert !Synced(s.row.grants, q, 8);
  }
}
