/**
 What the calls of a run alone say of the grants, the generation and the condition,
 and what a provider call that failed leaves behind.
 */
module GrantHistory {
  import opened Common
  import opened ScanCycle
  import opened GrantSync

  /** One grant as the create and delete calls of a run leave it: the first create counts, and a delete is final. */
  function GrantAfter(first: Option<Grant>, actions: seq<Action>, id: GrantId): Option<Grant>
    decreases |actions|
  {
    if actions == [] then first
    else
      var before := GrantAfter(first, actions[..|actions| - 1], id);
      match actions[|actions| - 1]
      case GrantCreate(i, user, role) => if i == id && i != 0 && role != NoRole && before.None? then Some(Grant(user, role, true)) else before
      case GrantDelete(i) => if i == id && before.Some? then Some(before.value.(live := false)) else before
      case _ => before
  }

  /** A new Gateway starts with the grant of its owner. */
  function Called(first: GrantId, owner: User, actions: seq<Action>, id: GrantId): Option<Grant> {
    GrantAfter(if id == first then Some(Grant(owner, Owner, true)) else None, actions, id)
  }

  function SpecUpdates(actions: seq<Action>): nat
    decreases |actions|
  {
    if actions == [] then 0
    else SpecUpdates(actions[..|actions| - 1]) + (if actions[|actions| - 1] == SpecUpdate then 1 else 0)
  }

  function Stored(grants: map<GrantId, Grant>, id: GrantId): Option<Grant> {
    if id in grants then Some(grants[id]) else None
  }

  lemma StepGrants(s: State, a: Action, id: GrantId)
    ensures Stored(Apply(s, a).row.grants, id) == GrantAfter(Stored(s.row.grants, id), [a], id)
  {
    hide RoleOf, Covers, ProviderAfter;
    assert [a][..0] == [];
    assert GrantAfter(Stored(s.row.grants, id), [a][..0], id) == Stored(s.row.grants, id);
  }

  lemma AfterSnoc(first: Option<Grant>, actions: seq<Action>, a: Action, id: GrantId)
    ensures GrantAfter(first, actions + [a], id) == GrantAfter(GrantAfter(first, actions, id), [a], id)
  {
    assert (actions + [a])[..|actions|] == actions;
    assert [a][..0] == [];
  }

  /** On every run each grant is exactly what the calls about it left, whatever else ran. */
  lemma {:induction false} GrantsFollowCalls(first: GrantId, owner: User, actions: seq<Action>, id: GrantId)
    requires first >= 1
    ensures Stored(Run(Init(first, owner), actions).row.grants, id) == Called(first, owner, actions, id)
    decreases |actions|
  {
    if actions != [] {
      var n := |actions| - 1;
      GrantsFollowCalls(first, owner, actions[..n], id);
      StepGrants(Run(Init(first, owner), actions[..n]), actions[n], id);
      AfterSnoc(if id == first then Some(Grant(owner, Owner, true)) else None, actions[..n], actions[n], id);
      assert actions == actions[..n] + [actions[n]];
      hide Apply, GrantAfter;
    }
  }

  /** The role that a scan writes for a user is decided by the calls of the run alone. */
  lemma RoleFollowsCalls(first: GrantId, owner: User, actions: seq<Action>, u: User)
    requires first >= 1
    ensures var role := RoleOf(Run(Init(first, owner), actions).row.grants, u);
            && (role == Owner <==> exists id: GrantId :: Called(first, owner, actions, id) == Some(Grant(u, Owner, true)))
            && (role == Viewer <==> role != Owner && exists id: GrantId :: Called(first, owner, actions, id) == Some(Grant(u, Viewer, true)))
  {
    var grants := Run(Init(first, owner), actions).row.grants;
    RoleIsUnion(grants, u);
    forall id: GrantId
      ensures Called(first, owner, actions, id) == if id in grants then Some(grants[id]) else None
    {
      GrantsFollowCalls(first, owner, actions, id);
    }
    hide RoleOf, Called, Run;
    forall id | id in grants
      ensures Called(first, owner, actions, id) == Some(grants[id])
    {}
  }

  lemma StepGeneration(s: State, a: Action)
    ensures Apply(s, a).row.generation == s.row.generation + (if a == SpecUpdate then 1 else 0)
    ensures s.row.revision <= Apply(s, a).row.revision && s.row.version <= Apply(s, a).row.version
    ensures a == SpecUpdate || a == Touch || Apply(s, a).row.condition != s.row.condition ==> s.row.revision < Apply(s, a).row.revision
    ensures Apply(s, a).row.grants != s.row.grants || Apply(s, a).row.cycle != s.row.cycle ==> s.row.version < Apply(s, a).row.version
  {
    hide RoleOf, Covers, ProviderAfter;
  }

  /** The generation counts the spec changes of the run, and no other action moves it. */
  lemma {:induction false} GenerationCountsUpdates(first: GrantId, owner: User, actions: seq<Action>)
    requires first >= 1
    ensures Run(Init(first, owner), actions).row.generation == 1 + SpecUpdates(actions)
    decreases |actions|
  {
    if actions != [] {
      GenerationCountsUpdates(first, owner, actions[..|actions| - 1]);
      StepGeneration(Run(Init(first, owner), actions[..|actions| - 1]), actions[|actions| - 1]);
      hide Apply;
    }
  }

  /** A step that changes a grant takes the publication and the stored evidence with it. */
  lemma GrantChangeUnpublishes(s: State, a: Action)
    requires Apply(s, a).row.grants != s.row.grants
    ensures a.GrantCreate? || a.GrantDelete?
    ensures var t := Apply(s, a);
            && !Published(t) && t.row.condition == Condition(GrantsChanged, t.row.generation)
            && t.row.cycle == Empty() && t.row.version == s.row.version + 1
            && t.provider == s.provider && t.worker == s.worker && t.lost == s.lost
  {
    hide RoleOf, Covers, ProviderAfter;
  }

  /* ---------- failures ---------- */

  predicate Emits(s: State) {
    s.worker.Pass? && s.worker.stage.Emitting? && s.worker.stage.items != [] && s.worker.stage.items[0] in s.row.grants
  }

  function HeadUser(s: State): User
    requires Emits(s)
  {
    s.row.grants[s.worker.stage.items[0]].user
  }

  /** A read or a write that failed is kept in the cycle, and a failure once kept stays for the rest of the pass. */
  lemma FailuresAreKept(s: State, a: Action)
    requires s.worker.Pass? && Apply(s, a).worker.Pass?
    ensures s.worker.current.failed ==> Apply(s, a).worker.current.failed
    ensures Emits(s) && s.worker.stage.call == None && HeadUser(s) !in s.worker.stage.seen && a.ReadUser? && !a.ok ==> Apply(s, a).worker.current.failed
    ensures Emits(s) && s.worker.stage.call.Some? && a.Write? && !a.ok ==> Apply(s, a).worker.current.failed
  {
    hide RoleOf, Covers, ProviderAfter;
  }

  /** How the first item of a page ends: a fatal error leaves the cursor before it, anything else moves past it. */
  lemma WriteEnds(s: State, ok: bool, left: Role, stop: bool)
    requires Emits(s) && s.worker.stage.call.Some?
    ensures var t := Apply(s, Write(ok, left, stop));
            && t.row == s.row && t.worker.Pass?
            && (if !ok && stop then t.worker.stage == Committing && t.worker.current.after == s.worker.current.after
                else t.worker.stage != Committing && t.worker.current.after == s.worker.stage.items[0])
            && t.worker.current.failed == (s.worker.current.failed || !ok)
            && !(t.worker.current.complete && !s.worker.current.complete)
  {
    hide RoleOf, Covers, ProviderAfter;
  }

  /** What a provider call leaves: its role when it succeeded; otherwise a right role stays and any other may have become anything. */
  lemma WriteActs(s: State, ok: bool, left: Role, stop: bool)
    requires Emits(s) && s.worker.stage.call.Some?
    ensures var t, u, role := Apply(s, Write(ok, left, stop)), HeadUser(s), s.worker.stage.call.value;
            && ProviderRole(t.provider, u) == (if ok || ProviderRole(s.provider, u) == role then role else left)
            && (forall v: User :: v != u ==> ProviderRole(t.provider, v) == ProviderRole(s.provider, v))
            && t.lost == if ok then s.lost else s.lost + {(u, role)}
  {
    hide RoleOf, Covers;
  }

  /** A crash forgets the pass, and a call under way may still land. */
  lemma CrashForgets(s: State)
    ensures var t := Apply(s, Crash);
            && t.worker == Idle && t.row == s.row && t.provider == s.provider
            && t.lost == if Emits(s) && s.worker.stage.call.Some? then s.lost + {(HeadUser(s), s.worker.stage.call.value)} else s.lost
  {}

  /** A pass that is stopped goes on to its save with the cursor and failures it has. */
  lemma StopKeepsCycle(s: State)
    requires s.worker.Pass? && (s.worker.stage.Emitting? ==> s.worker.stage.call == None)
    ensures Apply(s, Stop) == s.(worker := s.worker.(stage := Committing))
  {}
}
