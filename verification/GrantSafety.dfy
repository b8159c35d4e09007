/** What every action of grant synchronisation keeps, and what a published condition therefore means. */
module GrantSafety {
  import opened Common
  import opened ScanCycle
  import opened GrantSync

  /** The scan has no grant of this user left to pass. */
  predicate Passed(g: map<GrantId, Grant>, u: User, after: nat) {
    forall id :: id in g && g[id].user == u ==> id <= after
  }

  /** A cycle without a failure vouches for the users that it will not write again. */
  predicate Claims(g: map<GrantId, Grant>, c: Cycle<nat>, u: User) {
    c.source.Some? && !c.failed && (c.complete || Passed(g, u, c.after))
  }

  predicate Evidence(g: map<GrantId, Grant>, p: Provider, c: Cycle<nat>) {
    forall id :: id in g && Claims(g, c, g[id].user) ==> Synced(g, p, g[id].user)
  }

  /** A user tried on this page, with no grant beyond it, is skipped from here on; the user being written is not. */
  predicate Skipped(g: map<GrantId, Grant>, items: seq<GrantId>, seen: set<User>, call: Option<Role>, u: User) {
    && items != [] && u in seen
    && Passed(g, u, items[|items| - 1])
    && !(call.Some? && items[0] in g && g[items[0]].user == u)
  }

  predicate SeenOk(g: map<GrantId, Grant>, p: Provider, items: seq<GrantId>, seen: set<User>, call: Option<Role>) {
    forall id :: id in g && Skipped(g, items, seen, call, g[id].user) ==> Synced(g, p, g[id].user)
  }

  predicate RowOk(row: Row, p: Provider) {
    && (0 !in row.grants)
    && (row.cycle.source.Some? ==> row.cycle.source.value <= row.generation)
    && (row.cycle.source == Some(row.generation) ==> Evidence(row.grants, p, row.cycle))
    && (row.condition.reason == GrantSyncComplete ==> AllSynced(row.grants, p))
  }

  predicate StageOk(g: map<GrantId, Grant>, c: Cycle<nat>, stage: Stage) {
    match stage
    case Reading => !c.complete
    case Emitting(items, more, seen, call) =>
      && !c.complete && items != []
      && Covers(g.Keys, c.after, items, more)
      && (call.Some? ==> call.value == RoleOf(g, g[items[0]].user))
    case Paged(more) => !c.complete && Covers(g.Keys, c.after, [], more)
    case Committing => true
  }

  /** What a pass that can still save vouches for. */
  predicate PassEvidence(g: map<GrantId, Grant>, p: Provider, c: Cycle<nat>, stage: Stage) {
    && Evidence(g, p, c)
    && (stage.Emitting? && !c.failed ==> SeenOk(g, p, stage.items, stage.seen, stage.call))
  }

  /** A pass whose checkpoint was reset can no longer save, and no evidence is left for it to spoil. */
  predicate WorkerOk(row: Row, p: Provider, k: Worker) {
    k.Pass? ==>
      && k.version <= row.version && k.generation <= row.generation && k.revision <= row.revision
      && k.current.source == Some(k.generation)
      && (k.version == row.version ==> StageOk(row.grants, k.current, k.stage))
      && (Savable(row, k) ==> PassEvidence(row.grants, p, k.current, k.stage))
      && (k.version != row.version ==> row.cycle == Empty<nat>() && row.condition.reason != GrantSyncComplete)
  }

  predicate Inv(s: State) {
    RowOk(s.row, s.provider) && WorkerOk(s.row, s.provider, s.worker)
  }

  lemma InitInv(id: GrantId, owner: User)
    requires id >= 1
    ensures Inv(Init(id, owner))
  {}

  lemma ResetKeepsInv(s: State, g: map<GrantId, Grant>)
    requires Inv(s) && 0 !in g
    ensures Inv(s.(row := ResetIdentityCycle(s.row.(grants := g))))
  {
    hide RoleOf, Covers, Passed;
  }

  lemma GrantWriteKeepsInv(s: State, a: Action)
    requires Inv(s) && (a.GrantCreate? || a.GrantDelete?)
    ensures Inv(Apply(s, a))
  {
    hide RoleOf, Evidence, StageOk, PassEvidence;
    if a.GrantCreate? && a.id != 0 && a.id !in s.row.grants && a.role != NoRole {
      ResetKeepsInv(s, s.row.grants[a.id := Grant(a.user, a.role, true)]);
    } else if a.GrantDelete? && a.id in s.row.grants && s.row.grants[a.id].live {
      ResetKeepsInv(s, s.row.grants[a.id := s.row.grants[a.id].(live := false)]);
    }
  }

  lemma AdvanceKeepsStage(g: map<GrantId, Grant>, k: Worker, seen: set<User>)
    requires k.Pass? && k.stage.Emitting? && StageOk(g, k.current, k.stage)
    ensures var t := Advance(k, seen);
            && t.Pass? && t.(current := k.current, stage := k.stage) == k
            && t.current == k.current.(after := k.stage.items[0])
            && StageOk(g, t.current, t.stage)
  {
    hide RoleOf;
    CoversRest(g.Keys, k.current.after, k.stage.items, k.stage.more);
    assert |k.stage.items| == 1 ==> k.stage.items[1..] == [];
    hide Covers;
  }

  /** The only users newly passed are those of the item that the cursor moves past. */
  lemma NewlyPassed(g: map<GrantId, Grant>, after: nat, items: seq<GrantId>, more: bool, u: User)
    requires Covers(g.Keys, after, items, more) && items != [] && Passed(g, u, items[0])
    ensures Passed(g, u, after) || u == g[items[0]].user
  {
    CoversRest(g.Keys, after, items, more);
    hide Covers;
  }

  lemma SkippedLater(g: map<GrantId, Grant>, p: Provider, items: seq<GrantId>, seen: set<User>)
    requires items != [] && SeenOk(g, p, items, seen, None)
    ensures SeenOk(g, p, items[1..], seen, None)
  {
    hide Synced, Passed;
    if |items| > 1 {
      assert items[1..][|items| - 2] == items[|items| - 1];
    }
  }

  lemma AdvanceKeepsEvidence(g: map<GrantId, Grant>, p: Provider, k: Worker, seen: set<User>)
    requires k.Pass? && k.stage.Emitting? && k.current.source.Some? && StageOk(g, k.current, k.stage)
    requires Evidence(g, p, k.current)
    requires !k.current.failed ==> SeenOk(g, p, k.stage.items, seen, None)
    requires !k.current.failed && Passed(g, g[k.stage.items[0]].user, k.stage.items[0]) ==> Synced(g, p, g[k.stage.items[0]].user)
    ensures var t := Advance(k, seen); PassEvidence(g, p, t.current, t.stage)
  {
    hide Synced, RoleOf, Passed, Covers;
    var t := Advance(k, seen);
    if !k.current.failed {
      SkippedLater(g, p, k.stage.items, seen);
    }
    hide SeenOk;
    forall id | id in g && Claims(g, t.current, g[id].user)
      ensures Synced(g, p, g[id].user)
    {
      NewlyPassed(g, k.current.after, k.stage.items, k.stage.more, g[id].user);
    }
  }

  lemma EndPageKeepsOk(row: Row, p: Provider, k: Worker)
    requires WorkerOk(row, p, k) && k.Pass? && k.stage.Paged?
    ensures WorkerOk(row, p, PageDone(k, k.stage.more))
  {
    hide Synced;
    if k.version == row.version && !k.stage.more {
      assert forall u :: Passed(row.grants, u, k.current.after);
    }
  }

  lemma LoadKeepsOk(row: Row, p: Provider)
    requires RowOk(row, p)
    ensures WorkerOk(row, p, LoadPass(row))
  {
    hide Synced;
    var k := LoadPass(row);
    if k.current.after == 0 {
      assert forall id :: id in row.grants ==> !Passed(row.grants, row.grants[id].user, 0);
    }
  }

  lemma ReadPageKeepsOk(row: Row, p: Provider, k: Worker, ids: seq<GrantId>, more: bool)
    requires WorkerOk(row, p, k) && k.Pass? && k.stage == Reading
    ensures WorkerOk(row, p, ReadPageStep(row, k, ids, more))
  {
    hide Synced, Claims;
  }

  lemma ReadUserKeepsOk(row: Row, p: Provider, k: Worker, ok: bool, stop: bool)
    requires WorkerOk(row, p, k) && k.Pass? && k.stage.Emitting? && k.stage.call == None
    requires k.stage.items != [] && k.stage.items[0] in row.grants
    ensures WorkerOk(row, p, ReadUserStep(row, k, ok, stop))
  {
    hide Synced, RoleOf, Covers;
    var u, seen := row.grants[k.stage.items[0]].user, k.stage.seen;
    if k.version == row.version {
      if u in seen {
        AdvanceKeepsStage(row.grants, k, seen);
        if Savable(row, k) {
          HeadPassed(row.grants, k);
          AdvanceKeepsEvidence(row.grants, p, k, seen);
        }
      } else if !ok && !stop {
        AdvanceKeepsStage(row.grants, Failing(k), seen + {u});
        if Savable(row, k) {
          AdvanceKeepsEvidence(row.grants, p, Failing(k), seen + {u});
        }
      }
    }
    hide Passed;
  }

  lemma HeadPassed(g: map<GrantId, Grant>, k: Worker)
    requires k.Pass? && k.stage.Emitting? && StageOk(g, k.current, k.stage)
    ensures forall u :: Passed(g, u, k.stage.items[0]) ==> Passed(g, u, k.stage.items[|k.stage.items| - 1])
  {
    hide RoleOf;
    assert k.stage.items[0] <= k.stage.items[|k.stage.items| - 1];
  }

  /** No settled user is disturbed. */
  ghost predicate Keeps(g: map<GrantId, Grant>, p: Provider, q: Provider) {
    forall u :: Synced(g, p, u) ==> Synced(g, q, u)
  }

  lemma CurrentWriteKeeps(g: map<GrantId, Grant>, p: Provider, u: User, ok: bool, left: Role)
    ensures var q := ProviderAfter(p, u, RoleOf(g, u), ok, left); Keeps(g, p, q) && (ok ==> Synced(g, q, u))
  {
    hide RoleOf;
  }

  lemma KeepsMonotone(row: Row, p: Provider, q: Provider, k: Worker)
    requires Keeps(row.grants, p, q)
    ensures RowOk(row, p) ==> RowOk(row, q)
    ensures WorkerOk(row, p, k) ==> WorkerOk(row, q, k)
  {
    hide Synced, RoleOf, Covers, Claims, Skipped, StageOk;
  }

  /** A write of the current role keeps all evidence; a write of an outdated role finds none. */
  lemma WriteKeepsOk(row: Row, p: Provider, k: Worker, ok: bool, left: Role, stop: bool)
    requires RowOk(row, p) && WorkerOk(row, p, k) && k.Pass? && k.stage.Emitting? && k.stage.call.Some?
    requires k.stage.items != [] && k.stage.items[0] in row.grants
    ensures var q := ProviderAfter(p, row.grants[k.stage.items[0]].user, k.stage.call.value, ok, left);
            RowOk(row, q) && WorkerOk(row, q, WriteStep(k, ok, stop))
  {
    var u := row.grants[k.stage.items[0]].user;
    var q := ProviderAfter(p, u, k.stage.call.value, ok, left);
    hide Synced, RoleOf, Covers;
    if k.version == row.version {
      CurrentWriteKeeps(row.grants, p, u, ok, left);
      KeepsMonotone(row, p, q, k);
      hide ProviderAfter, RowOk;
      if ok {
        WrittenKeepsOk(row, q, k);
      } else if !stop {
        FailedKeepsOk(row, q, k);
      }
      hide Keeps, Claims, Advance;
    }
  }

  lemma WrittenKeepsOk(row: Row, q: Provider, k: Worker)
    requires WorkerOk(row, q, k) && k.Pass? && k.stage.Emitting? && k.version == row.version
    requires k.stage.items[0] in row.grants && Synced(row.grants, q, row.grants[k.stage.items[0]].user)
    ensures WorkerOk(row, q, Advance(k, k.stage.seen))
  {
    hide Synced, RoleOf, Covers, Passed;
    AdvanceKeepsStage(row.grants, k, k.stage.seen);
    if Savable(row, k) {
      AdvanceKeepsEvidence(row.grants, q, k, k.stage.seen);
    }
  }

  lemma FailedKeepsOk(row: Row, q: Provider, k: Worker)
    requires WorkerOk(row, q, k) && k.Pass? && k.stage.Emitting? && k.version == row.version
    ensures WorkerOk(row, q, Advance(Failing(k), k.stage.seen))
  {
    hide Synced, RoleOf, Covers, Passed;
    AdvanceKeepsStage(row.grants, Failing(k), k.stage.seen);
    if Savable(row, k) {
      AdvanceKeepsEvidence(row.grants, q, Failing(k), k.stage.seen);
    }
  }

  /** A saved cycle carries its evidence into the checkpoint, and only a complete one without failures publishes True. */
  lemma SaveKeepsOk(row: Row, p: Provider, k: Worker)
    requires RowOk(row, p) && WorkerOk(row, p, k) && k.Pass?
    ensures var saved := SaveIdentityScanCycle(row, k.version, k.generation, k.revision, k.current);
            saved.Ok? ==> RowOk(saved.value, p)
  {
    hide Synced, StageOk, SeenOk, Passed;
  }

  lemma StopKeepsOk(row: Row, p: Provider, k: Worker)
    requires WorkerOk(row, p, k)
    ensures k.Pass? ==> WorkerOk(row, p, k.(stage := Committing))
  {
    hide Evidence, Covers;
  }

  lemma RowWriteKeepsOk(row: Row, p: Provider, k: Worker, spec: bool)
    requires RowOk(row, p) && WorkerOk(row, p, k)
    ensures var t := row.(generation := row.generation + (if spec then 1 else 0), revision := row.revision + 1);
            RowOk(t, p) && WorkerOk(t, p, k)
  {
    hide Evidence, StageOk, AllSynced;
  }

  lemma StepKeepsInv(s: State, a: Action)
    requires Inv(s) && !a.LateWrite?
    ensures Inv(Apply(s, a))
  {
    var k := s.worker;
    hide RowOk, Evidence, PassEvidence, StageOk, Covers, IsPage, RoleOf, HasLive;
    match a
    case GrantCreate(_, _, _) => GrantWriteKeepsInv(s, a);
    case GrantDelete(_) => GrantWriteKeepsInv(s, a);
    case Load => if k == Idle { LoadKeepsOk(s.row, s.provider); }
    case ReadPage(ids, more) =>
      if k.Pass? && k.stage == Reading { ReadPageKeepsOk(s.row, s.provider, k, ids, more); }
    case ReadUser(ok, stop) =>
      if k.Pass? && k.stage.Emitting? && k.stage.call == None && k.stage.items != [] && k.stage.items[0] in s.row.grants {
        ReadUserKeepsOk(s.row, s.provider, k, ok, stop);
      }
    case Write(ok, left, stop) =>
      if k.Pass? && k.stage.Emitting? && k.stage.call.Some? && k.stage.items != [] && k.stage.items[0] in s.row.grants {
        WriteKeepsOk(s.row, s.provider, k, ok, left, stop);
      }
    case EndPage => if k.Pass? && k.stage.Paged? { EndPageKeepsOk(s.row, s.provider, k); }
    case Stop => StopKeepsOk(s.row, s.provider, k);
    case Save(_) => if k.Pass? { SaveKeepsOk(s.row, s.provider, k); }
    case SpecUpdate => RowWriteKeepsOk(s.row, s.provider, k, true);
    case Touch => RowWriteKeepsOk(s.row, s.provider, k, false);
    case Crash =>
  }

  /* ---------- late writes ---------- */

  predicate Granted(g: map<GrantId, Grant>, u: User) {
    exists id :: id in g && g[id].user == u
  }

  /** The scan that the checkpoint resumes will not write this user again. */
  predicate StoredSkips(row: Row, u: User) {
    row.cycle.source == Some(row.generation) && Claims(row.grants, row.cycle, u)
  }

  /** The pass under way will not write this user again before it saves. */
  predicate PassSkips(s: State, u: User) {
    var g, k := s.row.grants, s.worker;
    && Savable(s.row, k)
    && (|| Claims(g, k.current, u)
        || (k.stage.Emitting? && !k.current.failed && Skipped(g, k.stage.items, k.stage.seen, k.stage.call, u)))
  }

  /** Something vouches for this user: what is published, the checkpoint, or a pass that can still save. */
  predicate Relied(s: State, u: User) {
    Granted(s.row.grants, u) && (Published(s) || StoredSkips(s.row, u) || PassSkips(s, u))
  }

  /** A lost write may land while nothing relies on its user, or when it says what the grants say now. */
  predicate Harmless(s: State, u: User, role: Role) {
    role == RoleOf(s.row.grants, u) || !Relied(s, u)
  }

  /** Every other user is as it was. */
  lemma OthersSynced(g: map<GrantId, Grant>, p: Provider, u: User, role: Role)
    ensures forall v :: v != u ==> (Synced(g, p[u := role], v) <==> Synced(g, p, v))
    ensures Synced(g, p[u := role], u) <==> role == RoleOf(g, u)
  {
    hide RoleOf;
  }

  lemma HarmlessKeepsInv(s: State, u: User, role: Role)
    requires Inv(s) && Harmless(s, u, role)
    ensures Inv(s.(provider := s.provider[u := role]))
  {
    hide RoleOf, Covers, Claims, Skipped;
    OthersSynced(s.row.grants, s.provider, u, role);
    if role == RoleOf(s.row.grants, u) {
      assert Keeps(s.row.grants, s.provider, s.provider[u := role]);
      KeepsMonotone(s.row, s.provider, s.provider[u := role], s.worker);
      hide Keeps;
    }
    hide Synced, StageOk;
  }

  lemma BrokenInv(s: State, u: User, role: Role)
    requires Inv(s) && !Harmless(s, u, role)
    ensures !Inv(s.(provider := s.provider[u := role]))
  {
    hide RoleOf, Covers, Claims, Passed;
    OthersSynced(s.row.grants, s.provider, u, role);
    var id :| id in s.row.grants && s.row.grants[id].user == u;
    hide Synced;
  }

  /** Exactly the harmless late writes keep the evidence. */
  lemma LateWriteKeepsInvExactly(s: State, u: User, role: Role)
    requires Inv(s) && (u, role) in s.lost
    ensures Inv(Apply(s, LateWrite(u, role))) <==> Harmless(s, u, role)
  {
    hide RowOk, WorkerOk, Relied, RoleOf;
    if Harmless(s, u, role) {
      HarmlessKeepsInv(s, u, role);
    } else {
      BrokenInv(s, u, role);
    }
  }

  /** Every late write of a run lands harmlessly where it lands. */
  predicate Tame(s: State, actions: seq<Action>) {
    forall i :: 0 <= i < |actions| && actions[i].LateWrite? && (actions[i].user, actions[i].role) in Run(s, actions[..i]).lost ==>
      Harmless(Run(s, actions[..i]), actions[i].user, actions[i].role)
  }

  lemma TamePrefix(s: State, actions: seq<Action>, n: nat)
    requires Tame(s, actions) && n <= |actions|
    ensures Tame(s, actions[..n])
  {
    hide Run, Harmless;
    forall i | 0 <= i < n && actions[..n][i].LateWrite? && (actions[..n][i].user, actions[..n][i].role) in Run(s, actions[..n][..i]).lost
      ensures Harmless(Run(s, actions[..n][..i]), actions[..n][i].user, actions[..n][i].role)
    {
      assert actions[..n][..i] == actions[..i];
    }
  }

  lemma {:induction false} RunKeepsInv(s: State, actions: seq<Action>)
    requires Inv(s) && Tame(s, actions)
    ensures Inv(Run(s, actions))
    decreases |actions|
  {
    if actions != [] {
      var n := |actions| - 1;
      TamePrefix(s, actions, n);
      RunKeepsInv(s, actions[..n]);
      var t, a := Run(s, actions[..n]), actions[n];
      if a.LateWrite? {
        if (a.user, a.role) in t.lost {
          LateWriteKeepsInvExactly(t, a.user, a.role);
        }
      } else {
        StepKeepsInv(t, a);
      }
      hide Inv, WorkerStep, Harmless;
    }
  }

  /**
   On every run whose late writes, if any, land harmlessly, a published condition
   means that every user ever granted has exactly the role computed from the
   stored grants.
   */
  lemma PublishedMeansSynced(id: GrantId, owner: User, actions: seq<Action>)
    requires id >= 1 && Tame(Init(id, owner), actions)
    requires Published(Run(Init(id, owner), actions))
    ensures var s := Run(Init(id, owner), actions);
            forall g :: g in s.row.grants ==> ProviderRole(s.provider, s.row.grants[g].user) == RoleOf(s.row.grants, s.row.grants[g].user)
  {
    InitInv(id, owner);
    RunKeepsInv(Init(id, owner), actions);
    hide Run, RoleOf, Tame;
  }
}
