/**
 Grant synchronisation: grant writes, spec changes and other row writes of one
 Gateway, against a paged resumable scan that pushes each user's computed role to
 the identity provider and then publishes `GrantsSynchronized`. One action is one
 transaction, one page or user read, one provider call, or a crash.
 */
module GrantSync {
  import opened Common
  import opened ScanCycle

  type User = nat
  type GrantId = nat

  datatype Role = NoRole | Viewer | Owner

  /** Deleted grants keep their row, so a later pass can remove provider access. */
  datatype Grant = Grant(user: User, role: Role, live: bool)

  datatype Reason = ObservationPending | GrantsChanged | GrantSyncIncomplete | GrantSyncComplete

  /** Only GrantSyncComplete publishes status True. */
  datatype Condition = Condition(reason: Reason, observed: nat)

  datatype Error = VersionConflict | CheckpointConflict | Invalid

  datatype Row = Row(grants: map<GrantId, Grant>, generation: nat, revision: nat, version: nat, cycle: Cycle<nat>, condition: Condition)

  type Provider = map<User, Role>

  datatype Stage =
    | Reading
    | Emitting(items: seq<GrantId>, more: bool, seen: set<User>, call: Option<Role>)
    | Paged(more: bool)
    | Committing

  datatype Worker =
    | Idle
    | Pass(version: nat, generation: nat, revision: nat, loaded: Cycle<nat>, current: Cycle<nat>, pages: nat, stage: Stage)

  /** `lost` holds the provider calls whose end the worker did not see. */
  datatype State = State(row: Row, provider: Provider, worker: Worker, lost: set<(User, Role)>)

  const PAGE_SIZE: nat := 100
  const MAX_PAGES: nat := 100

  datatype Action =
    | GrantCreate(id: GrantId, user: User, role: Role)
    | GrantDelete(id: GrantId)
    | SpecUpdate
    | Touch
    | Load
    | ReadPage(ids: seq<GrantId>, more: bool)
    | ReadUser(ok: bool, stop: bool)
    | Write(ok: bool, left: Role, stop: bool)
    | EndPage
    | Stop
    | Save(commits: bool)
    | Crash
    | LateWrite(user: User, role: Role)

  predicate HasLive(grants: map<GrantId, Grant>, u: User, r: Role) {
    exists id :: id in grants && grants[id] == Grant(u, r, true)
  }

  /** The union of a user's current grants: owner before viewer. */
  function RoleOf(grants: map<GrantId, Grant>, u: User): Role {
    if HasLive(grants, u, Owner) then Owner
    else if HasLive(grants, u, Viewer) then Viewer
    else NoRole
  }

  /** Owner wins over viewer, and only live grants of this user count. */
  lemma RoleIsUnion(grants: map<GrantId, Grant>, u: User)
    ensures RoleOf(grants, u) == Owner <==> exists id :: id in grants && grants[id] == Grant(u, Owner, true)
    ensures RoleOf(grants, u) == Viewer <==>
              && (forall id :: id in grants ==> grants[id] != Grant(u, Owner, true))
              && exists id :: id in grants && grants[id] == Grant(u, Viewer, true)
    ensures RoleOf(grants, u) == NoRole <==>
              forall id :: id in grants && grants[id].user == u && grants[id].live ==> grants[id].role == NoRole
  {
    forall id | id in grants && grants[id].user == u && grants[id].live
      ensures grants[id] == Grant(u, grants[id].role, true)
    {}
  }

  function ProviderRole(p: Provider, u: User): Role {
    if u in p then p[u] else NoRole
  }

  /* ---------- transactions ---------- */

  /** An equal current condition is not written again. */
  function WriteGrantCondition(row: Row, reason: Reason): Row {
    if row.condition == Condition(reason, row.generation) then row
    else row.(condition := Condition(reason, row.generation), revision := row.revision + 1)
  }

  /** The checkpoint keeps its version, so an older writer receives a conflict. */
  function ResetIdentityCycle(row: Row): Row {
    WriteGrantCondition(row.(version := row.version + 1, cycle := Empty()), GrantsChanged)
  }

  function CreateGrant(row: Row, id: GrantId, user: User, role: Role): Row {
    if id == 0 || id in row.grants || role == NoRole then row
    else ResetIdentityCycle(row.(grants := row.grants[id := Grant(user, role, true)]))
  }

  function DeleteGrant(row: Row, id: GrantId): Row {
    if id !in row.grants || !row.grants[id].live then row
    else ResetIdentityCycle(row.(grants := row.grants[id := row.grants[id].(live := false)]))
  }

  function SaveIdentityScanCycle(row: Row, version: nat, generation: nat, revision: nat, cycle: Cycle<nat>): Result<Row, Error> {
    if revision < 1 then Err(VersionConflict)
    else if cycle.source != Some(generation) || generation < 1 then Err(Invalid)
    else if row.generation != generation || row.revision != revision then Err(VersionConflict)
    else if row.version != version then Err(CheckpointConflict)
    else if !ValidTransition(row.cycle, cycle) then Err(Invalid)
    else if row.cycle.source == cycle.source && !row.cycle.complete && cycle.after < row.cycle.after then Err(Invalid)
    else if cycle.after != 0 && cycle.after !in row.grants then Err(Invalid)
    else
      var saved := row.(version := version + 1, cycle := cycle);
      if !cycle.failed && !cycle.complete then Ok(saved)
      else Ok(WriteGrantCondition(saved, if cycle.failed then GrantSyncIncomplete else GrantSyncComplete))
  }

  /* ---------- the scan ---------- */

  /** A result of an older generation is hidden, not deleted. */
  function LoadPass(row: Row): Worker {
    var loaded := if row.cycle.source == Some(row.generation) then row.cycle else Empty();
    Pass(row.version, row.generation, row.revision, loaded, Resume(loaded, row.generation), 0, Reading)
  }

  /** The end of a page, unless the deadline stops the pass before it: only past the last page is the cycle complete. */
  function PageDone(k: Worker, more: bool): Worker
    requires k.Pass?
  {
    if !more then k.(current := k.current.(complete := true), stage := Committing)
    else if k.pages >= MAX_PAGES then k.(stage := Committing)
    else k.(stage := Reading)
  }

  /** The cursor follows the last item whose action ended the item. */
  function Advance(k: Worker, seen: set<User>): Worker
    requires k.Pass? && k.stage.Emitting? && k.stage.items != []
  {
    var next := k.(current := k.current.(after := k.stage.items[0]));
    if |k.stage.items| == 1 then next.(stage := Paged(k.stage.more))
    else next.(stage := Emitting(k.stage.items[1..], k.stage.more, seen, None))
  }

  function Failing(k: Worker): Worker
    requires k.Pass?
  {
    k.(current := k.current.(failed := true))
  }

  /** An error that makes later work unsafe ends the pass at the failed item. */
  function Abandon(k: Worker): Worker
    requires k.Pass?
  {
    k.(current := k.current.(failed := true), stage := Committing)
  }

  function ReadPageStep(row: Row, k: Worker, ids: seq<GrantId>, more: bool): Worker
    requires k.Pass?
  {
    var read := k.(pages := k.pages + 1);
    if !IsPage(row.grants.Keys, k.current.after, ids, more, PAGE_SIZE) then k.(stage := Committing)
    else if ids == [] then read.(stage := Paged(more))
    else read.(stage := Emitting(ids, more, {}, None))
  }

  function ReadUserStep(row: Row, k: Worker, ok: bool, stop: bool): Worker
    requires k.Pass? && k.stage.Emitting? && k.stage.items != [] && k.stage.items[0] in row.grants
  {
    var u := row.grants[k.stage.items[0]].user;
    if u in k.stage.seen then Advance(k, k.stage.seen)
    else if ok then k.(stage := k.stage.(seen := k.stage.seen + {u}, call := Some(RoleOf(row.grants, u))))
    else if stop then Abandon(k)
    else Advance(Failing(k), k.stage.seen + {u})
  }

  /** A failed call leaves an already correct role alone and may leave any other role as `left`. */
  function ProviderAfter(p: Provider, u: User, role: Role, ok: bool, left: Role): Provider {
    if ok then p[u := role]
    else if ProviderRole(p, u) == role then p
    else p[u := left]
  }

  function WriteStep(k: Worker, ok: bool, stop: bool): Worker
    requires k.Pass? && k.stage.Emitting? && k.stage.items != []
  {
    if ok then Advance(k, k.stage.seen)
    else if stop then Abandon(k)
    else Advance(Failing(k), k.stage.seen)
  }

  function WorkerStep(s: State, a: Action): State {
    var k := s.worker;
    match a
    case Load => if k == Idle then s.(worker := LoadPass(s.row)) else s
    case ReadPage(ids, more) =>
      if k.Pass? && k.stage == Reading then s.(worker := ReadPageStep(s.row, k, ids, more)) else s
    case ReadUser(ok, stop) =>
      if k.Pass? && k.stage.Emitting? && k.stage.call == None && k.stage.items != [] && k.stage.items[0] in s.row.grants then
        s.(worker := ReadUserStep(s.row, k, ok, stop))
      else s
    case Write(ok, left, stop) =>
      if k.Pass? && k.stage.Emitting? && k.stage.call.Some? && k.stage.items != [] && k.stage.items[0] in s.row.grants then
        var u := s.row.grants[k.stage.items[0]].user;
        State(s.row, ProviderAfter(s.provider, u, k.stage.call.value, ok, left), WriteStep(k, ok, stop),
              if ok then s.lost else s.lost + {(u, k.stage.call.value)})
      else s
    case EndPage => if k.Pass? && k.stage.Paged? then s.(worker := PageDone(k, k.stage.more)) else s
    case Stop =>
      if k.Pass? && (k.stage.Emitting? ==> k.stage.call == None) then s.(worker := k.(stage := Committing)) else s
    case Save(commits) =>
      if !(k.Pass? && k.stage == Committing) then s
      else if k.current == k.loaded || !commits then s.(worker := Idle)
      else
        var saved := SaveIdentityScanCycle(s.row, k.version, k.generation, k.revision, k.current);
        s.(row := if saved.Ok? then saved.value else s.row, worker := Idle)
    case Crash =>
      var abandoned :=
        if k.Pass? && k.stage.Emitting? && k.stage.call.Some? && k.stage.items != [] && k.stage.items[0] in s.row.grants then
          {(s.row.grants[k.stage.items[0]].user, k.stage.call.value)}
        else {};
      s.(worker := Idle, lost := s.lost + abandoned)
    case _ => s
  }

  function Apply(s: State, a: Action): State {
    match a
    case GrantCreate(id, user, role) => s.(row := CreateGrant(s.row, id, user, role))
    case GrantDelete(id) => s.(row := DeleteGrant(s.row, id))
    case SpecUpdate => s.(row := s.row.(generation := s.row.generation + 1, revision := s.row.revision + 1))
    case Touch => s.(row := s.row.(revision := s.row.revision + 1))
    case LateWrite(user, role) =>
      if (user, role) in s.lost then s.(provider := s.provider[user := role], lost := s.lost - {(user, role)}) else s
    case _ => WorkerStep(s, a)
  }

  function Run(s: State, actions: seq<Action>): State
    decreases |actions|
  {
    if actions == [] then s else Apply(Run(s, actions[..|actions| - 1]), actions[|actions| - 1])
  }

  /** A new Gateway holds the grant of its first owner and no checkpoint. */
  function Init(id: GrantId, owner: User): State
    requires id >= 1
  {
    State(Row(map[id := Grant(owner, Owner, true)], 1, 1, 0, Empty(), Condition(ObservationPending, 0)), map[], Idle, {})
  }

  lemma RunSnoc(s: State, actions: seq<Action>, a: Action)
    ensures Run(s, actions + [a]) == Apply(Run(s, actions), a)
  {
    hide Apply;
    assert (actions + [a])[..|actions|] == actions;
  }

  lemma {:induction false} RunSplits(s: State, before: seq<Action>, after: seq<Action>)
    ensures Run(s, before + after) == Run(Run(s, before), after)
    decreases |after|
  {
    if after == [] {
      assert before + after == before;
    } else {
      var n := |after| - 1;
      assert (before + after)[..|before| + n] == before + after[..n];
      hide Apply;
      RunSplits(s, before, after[..n]);
    }
  }

  /* ---------- what is published ---------- */

  predicate Synced(g: map<GrantId, Grant>, p: Provider, u: User) {
    ProviderRole(p, u) == RoleOf(g, u)
  }

  /** Every user ever granted has exactly the computed role. */
  predicate AllSynced(g: map<GrantId, Grant>, p: Provider) {
    forall id :: id in g ==> Synced(g, p, g[id].user)
  }

  /** The condition is published as True. */
  predicate Published(s: State) {
    s.row.condition.reason == GrantSyncComplete
  }

  /** The save of this pass would be accepted by the stored revisions. */
  predicate Savable(row: Row, k: Worker) {
    k.Pass? && k.version == row.version && k.generation == row.generation && k.revision == row.revision
  }

  predicate NoLateWrite(actions: seq<Action>) {
    forall i :: 0 <= i < |actions| ==> !actions[i].LateWrite?
  }

  /** A committed save was made against the row and checkpoint it read, moves the cursor on, and keeps its cycle's failure. */
  lemma SaveNeverRegresses(row: Row, version: nat, generation: nat, revision: nat, cycle: Cycle<nat>)
    requires SaveIdentityScanCycle(row, version, generation, revision, cycle).Ok?
    ensures row.version == version && row.generation == generation && row.revision == revision
    ensures var t := SaveIdentityScanCycle(row, version, generation, revision, cycle).value;
            && t.version == row.version + 1 && t.grants == row.grants && t.cycle.source == Some(t.generation)
            && (row.cycle.source == t.cycle.source && !row.cycle.complete ==>
                  row.cycle.after <= t.cycle.after && (row.cycle.failed ==> t.cycle.failed))
            && (t.condition != row.condition ==> t.cycle.failed || t.cycle.complete)
            && (t.cycle.failed ==> t.condition == Condition(GrantSyncIncomplete, t.generation))
            && (t.cycle.complete && !t.cycle.failed ==> t.condition == Condition(GrantSyncComplete, t.generation))
  {}

  predicate Bounded(k: Worker) {
    k.Pass? ==> k.pages <= MAX_PAGES && (k.stage == Reading ==> k.pages < MAX_PAGES) && (k.stage.Emitting? ==> |k.stage.items| <= PAGE_SIZE)
  }

  /** One pass reads at most MAX_PAGES pages of at most PAGE_SIZE grants, whatever is granted meanwhile. */
  lemma {:induction false} PassIsBounded(id: GrantId, owner: User, actions: seq<Action>)
    requires id >= 1
    ensures Bounded(Run(Init(id, owner), actions).worker)
    decreases |actions|
  {
    if actions != [] {
      PassIsBounded(id, owner, actions[..|actions| - 1]);
      hide Covers, RoleOf, CreateGrant, DeleteGrant, SaveIdentityScanCycle, ProviderAfter;
    }
  }
}
