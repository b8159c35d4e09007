/**
 Cleanup of the service accounts of one Gateway: any number of workers scan the
 retained account rows and then the provider journals, check the provider
 inventory, and in one transaction seal the journal scope and record completion.
 Journal saves and other observations run at any time between their steps.
 */
module AccountCleanup {
  import opened Common
  import opened GatewayRecord
  import opened ScanCycle

  type WorkerId = nat

  /** Identifiers are 20-byte KSUIDs; the cursor puts every account row before every journal. */
  const LIMIT: nat := 0x1_0000_0000_0000_0000_0000_0000_0000_0000_0000_0000

  type Id = x: nat | x < LIMIT

  const PAGE_SIZE: nat := 100

  function AccountItem(id: Id): nat {
    1 + id
  }

  function JournalItem(id: Id): nat {
    1 + LIMIT + id
  }

  /** Each new journal key raises the revision, and so does sealing. */
  datatype Scope = Scope(revision: nat, sealed: bool)

  /** `cleaned` names the items whose provider delete succeeded within the saved cycle. */
  datatype Checkpoint = Checkpoint(version: nat, cycle: Cycle<nat>, cleaned: set<nat>)

  /** The pass behind the last complete observation: the revision it named and what it deleted. */
  datatype Proof = Proof(revision: nat, cleaned: set<nat>)

  datatype World = World(store: Store, items: set<nat>, scope: Scope, checkpoint: Checkpoint, proof: Proof)

  /** How the action on one page item ended; only a Continued failure lets the cursor pass. */
  datatype Outcome = Succeeded | Continued | Stopped | NotRun

  /** What a worker read first: the row revision, its accounts observation, and the scope. */
  datatype Read = Read(version: nat, prior: bool, scope: Scope)

  datatype Worker =
    | Opened(version: nat, prior: bool)
    | Scoped(read: Read)
    | Scanning(read: Read, saved: nat, loaded: Cycle<nat>, current: Cycle<nat>, cleaned: set<nat>)
    | Saving(read: Read, saved: nat, loaded: Cycle<nat>, current: Cycle<nat>, cleaned: set<nat>, error: bool)
    | Listing(read: Read, cleaned: set<nat>)
    | Deciding(read: Read, cleaned: set<nat>, complete: bool, error: bool)

  datatype State = State(world: World, workers: map<WorkerId, Worker>)

  datatype Action =
    | AddAccount(id: Id)
    | SaveJournal(id: Id, cleanup: bool)
    | UserDelete
    | Observe(owner: Owner, target: Option<Cluster>, complete: bool)
    | Start(w: WorkerId)
    | ReadScope(w: WorkerId)
    | LoadCheckpoint(w: WorkerId)
    | Page(w: WorkerId, page: seq<nat>, more: bool, outcomes: seq<Outcome>, interrupted: bool)
    | SaveProgress(w: WorkerId, effect: bool, reply: bool)
    | Inventory(w: WorkerId, clean: bool, failed: bool)
    | Finish(w: WorkerId, effect: bool)
    | Crash(w: WorkerId)

  function Init(cluster: Cluster): State {
    State(World(Created(cluster), {}, Scope(0, false), Checkpoint(0, Empty(), {}), Proof(0, {})), map[])
  }

  /* ---------- the journal scope ---------- */

  function SaveResourceState(world: World, key: nat): Result<World, Error> {
    if key in world.items then Ok(world)
    else if world.scope.sealed then Err(StateConflict)
    else Ok(world.(items := world.items + {key}, scope := world.scope.(revision := world.scope.revision + 1)))
  }

  function Seal(scope: Scope, expected: nat): Result<Scope, Error> {
    if scope.revision != expected then Err(StateConflict)
    else if scope.sealed then Ok(scope)
    else Ok(Scope(expected + 1, true))
  }

  /* ---------- one page ---------- */

  /** The contiguous prefix of items that the page action accepted. */
  function Accepted(outcomes: seq<Outcome>): (n: nat)
    ensures n <= |outcomes|
    ensures forall i :: 0 <= i < n ==> outcomes[i] == Succeeded || outcomes[i] == Continued
    ensures n < |outcomes| ==> outcomes[n] == Stopped || outcomes[n] == NotRun
  {
    if outcomes == [] || outcomes[0] == Stopped || outcomes[0] == NotRun then 0
    else
      var n := Accepted(outcomes[1..]);
      assert forall i :: 1 <= i < n + 1 ==> outcomes[i] == outcomes[1..][i - 1];
      1 + n
  }

  predicate AnyFailed(outcomes: seq<Outcome>) {
    exists i :: 0 <= i < |outcomes| && (outcomes[i] == Continued || outcomes[i] == Stopped)
  }

  function CleanedBy(page: seq<nat>, outcomes: seq<Outcome>): set<nat>
    requires |page| == |outcomes|
  {
    set i | 0 <= i < |page| && outcomes[i] == Succeeded :: page[i]
  }

  /** One page of work: progress, sticky failure, completion only past the last page. */
  function AfterPage(c: Cycle<nat>, page: seq<nat>, more: bool, outcomes: seq<Outcome>, interrupted: bool): Cycle<nat>
    requires |page| == |outcomes|
  {
    var n := Accepted(outcomes);
    var whole := n == |page| && !interrupted;
    c.(after := if n > 0 then page[n - 1] else c.after,
       failed := c.failed || AnyFailed(outcomes),
       complete := whole && !more)
  }

  predicate IsAccepted(o: Outcome) {
    o == Succeeded || o == Continued
  }

  /** The first k items, and no more, are accepted without a gap. */
  predicate AcceptedTo(outcomes: seq<Outcome>, k: nat) {
    && k <= |outcomes|
    && (forall i :: 0 <= i < k ==> IsAccepted(outcomes[i]))
    && (k < |outcomes| ==> !IsAccepted(outcomes[k]))
  }

  /** What a page leaves of its cycle: the cursor at the last item of the accepted prefix, and the failures of all items. */
  predicate Passed(c: Cycle<nat>, t: Cycle<nat>, page: seq<nat>, more: bool, outcomes: seq<Outcome>, interrupted: bool)
    requires |page| == |outcomes|
  {
    && t.source == c.source
    && (forall k: nat :: 0 < k <= |page| && AcceptedTo(outcomes, k) ==> t.after == page[k - 1])
    && (AcceptedTo(outcomes, 0) ==> t.after == c.after)
    && (t.failed <==> c.failed || Continued in outcomes || Stopped in outcomes)
    && (t.complete <==> AcceptedTo(outcomes, |page|) && !interrupted && !more)
  }

  lemma PageOutcome(c: Cycle<nat>, page: seq<nat>, more: bool, outcomes: seq<Outcome>, interrupted: bool)
    requires |page| == |outcomes|
    ensures Passed(c, AfterPage(c, page, more, outcomes, interrupted), page, more, outcomes, interrupted)
  {
    forall k: nat | AcceptedTo(outcomes, k)
      ensures k == Accepted(outcomes)
    {
      var n := Accepted(outcomes);
      assert n < k ==> IsAccepted(outcomes[n]);
      assert k < n ==> !IsAccepted(outcomes[k]);
    }
    assert AcceptedTo(outcomes, Accepted(outcomes));
  }

  /** An item is deleted exactly when the action on it succeeded. */
  lemma CleanedExactly(page: seq<nat>, outcomes: seq<Outcome>, x: nat)
    requires |page| == |outcomes|
    ensures x in CleanedBy(page, outcomes) <==> exists i :: 0 <= i < |page| && page[i] == x && outcomes[i] == Succeeded
  {}

  /* ---------- the workers ---------- */

  function PageStep(world: World, k: Worker, page: seq<nat>, more: bool, outcomes: seq<Outcome>, interrupted: bool): Worker
    requires k.Scanning?
  {
    if !IsPage(world.items, k.current.after, page, more, PAGE_SIZE) || |page| != |outcomes| then
      Saving(k.read, k.saved, k.loaded, k.current, k.cleaned, true)
    else
      var c := AfterPage(k.current, page, more, outcomes, interrupted);
      Saving(k.read, k.saved, k.loaded, c, k.cleaned + CleanedBy(page, outcomes), c.failed || interrupted)
  }

  function LoadStep(world: World, read: Read): Worker {
    var cp := world.checkpoint;
    var current := Resume(cp.cycle, read.scope.revision);
    Scanning(read, cp.version, cp.cycle, current, if current == cp.cycle then cp.cleaned else {})
  }

  predicate CanSave(world: World, k: Worker)
    requires k.Saving?
  {
    world.store.row.deleted && world.checkpoint.version == k.saved && ValidTransition(world.checkpoint.cycle, k.current)
  }

  /** An unchanged cycle is not written. A pass goes on to the inventory only if it completed cleanly and was saved. */
  function SaveStep(world: World, k: Worker, effect: bool, reply: bool): (World, Worker)
    requires k.Saving?
  {
    var same := k.current == k.loaded;
    var stored := !same && effect && CanSave(world, k);
    var error := k.error || (!same && !(stored && reply));
    (if stored then world.(checkpoint := Checkpoint(k.saved + 1, k.current, k.cleaned)) else world,
     if !error && k.current.complete then Listing(k.read, k.cleaned) else Deciding(k.read, k.cleaned, false, error))
  }

  /** Sealing and recording share one transaction; either refusal undoes both. */
  function FinishStep(world: World, k: Worker): World
    requires k.Deciding?
  {
    if !k.complete && !k.error && k.read.scope.sealed && k.read.prior then world
    else
      var sealed := if k.complete then Seal(world.scope, k.read.scope.revision) else Ok(world.scope);
      var recorded := RecordCleanup(world.store, k.read.version, Accounts, None, k.complete);
      if sealed.Err? || recorded.Err? then world
      else
        world.(store := recorded.value, scope := sealed.value,
               proof := if k.complete then Proof(k.read.scope.revision, k.cleaned) else world.proof)
  }

  function WorldStep(world: World, a: Action): World {
    match a
    case AddAccount(id) => if world.store.row.deleted then world else world.(items := world.items + {AccountItem(id)})
    case SaveJournal(id, cleanup) =>
      if world.store.row.deleted && !cleanup then world
      else
        var saved := SaveResourceState(world, JournalItem(id));
        if saved.Ok? then saved.value else world
    case UserDelete => world.(store := DeleteGateway(world.store))
    case Observe(owner, target, complete) =>
      var recorded := RecordCleanup(world.store, world.store.row.version, owner, target, complete);
      if owner != Accounts && recorded.Ok? then world.(store := recorded.value) else world
    case _ => world
  }

  function Apply(s: State, a: Action): State {
    match a
    case Start(w) =>
      if s.world.store.row.deleted && w !in s.workers then
        s.(workers := s.workers[w := Opened(s.world.store.row.version, s.world.store.row.done.accounts)])
      else s
    case ReadScope(w) =>
      if w in s.workers && s.workers[w].Opened? then
        s.(workers := s.workers[w := Scoped(Read(s.workers[w].version, s.workers[w].prior, s.world.scope))])
      else s
    case LoadCheckpoint(w) =>
      if w in s.workers && s.workers[w].Scoped? then s.(workers := s.workers[w := LoadStep(s.world, s.workers[w].read)]) else s
    case Page(w, page, more, outcomes, interrupted) =>
      if w in s.workers && s.workers[w].Scanning? then
        s.(workers := s.workers[w := PageStep(s.world, s.workers[w], page, more, outcomes, interrupted)])
      else s
    case SaveProgress(w, effect, reply) =>
      if w in s.workers && s.workers[w].Saving? then
        var (t, k) := SaveStep(s.world, s.workers[w], effect, reply);
        State(t, s.workers[w := k])
      else s
    case Inventory(w, clean, failed) =>
      if w in s.workers && s.workers[w].Listing? then
        s.(workers := s.workers[w := Deciding(s.workers[w].read, s.workers[w].cleaned, clean && !failed, failed)])
      else s
    case Finish(w, effect) =>
      if w in s.workers && s.workers[w].Deciding? then
        State(if effect then FinishStep(s.world, s.workers[w]) else s.world, s.workers - {w})
      else s
    case Crash(w) => s.(workers := s.workers - {w})
    case _ => s.(world := WorldStep(s.world, a))
  }

  function Run(s: State, actions: seq<Action>): State
    decreases |actions|
  {
    if actions == [] then s else Apply(Run(s, actions[..|actions| - 1]), actions[|actions| - 1])
  }

  lemma RunSnoc(s: State, actions: seq<Action>, a: Action)
    ensures Run(s, actions + [a]) == Apply(Run(s, actions), a)
  {
    hide Apply;
    assert (actions + [a])[..|actions|] == actions;
  }

  lemma {:induction false} RunSplits(s: State, before: seq<Action>, after: seq<Action>)
    ensures Run(s, before + after) == Run(Run(s, before), after)
    decreases |after|
  {
    if after == [] {
      assert before + after == before;
    } else {
      var n := |after| - 1;
      assert (before + after)[..|before| + n] == before + after[..n];
      hide Apply;
      RunSplits(s, before, after[..n]);
    }
  }

  /* ---------- what the workers keep ---------- */

  /** A cycle without a failure has deleted everything up to its cursor, and everything when complete. */
  predicate Evidence(items: set<nat>, c: Cycle<nat>, cleaned: set<nat>) {
    !c.failed ==> (forall x :: x in items && x <= c.after ==> x in cleaned) && (c.complete ==> items <= cleaned)
  }

  /** Evidence of an older membership revision is worth nothing, and is never asked for again. */
  predicate Current(world: World, revision: nat, c: Cycle<nat>, cleaned: set<nat>) {
    && revision <= world.scope.revision
    && (revision == world.scope.revision ==> Evidence(world.items, c, cleaned))
  }

  predicate WorldOk(world: World) {
    var c := world.checkpoint.cycle;
    && (0 !in world.items) && world.store.row.version >= 1
    && (c.source.None? ==> world.checkpoint == Checkpoint(world.checkpoint.version, Empty(), {}))
    && (c.source.Some? ==> world.store.row.deleted && Current(world, c.source.value, c, world.checkpoint.cleaned))
    && (world.scope.sealed ==> world.store.row.deleted)
    && (world.store.row.done.accounts ==>
          && world.store.row.deleted && world.scope.sealed
          && world.items <= world.proof.cleaned
          && (world.scope.revision == world.proof.revision || world.scope.revision == world.proof.revision + 1))
  }

  predicate WorkerOk(world: World, k: Worker) {
    && world.store.row.deleted
    && match k
       case Opened(_, _) => true
       case Scoped(read) => read.scope.revision <= world.scope.revision
       case Scanning(read, _, _, c, cleaned) =>
         c.source == Some(read.scope.revision) && !c.complete && Current(world, read.scope.revision, c, cleaned)
       case Saving(read, _, _, c, cleaned, error) =>
         c.source == Some(read.scope.revision) && (c.failed ==> error) && Current(world, read.scope.revision, c, cleaned)
       case Listing(read, cleaned) =>
         read.scope.revision <= world.scope.revision && (read.scope.revision == world.scope.revision ==> world.items <= cleaned)
       case Deciding(read, cleaned, complete, _) =>
         read.scope.revision <= world.scope.revision && (complete && read.scope.revision == world.scope.revision ==> world.items <= cleaned)
  }

  predicate WorkersOk(world: World, workers: map<WorkerId, Worker>) {
    forall w :: w in workers ==> WorkerOk(world, workers[w])
  }

  predicate Inv(s: State) {
    WorldOk(s.world) && WorkersOk(s.world, s.workers)
  }

  /** A change that keeps the items, or leaves every earlier revision behind. */
  predicate Harmless(world: World, t: World) {
    && (world.store.row.deleted ==> t.store.row.deleted)
    && world.scope.revision <= t.scope.revision
    && (t.scope.revision == world.scope.revision ==> t.items == world.items || !world.store.row.deleted)
  }

  lemma HarmlessKeepsWorkers(world: World, t: World, workers: map<WorkerId, Worker>)
    requires WorkersOk(world, workers) && Harmless(world, t)
    ensures WorkersOk(t, workers)
  {
    forall w | w in workers
      ensures WorkerOk(t, workers[w])
    {
      assert WorkerOk(world, workers[w]);
    }
  }

  lemma WorldStepKeepsInv(s: State, a: Action)
    requires Inv(s)
    ensures Inv(s.(world := WorldStep(s.world, a)))
  {
    assert WorldOk(WorldStep(s.world, a)) && Harmless(s.world, WorldStep(s.world, a)) by { hide WorkersOk; }
    hide WorldOk, WorldStep, WorkerOk;
    HarmlessKeepsWorkers(s.world, WorldStep(s.world, a), s.workers);
  }

  /** Without a failure, every item that the cursor has passed was deleted. */
  lemma PageEvidence(items: set<nat>, c: Cycle<nat>, cleaned: set<nat>, page: seq<nat>, more: bool, outcomes: seq<Outcome>, interrupted: bool)
    requires Evidence(items, c, cleaned) && !c.complete && Covers(items, c.after, page, more) && |page| == |outcomes|
    ensures Evidence(items, AfterPage(c, page, more, outcomes, interrupted), cleaned + CleanedBy(page, outcomes))
  {
    var t := AfterPage(c, page, more, outcomes, interrupted);
    var n := Accepted(outcomes);
    if !t.failed {
      assert forall i :: 0 <= i < n ==> outcomes[i] == Succeeded;
      forall x | x in items && (x <= t.after || t.complete)
        ensures x in cleaned + CleanedBy(page, outcomes)
      {
        if c.after < x && x in page {
          var i :| 0 <= i < |page| && page[i] == x;
          assert i < n;
          assert page[i] in CleanedBy(page, outcomes);
        }
      }
    }
  }

  lemma PageKeepsOk(world: World, k: Worker, page: seq<nat>, more: bool, outcomes: seq<Outcome>, interrupted: bool)
    requires WorkerOk(world, k) && k.Scanning?
    ensures WorkerOk(world, PageStep(world, k, page, more, outcomes, interrupted))
  {
    if IsPage(world.items, k.current.after, page, more, PAGE_SIZE) && |page| == |outcomes| {
      if k.read.scope.revision == world.scope.revision {
        PageEvidence(world.items, k.current, k.cleaned, page, more, outcomes, interrupted);
      }
    }
    hide Evidence, CleanedBy, AnyFailed, Covers;
  }

  lemma LoadKeepsOk(world: World, k: Worker)
    requires WorldOk(world) && WorkerOk(world, k) && k.Scoped?
    ensures WorkerOk(world, LoadStep(world, k.read))
  {}

  lemma SaveKeepsOk(world: World, k: Worker, effect: bool, reply: bool)
    requires WorldOk(world) && WorkerOk(world, k) && k.Saving?
    ensures var (t, k') := SaveStep(world, k, effect, reply); WorldOk(t) && WorkerOk(t, k') && Harmless(world, t)
  {}

  /** Only the revision that the pass named can be sealed with completion. */
  lemma FinishKeepsOk(world: World, k: Worker)
    requires WorldOk(world) && WorkerOk(world, k) && k.Deciding?
    ensures var t := FinishStep(world, k); WorldOk(t) && Harmless(world, t)
  {}

  lemma WorkerStepKeepsInv(s: State, t: World, k: Worker, w: WorkerId)
    requires Inv(s) && WorldOk(t) && Harmless(s.world, t) && WorkerOk(t, k)
    ensures Inv(State(t, s.workers[w := k]))
  {
    HarmlessKeepsWorkers(s.world, t, s.workers);
    hide WorldOk, WorkerOk;
  }

  lemma EndKeepsInv(s: State, t: World, w: WorkerId)
    requires Inv(s) && WorldOk(t) && Harmless(s.world, t)
    ensures Inv(State(t, s.workers - {w}))
  {
    HarmlessKeepsWorkers(s.world, t, s.workers);
    hide WorldOk, WorkerOk;
  }

  lemma StepKeepsInv(s: State, a: Action)
    requires Inv(s)
    ensures Inv(Apply(s, a))
  {
    var world := s.world;
    hide WorldOk, WorldStep, PageStep, LoadStep, SaveStep, FinishStep, IsPage;
    match a
    case Start(w) =>
      assert world.store.row.deleted ==> WorkerOk(world, Opened(world.store.row.version, world.store.row.done.accounts));
    case ReadScope(w) =>
      assert w in s.workers ==> WorkerOk(world, s.workers[w]);
    case LoadCheckpoint(w) =>
      if w in s.workers && s.workers[w].Scoped? {
        LoadKeepsOk(world, s.workers[w]);
        WorkerStepKeepsInv(s, world, LoadStep(world, s.workers[w].read), w);
      }
    case Page(w, page, more, outcomes, interrupted) =>
      if w in s.workers && s.workers[w].Scanning? {
        PageKeepsOk(world, s.workers[w], page, more, outcomes, interrupted);
        WorkerStepKeepsInv(s, world, PageStep(world, s.workers[w], page, more, outcomes, interrupted), w);
      }
    case SaveProgress(w, effect, reply) =>
      if w in s.workers && s.workers[w].Saving? {
        SaveKeepsOk(world, s.workers[w], effect, reply);
        var (t, k) := SaveStep(world, s.workers[w], effect, reply);
        WorkerStepKeepsInv(s, t, k, w);
      }
    case Inventory(w, clean, failed) =>
      assert w in s.workers ==> WorkerOk(world, s.workers[w]);
    case Finish(w, effect) =>
      if w in s.workers && s.workers[w].Deciding? {
        FinishKeepsOk(world, s.workers[w]);
        EndKeepsInv(s, if effect then FinishStep(world, s.workers[w]) else world, w);
      }
    case Crash(w) => EndKeepsInv(s, world, w);
    case _ => WorldStepKeepsInv(s, a);
  }

  lemma InitInv(cluster: Cluster)
    ensures Inv(Init(cluster))
  {}

  lemma {:induction false} RunKeepsInv(s: State, actions: seq<Action>)
    requires Inv(s)
    ensures Inv(Run(s, actions))
    decreases |actions|
  {
    if actions != [] {
      RunKeepsInv(s, actions[..|actions| - 1]);
      StepKeepsInv(Run(s, actions[..|actions| - 1]), actions[|actions| - 1]);
    }
  }

  /* ---------- what a complete observation means ---------- */

  /**
   On every run, while the accounts observation is complete, the journal scope is
   sealed at the revision that the finished pass named, and every retained account
   and every journal key was deleted at the provider in that pass.
   */
  lemma CompleteMeansCleaned(cluster: Cluster, actions: seq<Action>)
    requires Run(Init(cluster), actions).world.store.row.done.accounts
    ensures var world := Run(Init(cluster), actions).world;
            && world.scope.sealed
            && (world.scope.revision == world.proof.revision || world.scope.revision == world.proof.revision + 1)
            && (forall x :: x in world.items ==> x in world.proof.cleaned)
  {
    InitInv(cluster);
    RunKeepsInv(Init(cluster), actions);
    hide Run;
  }

  /** The commit itself, by whichever worker: it names the membership read before the scan, and no key joined since. */
  lemma CommitSealsNamedRevision(s: State, w: WorkerId)
    requires Inv(s) && w in s.workers && s.workers[w].Deciding? && s.workers[w].complete
    ensures var k, t := s.workers[w], Apply(s, Finish(w, true)).world;
            if s.world.scope.revision == k.read.scope.revision && s.world.store.row.version == k.read.version then
              && t.scope == Scope(k.read.scope.revision + (if s.world.scope.sealed then 0 else 1), true)
              && t.store.row.done.accounts
              && t.items == s.world.items && t.items <= k.cleaned
              && t.proof == Proof(k.read.scope.revision, k.cleaned)
            else t == s.world
  {
    assert WorkerOk(s.world, s.workers[w]);
  }

  /** A clean partial pass leaves an earlier sealed completion alone; a failed one withdraws it. */
  lemma OnlyFailureWithdraws(s: State, w: WorkerId)
    requires Inv(s) && w in s.workers && s.workers[w].Deciding? && !s.workers[w].complete
    requires s.world.store.row.done.accounts && s.world.store.row.version == s.workers[w].read.version
    requires s.workers[w].read.prior && s.workers[w].read.scope.sealed
    ensures Apply(s, Finish(w, true)).world.store.row.done.accounts <==> !s.workers[w].error
    ensures Apply(s, Finish(w, true)).world.scope == s.world.scope
  {}

  predicate Closed(world: World, t: World) {
    world.scope.sealed ==> t.scope == world.scope && t.items == world.items
  }

  lemma StepCloses(s: State, a: Action)
    requires WorldOk(s.world)
    ensures Closed(s.world, Apply(s, a).world)
  {}

  /** Once sealed, no account row or journal key ever joins, whatever runs. */
  lemma {:induction false} SealedScopeIsClosed(s: State, actions: seq<Action>)
    requires Inv(s)
    ensures Closed(s.world, Run(s, actions).world)
    decreases |actions|
  {
    if actions != [] {
      var before := Run(s, actions[..|actions| - 1]);
      SealedScopeIsClosed(s, actions[..|actions| - 1]);
      RunKeepsInv(s, actions[..|actions| - 1]);
      StepCloses(before, actions[|actions| - 1]);
      hide Apply, WorldOk, WorkersOk;
    }
  }
}
