/**
 Account cleanup always can complete: from every reachable deleted state, recoveries
 of one further worker without faults, one page each, commit a complete
 observation after a number of steps that the items bound.
 */
module AccountProgress {
  import opened Common
  import opened GatewayRecord
  import opened ScanCycle
  import opened AccountCleanup

  /* ---------- one fault-free recovery ---------- */

  function AllSucceed(n: nat): seq<Outcome> {
    seq(n, _ => Succeeded)
  }

  lemma AllAccepted(n: nat)
    ensures Accepted(AllSucceed(n)) == n && !AnyFailed(AllSucceed(n))
  {}

  function ReadOf(world: World): Read {
    Read(world.store.row.version, world.store.row.done.accounts, world.scope)
  }

  ghost function PageOf(world: World): (seq<nat>, bool) {
    NextPage(world.items, LoadStep(world, ReadOf(world)).current.after, PAGE_SIZE)
  }

  ghost function Scanned(world: World): Worker {
    var page := PageOf(world);
    PageStep(world, LoadStep(world, ReadOf(world)), page.0, page.1, AllSucceed(|page.0|), false)
  }

  ghost function Saved(world: World): (World, Worker) {
    SaveStep(world, Scanned(world), true, true)
  }

  /** The inventory of a recovery that reached it is clean. */
  function Listed(k: Worker): Worker {
    if k.Listing? then Deciding(k.read, k.cleaned, true, false) else k
  }

  ghost function Recovered(world: World): World {
    var saved := Saved(world);
    var k := Listed(saved.1);
    if k.Deciding? then FinishStep(saved.0, k) else saved.0
  }

  ghost function PageAction(world: World, w: WorkerId): Action {
    var page := PageOf(world);
    Page(w, page.0, page.1, AllSucceed(|page.0|), false)
  }

  predicate FaultFree(a: Action) {
    match a
    case Start(_) => true
    case ReadScope(_) => true
    case LoadCheckpoint(_) => true
    case Page(_, _, _, outcomes, interrupted) => !interrupted && forall i :: 0 <= i < |outcomes| ==> outcomes[i] == Succeeded
    case SaveProgress(_, effect, reply) => effect && reply
    case Inventory(_, clean, failed) => clean && !failed
    case Finish(_, effect) => effect
    case _ => false
  }

  /* ---------- the measure ---------- */

  function WorldUnits(world: World): nat {
    Units(world.items, Resume(world.checkpoint.cycle, world.scope.revision))
  }

  /** What a recovery finds unchanged when it ends. */
  predicate SameInputs(world: World, t: World) {
    t.items == world.items && t.scope == world.scope && t.store.row == world.store.row
  }

  predicate Ready(world: World) {
    WorldOk(world) && world.store.row.deleted && !world.store.row.done.accounts
  }

  /** One page moves the cursor past its items, or ends the source. */
  lemma ScannedMoves(world: World)
    requires Ready(world)
    ensures var c, k := LoadStep(world, ReadOf(world)).current, Scanned(world);
            && k.Saving? && k.read == ReadOf(world) && k.saved == world.checkpoint.version && k.loaded == world.checkpoint.cycle
            && k.current.source == Some(world.scope.revision) && k.current.failed == c.failed && k.error == c.failed
            && (if k.current.complete then true else Units(world.items, k.current) < Units(world.items, c) && k.current.after > c.after)
  {
    var page := PageOf(world);
    var c := LoadStep(world, ReadOf(world)).current;
    AllAccepted(|page.0|);
    if page.1 {
      FewerAfter(world.items, c.after, page.0[|page.0| - 1]);
    }
    hide After, WorldOk, Covers;
  }

  /** A clean complete page goes on to the inventory; any other result is in the checkpoint. */
  lemma SavedMoves(world: World)
    requires Ready(world)
    ensures var k, t := Scanned(world), Saved(world).0;
            && t == world.(checkpoint := t.checkpoint)
            && Saved(world).1 == (if k.current.complete && !k.error then Listing(k.read, k.cleaned) else Deciding(k.read, k.cleaned, false, k.error))
            && (!k.current.complete || k.error ==> t.checkpoint.cycle == k.current)
  {
    ScannedMoves(world);
    hide Scanned, Evidence, Units;
  }

  lemma PartialFinish(world: World, k: Worker)
    requires k.Deciding? && !k.complete && !world.store.row.done.accounts
    ensures FinishStep(world, k) == world.(store := FinishStep(world, k).store)
    ensures FinishStep(world, k).store.row == world.store.row
  {}

  lemma CompleteFinish(world: World, k: Worker)
    requires k.Deciding? && k.complete && k.read == ReadOf(world) && world.store.row.deleted && world.store.row.version >= 1
    ensures FinishStep(world, k).store.row.done.accounts
  {}

  /** What a stored result leaves to do. */
  lemma StoredUnits(world: World, t: World)
    requires Ready(world) && t == world.(checkpoint := t.checkpoint) && t.checkpoint.cycle == Scanned(world).current
    requires !Scanned(world).current.complete || Scanned(world).error
    ensures WorldUnits(t) < WorldUnits(world)
  {
    ScannedMoves(world);
    NoneBefore(world.items);
    hide After, Scanned, Evidence;
  }

  /** A recovery without faults completes the observation or leaves less to do, with nothing else changed. */
  lemma RecoveredMoves(world: World)
    requires Ready(world)
    ensures var t := Recovered(world);
            t.store.row.done.accounts || (SameInputs(world, t) && WorldUnits(t) < WorldUnits(world))
  {
    SavedMoves(world);
    ScannedMoves(world);
    var k := Scanned(world);
    if k.current.complete && !k.error {
      CompleteFinish(Saved(world).0, Listed(Saved(world).1));
    } else {
      StoredUnits(world, Saved(world).0);
      PartialFinish(Saved(world).0, Listed(Saved(world).1));
    }
    hide Scanned, Saved, FinishStep, Units, Evidence;
  }

  /* ---------- from every reachable state ---------- */

  predicate Clean(actions: seq<Action>) {
    forall i :: 0 <= i < |actions| ==> FaultFree(actions[i])
  }

  lemma Extend(s: State, actions: seq<Action>, a: Action)
    requires Clean(actions) && FaultFree(a)
    ensures Clean(actions + [a]) && Run(s, actions + [a]) == Apply(Run(s, actions), a)
  {
    RunSnoc(s, actions, a);
    hide Apply, FaultFree;
  }

  /** One worker acts; the map of workers changes at its name only. */
  lemma Replaced(workers: map<WorkerId, Worker>, w: WorkerId, k: Worker, t: Worker)
    ensures workers[w := k][w := t] == workers[w := t]
    ensures w !in workers ==> workers[w := k] - {w} == workers
  {}

  lemma ReadsAct(world: World, workers: map<WorkerId, Worker>, w: WorkerId)
    requires world.store.row.deleted && w !in workers
    ensures Apply(Apply(State(world, workers), Start(w)), ReadScope(w)) == State(world, workers[w := Scoped(ReadOf(world))])
  {
    hide WorldStep;
    Replaced(workers, w, Opened(ReadOf(world).version, ReadOf(world).prior), Scoped(ReadOf(world)));
  }

  lemma LoadActs(world: World, workers: map<WorkerId, Worker>, w: WorkerId)
    ensures Apply(State(world, workers[w := Scoped(ReadOf(world))]), LoadCheckpoint(w)) ==
            State(world, workers[w := LoadStep(world, ReadOf(world))])
  {
    hide WorldStep, LoadStep;
    Replaced(workers, w, Scoped(ReadOf(world)), LoadStep(world, ReadOf(world)));
  }

  lemma PageActs(world: World, workers: map<WorkerId, Worker>, w: WorkerId)
    ensures Apply(State(world, workers[w := LoadStep(world, ReadOf(world))]), PageAction(world, w)) == State(world, workers[w := Scanned(world)])
  {
    LoadScans(world, ReadOf(world));
    hide WorldStep, LoadStep, PageStep, PageOf;
    Replaced(workers, w, LoadStep(world, ReadOf(world)), Scanned(world));
  }

  /** The reads of a new worker and its page. */
  lemma ScanRuns(s: State, w: WorkerId) returns (actions: seq<Action>)
    requires s.world.store.row.deleted && w !in s.workers
    ensures Clean(actions) && |actions| == 4
    ensures Run(s, actions) == State(s.world, s.workers[w := Scanned(s.world)])
  {
    assert Run(s, []) == s && Clean([]);
    assert FaultFree(Start(w)) && FaultFree(ReadScope(w)) && FaultFree(LoadCheckpoint(w));
    PageIsClean(s.world, w);
    hide Run, Clean, Apply, FaultFree, PageAction, Scanned;
    Extend(s, [], Start(w));
    actions := [] + [Start(w)];
    Extend(s, actions, ReadScope(w));
    actions := actions + [ReadScope(w)];
    ReadsAct(s.world, s.workers, w);
    Extend(s, actions, LoadCheckpoint(w));
    actions := actions + [LoadCheckpoint(w)];
    LoadActs(s.world, s.workers, w);
    Extend(s, actions, PageAction(s.world, w));
    actions := actions + [PageAction(s.world, w)];
    PageActs(s.world, s.workers, w);
  }

  lemma LoadScans(world: World, read: Read)
    ensures LoadStep(world, read).Scanning?
  {}

  lemma PageIsClean(world: World, w: WorkerId)
    ensures FaultFree(PageAction(world, w))
  {
    hide PageOf;
  }

  lemma SaveActs(world: World, workers: map<WorkerId, Worker>, w: WorkerId)
    requires Scanned(world).Saving?
    ensures Apply(State(world, workers[w := Scanned(world)]), SaveProgress(w, true, true)) == State(Saved(world).0, workers[w := Saved(world).1])
  {
    hide SaveStep, Scanned, WorldStep;
    Replaced(workers, w, Scanned(world), Saved(world).1);
  }

  lemma ListActs(world: World, workers: map<WorkerId, Worker>, w: WorkerId, k: Worker)
    requires k.Listing?
    ensures Apply(State(world, workers[w := k]), Inventory(w, true, false)) == State(world, workers[w := Listed(k)])
  {
    hide WorldStep;
    Replaced(workers, w, k, Listed(k));
  }

  lemma FinishActs(world: World, workers: map<WorkerId, Worker>, w: WorkerId, k: Worker)
    requires k.Deciding? && w !in workers
    ensures Apply(State(world, workers[w := k]), Finish(w, true)) == State(FinishStep(world, k), workers)
  {
    hide WorldStep, FinishStep;
    Replaced(workers, w, k, k);
  }

  lemma ScanAndSaveRuns(s: State, w: WorkerId) returns (actions: seq<Action>)
    requires Ready(s.world) && w !in s.workers
    ensures Clean(actions) && |actions| == 5
    ensures Run(s, actions) == State(Saved(s.world).0, s.workers[w := Saved(s.world).1])
  {
    assert Scanned(s.world).Saving? by { ScannedMoves(s.world); }
    actions := ScanRuns(s, w);
    SaveActs(s.world, s.workers, w);
    hide *;
    assert FaultFree(SaveProgress(w, true, true)) by { SaveIsClean(w); }
    Extend(s, actions, SaveProgress(w, true, true));
    actions := actions + [SaveProgress(w, true, true)];
  }

  lemma SaveIsClean(w: WorkerId)
    ensures FaultFree(SaveProgress(w, true, true)) && FaultFree(Inventory(w, true, false)) && FaultFree(Finish(w, true))
  {}

  /** From the saved page to the end of the recovery. */
  lemma CloseRuns(s: State, before: seq<Action>, world: World, k: Worker, w: WorkerId) returns (actions: seq<Action>)
    requires Clean(before) && w !in s.workers && (k.Listing? || k.Deciding?)
    requires Run(s, before) == State(world, s.workers[w := k])
    ensures Clean(actions) && |actions| <= |before| + 2
    ensures Run(s, actions) == State(FinishStep(world, Listed(k)), s.workers)
  {
    actions := before;
    SaveIsClean(w);
    FinishActs(world, s.workers, w, Listed(k));
    hide Run, Clean, FinishStep, Apply, FaultFree;
    if k.Listing? {
      ListActs(world, s.workers, w, k);
      Extend(s, actions, Inventory(w, true, false));
      actions := actions + [Inventory(w, true, false)];
    }
    Extend(s, actions, Finish(w, true));
    actions := actions + [Finish(w, true)];
  }

  /** One recovery by a new worker is a run of the protocol that ends with the recovered world. */
  lemma RecoveryRuns(s: State, w: WorkerId) returns (actions: seq<Action>)
    requires Ready(s.world) && w !in s.workers
    ensures Clean(actions) && |actions| <= 7
    ensures Run(s, actions) == State(Recovered(s.world), s.workers)
  {
    SavedMoves(s.world);
    var k := Saved(s.world).1;
    assert k.Listing? || k.Deciding? by { hide Saved, Scanned; }
    assert Recovered(s.world) == FinishStep(Saved(s.world).0, Listed(k)) by { hide Saved, FinishStep; }
    hide Run, Clean, FinishStep, Saved, Scanned, Ready, Units, Apply, Recovered, Listed;
    actions := ScanAndSaveRuns(s, w);
    actions := CloseRuns(s, actions, Saved(s.world).0, k, w);
  }

  lemma {:induction false} NewWorker(workers: map<WorkerId, Worker>) returns (w: WorkerId)
    ensures forall v :: v in workers ==> v < w
    decreases |workers|
  {
    w := 0;
    if |workers| > 0 {
      var some :| some in workers;
      var rest := workers - {some};
      assert rest.Keys == workers.Keys - {some};
      w := NewWorker(rest);
      w := if some < w then w else some + 1;
      forall v | v in workers
        ensures v < w
      {
        assert v == some || v in rest;
      }
    }
  }

  lemma {:induction false} RecoveriesComplete(s: State) returns (rest: seq<Action>)
    requires Inv(s) && s.world.store.row.deleted
    ensures Clean(rest) && Run(s, rest).world.store.row.done.accounts
    ensures |rest| <= 7 * WorldUnits(s.world)
    decreases WorldUnits(s.world)
  {
    rest := [];
    if !s.world.store.row.done.accounts {
      var w := NewWorker(s.workers);
      rest := RecoveryRuns(s, w);
      RecoveredMoves(s.world);
      AccountCleanup.RunKeepsInv(s, rest);
      hide Run, Recovered, WorldOk, WorkersOk, Units, FaultFree;
      var t := Run(s, rest);
      if t.world.store.row.done.accounts {
        OneUnit(s.world);
      } else {
        var more := RecoveriesComplete(t);
        RunSplits(s, rest, more);
        rest := rest + more;
      }
    }
  }

  lemma OneUnit(world: World)
    ensures WorldUnits(world) >= 1
  {
    hide After;
  }

  lemma UnitsBound(world: World)
    ensures WorldUnits(world) <= 2 * |world.items| + 2
  {
    AfterBound(world.items, Resume(world.checkpoint.cycle, world.scope.revision).after);
    hide After;
  }

  /**
   However a run began, once the Gateway is deleted a bounded number of fault-free
   steps commits a complete accounts observation.
   */
  lemma CleanupCanComplete(cluster: Cluster, actions: seq<Action>)
    requires Run(Init(cluster), actions).world.store.row.deleted
    ensures exists rest: seq<Action> ::
              && |rest| <= 14 * |Run(Init(cluster), actions).world.items| + 14
              && Clean(rest)
              && Run(Init(cluster), actions + rest).world.store.row.done.accounts
  {
    InitInv(cluster);
    AccountCleanup.RunKeepsInv(Init(cluster), actions);
    var s := Run(Init(cluster), actions);
    var rest := RecoveriesComplete(s);
    UnitsBound(s.world);
    RunSplits(Init(cluster), actions, rest);
    hide Run, Inv, WorldUnits, Clean;
  }
}
