/**
 One recovery of the accounts of a deleted Gateway as it runs: reads, one page of
 deletes, the checkpoint, the inventory and the closing transaction. `Calls` says
 what its calls come to; an execution is the run of AccountCleanup with just these.
 */
module AccountWorker {
  import opened ScanCycle
  import opened AccountCleanup
  import AccountStore

  /** The page that storage returns, how its items end, and how the save, the inventory and the closing transaction go. */
  datatype Calls = Calls(
    page: seq<nat>, more: bool, outcomes: seq<Outcome>, interrupted: bool,
    saved: bool, replied: bool, clean: bool, broken: bool, reached: bool)

  /** The steps of one recovery; the inventory is a step of the protocol only for a scan that came to it. */
  function Recovery(w: WorkerId, calls: Calls): seq<Action> {
    [Start(w), ReadScope(w), LoadCheckpoint(w), Page(w, calls.page, calls.more, calls.outcomes, calls.interrupted),
     SaveProgress(w, calls.saved, calls.replied), Inventory(w, calls.clean, calls.broken), Finish(w, calls.reached)]
  }

  ghost function Reached(start: State, w: WorkerId, calls: Calls, n: nat): State
    requires n <= 7
  {
    Run(start, Recovery(w, calls)[..n])
  }

  lemma ReachedNext(start: State, w: WorkerId, calls: Calls, n: nat)
    requires n < 7
    ensures Reached(start, w, calls, n + 1) == Apply(Reached(start, w, calls, n), Recovery(w, calls)[n])
    ensures Reached(start, w, calls, 0) == start
  {
    hide Apply;
    RunSnoc(start, Recovery(w, calls)[..n], Recovery(w, calls)[n]);
    assert Recovery(w, calls)[..n + 1] == Recovery(w, calls)[..n] + [Recovery(w, calls)[n]];
  }

  lemma OneWorker(w: WorkerId, k: Worker, t: Worker)
    ensures map[w := k][w := t] == map[w := t]
  {}

  class Recoverer {
    var world: World

    constructor (w: World)
      ensures world == w
    {
      world := w;
    }

    /** This worker alone; the machine admits any number beside it. */
    ghost function At(w: WorkerId, k: Worker): State
      reads this
    {
      State(world, map[w := k])
    }

    ghost function Alone(): State
      reads this
    {
      State(world, map[])
    }

    /** Only a deleted Gateway is recovered; the result tells whether completion was committed. */
    method RecoverGatewayCleanup(calls: Calls, ghost w: WorkerId) returns (complete: bool)
      modifies this
      ensures old(world).store.row.deleted ==> Run(old(Alone()), Recovery(w, calls)) == Alone()
      ensures !old(world).store.row.deleted ==> world == old(world) && !complete
      ensures complete ==> world.store.row.done.accounts && world.scope.sealed && calls.clean && !calls.broken && calls.reached
    {
      ghost var start := Alone();
      hide Run, WorldStep, PageStep, LoadStep, SaveStep, FinishStep, Reached;
      complete := false;
      if !world.store.row.deleted {
        return;
      }
      var read := Open(calls, w, start);
      var clean, error, cleaned := Scan(read, calls, w, start);
      complete := Conclude(read, cleaned, clean, error, calls, w, start);
      assert Run(start, Recovery(w, calls)) == Reached(start, w, calls, 7) by { AllSteps(start, w, calls); }
    }

    /** The Gateway row first, then the membership of the journal scope. */
    method Open(calls: Calls, ghost w: WorkerId, ghost start: State) returns (read: Read)
      requires start == Alone() && world.store.row.deleted
      ensures read == Read(world.store.row.version, world.store.row.done.accounts, world.scope)
      ensures Reached(start, w, calls, 2) == At(w, Scoped(read))
    {
      hide Reached, WorldStep, PageStep, LoadStep, SaveStep, FinishStep;
      ReachedNext(start, w, calls, 0);
      ReachedNext(start, w, calls, 1);
      var version, prior := world.store.row.version, world.store.row.done.accounts;
      assert Reached(start, w, calls, 1) == At(w, Opened(version, prior));
      read := Read(version, prior, world.scope);
      OneWorker(w, Opened(version, prior), Scoped(read));
    }

    /** The scan cycle of one call: at most one page, then a conditional save. */
    method Scan(read: Read, calls: Calls, ghost w: WorkerId, ghost start: State)
      returns (clean: bool, error: bool, cleaned: set<nat>)
      requires Reached(start, w, calls, 2) == At(w, Scoped(read))
      modifies this
      ensures clean ==> !error
      ensures Reached(start, w, calls, 5) == At(w, if clean then Listing(read, cleaned) else Deciding(read, cleaned, false, error))
    {
      hide Reached, PageStep, SaveStep, WorldStep, FinishStep;
      ReachedNext(start, w, calls, 2);
      var loaded, saved := world.checkpoint.cycle, world.checkpoint.version;
      var current := Resume(loaded, read.scope.revision);
      cleaned := if current == loaded then world.checkpoint.cleaned else {};
      OneWorker(w, Scoped(read), Scanning(read, saved, loaded, current, cleaned));
      current, cleaned, error := CleanPage(read, saved, loaded, current, cleaned, calls, w, start);
      clean, error := SaveCycle(read, saved, loaded, current, cleaned, error, calls, w, start);
    }

    /** Validate one page as a whole, delete its items, and collect how each of them ended. */
    method CleanPage(read: Read, saved: nat, loaded: Cycle<nat>, before: Cycle<nat>, done: set<nat>, calls: Calls, ghost w: WorkerId, ghost start: State)
      returns (current: Cycle<nat>, cleaned: set<nat>, error: bool)
      requires Reached(start, w, calls, 3) == At(w, Scanning(read, saved, loaded, before, done))
      ensures Reached(start, w, calls, 4) == At(w, Saving(read, saved, loaded, current, cleaned, error))
      ensures if IsPage(world.items, before.after, calls.page, calls.more, PAGE_SIZE) && |calls.page| == |calls.outcomes| then
                && Passed(before, current, calls.page, calls.more, calls.outcomes, calls.interrupted)
                && cleaned == done + CleanedBy(calls.page, calls.outcomes)
                && (error <==> current.failed || calls.interrupted)
              else current == before && cleaned == done && error
    {
      hide Reached, Passed, IsPage, Accepted, AnyFailed, CleanedBy, WorldStep, SaveStep, LoadStep, FinishStep;
      current, cleaned, error := before, done, true;
      ReachedNext(start, w, calls, 3);
      if IsPage(world.items, current.after, calls.page, calls.more, PAGE_SIZE) && |calls.page| == |calls.outcomes| {
        var n, failed, deleted := AccountStore.CollectPage(calls.page, calls.outcomes);
        var whole := n == |calls.page| && !calls.interrupted;
        current := current.(failed := current.failed || failed, complete := whole && !calls.more);
        if n > 0 {
          current := current.(after := calls.page[n - 1]);
        }
        cleaned := cleaned + deleted;
        error := current.failed || calls.interrupted;
        PageOutcome(before, calls.page, calls.more, calls.outcomes, calls.interrupted);
      }
      OneWorker(w, Scanning(read, saved, loaded, before, done), Saving(read, saved, loaded, current, cleaned, error));
    }

    /** An unchanged cycle is not saved; a refused or unconfirmed save is an error. */
    method SaveCycle(read: Read, saved: nat, loaded: Cycle<nat>, current: Cycle<nat>, cleaned: set<nat>, failed: bool, calls: Calls, ghost w: WorkerId, ghost start: State)
      returns (clean: bool, error: bool)
      requires Reached(start, w, calls, 4) == At(w, Saving(read, saved, loaded, current, cleaned, failed))
      modifies this
      ensures var stored := calls.saved && old(world).store.row.deleted && old(world).checkpoint.version == saved && ValidTransition(old(world).checkpoint.cycle, current);
              && world == (if current != loaded && stored then old(world).(checkpoint := Checkpoint(saved + 1, current, cleaned)) else old(world))
              && (error <==> failed || (current != loaded && !(stored && calls.replied)))
      ensures clean <==> !error && current.complete
      ensures Reached(start, w, calls, 5) == At(w, if clean then Listing(read, cleaned) else Deciding(read, cleaned, false, error))
    {
      hide Reached, WorldStep, PageStep, LoadStep, FinishStep;
      ReachedNext(start, w, calls, 4);
      error := failed;
      if current != loaded {
        var stored := calls.saved && world.store.row.deleted && world.checkpoint.version == saved && ValidTransition(world.checkpoint.cycle, current);
        if stored {
          world := world.(checkpoint := Checkpoint(saved + 1, current, cleaned));
        }
        if !stored || !calls.replied {
          error := true;
        }
      }
      clean := !error && current.complete;
      OneWorker(w, Saving(read, saved, loaded, current, cleaned, failed),
                if clean then Listing(read, cleaned) else Deciding(read, cleaned, false, error));
    }

    /** A clean complete scan looks at the inventory; then the transaction commits or leaves everything. */
    method Conclude(read: Read, cleaned: set<nat>, scanned: bool, failed: bool, calls: Calls, ghost w: WorkerId, ghost start: State)
      returns (complete: bool)
      requires Reached(start, w, calls, 5) == At(w, if scanned then Listing(read, cleaned) else Deciding(read, cleaned, false, failed))
      modifies this
      ensures Reached(start, w, calls, 7) == Alone()
      ensures complete ==> world.store.row.done.accounts && world.scope.sealed && scanned && calls.clean && !calls.broken && calls.reached
    {
      hide Reached, WorldStep, PageStep, LoadStep, SaveStep, FinishStep;
      ReachedNext(start, w, calls, 5);
      ReachedNext(start, w, calls, 6);
      var clean, error := scanned, failed;
      if scanned {
        clean, error := calls.clean && !calls.broken, calls.broken;
        OneWorker(w, Listing(read, cleaned), Deciding(read, cleaned, clean, error));
      }
      var k := Deciding(read, cleaned, clean, error);
      assert Reached(start, w, calls, 6) == At(w, k);
      assert map[w := k] - {w} == map[];
      complete := false;
      if calls.reached {
        var committed := Close(k);
        complete := committed && clean;
      }
    }

    /** Seal and record in one transaction. */
    method Close(k: Worker) returns (committed: bool)
      requires k.Deciding?
      modifies this
      ensures world == FinishStep(old(world), k)
      ensures committed && k.complete ==> world.scope.sealed && world.store.row.done.accounts
    {
      var scope := new AccountStore.JournalScope(0);
      scope.world := world;
      committed := scope.Finish(k);
      world := scope.world;
    }
  }

  lemma AllSteps(start: State, w: WorkerId, calls: Calls)
    ensures Run(start, Recovery(w, calls)) == Reached(start, w, calls, 7)
  {
    assert Recovery(w, calls)[..7] == Recovery(w, calls);
  }
}
