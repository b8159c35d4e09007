/** Where the evidence of account cleanup comes from: every item in it was deleted at the provider earlier in the run. */
module AccountHistory {
  import opened Common
  import opened ScanCycle
  import opened AccountCleanup

  /** In this step a worker of this membership revision deletes this item at the provider. */
  predicate Deletes(s: State, a: Action, revision: nat, x: nat) {
    && a.Page? && a.w in s.workers && s.workers[a.w].Scanning?
    && s.workers[a.w].read.scope.revision == revision
    && IsPage(s.world.items, s.workers[a.w].current.after, a.page, a.more, PAGE_SIZE)
    && |a.page| == |a.outcomes|
    && exists i :: 0 <= i < |a.page| && a.page[i] == x && a.outcomes[i] == Succeeded
  }

  ghost predicate Deleted(start: State, actions: seq<Action>, revision: nat, x: nat) {
    exists k :: 0 <= k < |actions| && Deletes(Run(start, actions[..k]), actions[k], revision, x)
  }

  ghost predicate AllDeleted(start: State, actions: seq<Action>, revision: nat, xs: set<nat>) {
    forall x :: x in xs ==> Deleted(start, actions, revision, x)
  }

  ghost predicate WorkerHistory(start: State, actions: seq<Action>, k: Worker) {
    !k.Opened? && !k.Scoped? ==> AllDeleted(start, actions, k.read.scope.revision, k.cleaned)
  }

  /** Workers, checkpoint and recorded proof hold only items deleted under their own revision. */
  ghost predicate History(start: State, actions: seq<Action>, s: State) {
    && AllDeleted(start, actions, s.world.proof.revision, s.world.proof.cleaned)
    && (s.world.checkpoint.cycle.source.Some? ==>
          AllDeleted(start, actions, s.world.checkpoint.cycle.source.value, s.world.checkpoint.cleaned))
    && (forall w :: w in s.workers ==> WorkerHistory(start, actions, s.workers[w]))
  }

  function CleanedOf(k: Worker): set<nat> {
    if k.Opened? || k.Scoped? then {} else k.cleaned
  }

  /** In any step an item joins a worker's evidence only by that worker's own successful delete, or with the checkpoint of the same revision. */
  lemma OnlyDeletesEnterEvidence(s: State, a: Action, w: WorkerId, x: nat)
    requires w in Apply(s, a).workers && x in CleanedOf(Apply(s, a).workers[w])
    requires w in s.workers ==> x !in CleanedOf(s.workers[w])
    ensures w in s.workers
    ensures || (a.Page? && a.w == w && s.workers[w].Scanning? && Deletes(s, a, s.workers[w].read.scope.revision, x))
            || (a == LoadCheckpoint(w) && s.workers[w].Scoped? && x in s.world.checkpoint.cleaned
                && s.world.checkpoint.cycle.source == Some(s.workers[w].read.scope.revision))
  {
    hide WorldStep, FinishStep, Accepted, AnyFailed, Covers;
  }

  lemma DeletedGrows(start: State, actions: seq<Action>, a: Action, revision: nat, x: nat)
    requires Deleted(start, actions, revision, x)
    ensures Deleted(start, actions + [a], revision, x)
  {
    hide Run, Deletes;
    var k :| 0 <= k < |actions| && Deletes(Run(start, actions[..k]), actions[k], revision, x);
    assert (actions + [a])[..k] == actions[..k] && (actions + [a])[k] == actions[k];
  }

  lemma DeletedNow(start: State, actions: seq<Action>, a: Action, revision: nat, x: nat)
    requires Deletes(Run(start, actions), a, revision, x)
    ensures Deleted(start, actions + [a], revision, x)
  {
    hide Run, Deletes;
    assert (actions + [a])[..|actions|] == actions && (actions + [a])[|actions|] == a;
  }

  lemma HistoryGrows(start: State, actions: seq<Action>, a: Action, s: State)
    requires History(start, actions, s)
    ensures History(start, actions + [a], s)
  {
    hide Deleted;
    forall revision: nat, x: nat | Deleted(start, actions, revision, x)
      ensures Deleted(start, actions + [a], revision, x)
    {
      DeletedGrows(start, actions, a, revision, x);
    }
  }

  /** A page adds exactly what it deleted. */
  lemma PageHistory(start: State, actions: seq<Action>, s: State, a: Action)
    requires s == Run(start, actions) && a.Page? && a.w in s.workers && s.workers[a.w].Scanning?
    requires WorkerHistory(start, actions + [a], s.workers[a.w])
    ensures WorkerHistory(start, actions + [a], PageStep(s.world, s.workers[a.w], a.page, a.more, a.outcomes, a.interrupted))
  {
    var k := s.workers[a.w];
    hide Run, Deleted, Accepted, AnyFailed;
    if IsPage(s.world.items, k.current.after, a.page, a.more, PAGE_SIZE) && |a.page| == |a.outcomes| {
      forall x | x in CleanedBy(a.page, a.outcomes)
        ensures Deleted(start, actions + [a], k.read.scope.revision, x)
      {
        DeletedNow(start, actions, a, k.read.scope.revision, x);
      }
    }
    hide IsPage, CleanedBy;
  }

  /** The other steps carry evidence between a worker, its checkpoint and the proof, under one revision. */
  lemma CarryHistory(start: State, actions: seq<Action>, s: State, a: Action)
    requires History(start, actions, s) && Inv(s) && !a.Page?
    ensures History(start, actions, Apply(s, a))
  {
    hide AllDeleted, PageStep, IsPage, Evidence;
    if a.SaveProgress? && a.w in s.workers {
      assert WorkerOk(s.world, s.workers[a.w]) && WorkerHistory(start, actions, s.workers[a.w]);
    } else if a.LoadCheckpoint? && a.w in s.workers && s.workers[a.w].Scoped? {
      LoadHistory(start, actions, s, s.workers[a.w].read);
    } else if (a.Finish? || a.Inventory?) && a.w in s.workers {
      assert WorkerHistory(start, actions, s.workers[a.w]);
    }
    hide WorldOk, WorkerOk, LoadStep;
  }

  lemma LoadHistory(start: State, actions: seq<Action>, s: State, read: Read)
    requires History(start, actions, s) && Inv(s)
    ensures WorkerHistory(start, actions, LoadStep(s.world, read))
  {
    hide Deleted, WorkerOk;
  }

  lemma HistoryStep(start: State, actions: seq<Action>, a: Action)
    requires History(start, actions, Run(start, actions)) && Inv(Run(start, actions))
    ensures History(start, actions + [a], Run(start, actions + [a]))
  {
    var s := Run(start, actions);
    RunSnoc(start, actions, a);
    HistoryGrows(start, actions, a, s);
    hide Run, AllDeleted, Inv;
    if a.Page? {
      if a.w in s.workers && s.workers[a.w].Scanning? {
        assert WorkerHistory(start, actions + [a], s.workers[a.w]);
        PageHistory(start, actions, s, a);
        hide WorkerHistory, PageStep;
      }
    } else {
      CarryHistory(start, actions, s, a);
      HistoryGrows(start, actions, a, Apply(s, a));
    }
  }

  lemma {:induction false} RunHistory(cluster: nat, actions: seq<Action>)
    ensures History(Init(cluster), actions, Run(Init(cluster), actions))
    decreases |actions|
  {
    if actions != [] {
      var before := actions[..|actions| - 1];
      RunHistory(cluster, before);
      InitInv(cluster);
      AccountCleanup.RunKeepsInv(Init(cluster), before);
      HistoryStep(Init(cluster), before, actions[|actions| - 1]);
      assert before + [actions[|actions| - 1]] == actions;
      hide History, Run, Inv;
    } else {
      NothingDeleted(cluster);
      hide History;
    }
  }

  lemma NothingDeleted(cluster: nat)
    ensures History(Init(cluster), [], Init(cluster))
  {}

  /**
   On every run, while the accounts observation is complete, every retained account
   and every journal key was deleted at the provider, successfully, by an earlier
   page of a scan at the membership revision that the completion named.
   */
  lemma CompleteMeansDeleted(cluster: nat, actions: seq<Action>, x: nat)
    requires var world := Run(Init(cluster), actions).world; world.store.row.done.accounts && x in world.items
    ensures Deleted(Init(cluster), actions, Run(Init(cluster), actions).world.proof.revision, x)
  {
    CompleteMeansCleaned(cluster, actions);
    RunHistory(cluster, actions);
    hide Run, Deleted;
  }
}
