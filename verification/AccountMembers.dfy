/**
 What the calls of a run alone say of account cleanup: which items there are, how
 the membership revision counts them, and which inventory a completion rests on.
 */
module AccountMembers {
  import opened Common
  import opened GatewayRecord
  import opened ScanCycle
  import opened AccountCleanup

  /* ---------- membership ---------- */

  lemma StepDeletes(s: State, a: Action)
    ensures Apply(s, a).world.store.row.deleted <==> s.world.store.row.deleted || a == UserDelete
  {
    hide ConsoleProven, PageStep, LoadStep;
  }

  lemma {:induction false} DeletedExactlyWhenAsked(cluster: Cluster, actions: seq<Action>)
    ensures Run(Init(cluster), actions).world.store.row.deleted <==> UserDelete in actions
    decreases |actions|
  {
    if actions != [] {
      var n := |actions| - 1;
      DeletedExactlyWhenAsked(cluster, actions[..n]);
      StepDeletes(Run(Init(cluster), actions[..n]), actions[n]);
      assert actions == actions[..n] + [actions[n]];
      hide Apply;
    }
  }

  /** The save of an account row or journal key that brings an item in. */
  predicate Joins(s: State, a: Action, x: nat) {
    match a
    case AddAccount(id) => x == AccountItem(id) && !s.world.store.row.deleted
    case SaveJournal(id, cleanup) => x == JournalItem(id) && (cleanup || !s.world.store.row.deleted) && !s.world.scope.sealed
    case _ => false
  }

  /** Items never leave, and a step adds exactly the item that it saves. */
  lemma StepItems(s: State, a: Action, x: nat)
    ensures x in Apply(s, a).world.items <==> x in s.world.items || Joins(s, a, x)
  {
    hide RecordCleanup, PageStep, LoadStep;
  }

  ghost predicate Joined(cluster: Cluster, actions: seq<Action>, x: nat) {
    exists k :: 0 <= k < |actions| && Joins(Run(Init(cluster), actions[..k]), actions[k], x)
  }

  lemma JoinedNext(cluster: Cluster, actions: seq<Action>, a: Action, x: nat)
    ensures Joined(cluster, actions + [a], x) <==> Joined(cluster, actions, x) || Joins(Run(Init(cluster), actions), a, x)
  {
    hide Joins, Run;
    var all := actions + [a];
    forall k | 0 <= k < |actions|
      ensures all[..k] == actions[..k] && all[k] == actions[k]
    {}
    assert all[..|actions|] == actions && all[|actions|] == a;
  }

  /** The items of a run are exactly those whose save was let in. */
  lemma {:induction false} ItemsFollowSaves(cluster: Cluster, actions: seq<Action>, x: nat)
    ensures x in Run(Init(cluster), actions).world.items <==> Joined(cluster, actions, x)
    decreases |actions|
  {
    if actions != [] {
      var n := |actions| - 1;
      ItemsFollowSaves(cluster, actions[..n], x);
      StepItems(Run(Init(cluster), actions[..n]), actions[n], x);
      JoinedNext(cluster, actions[..n], actions[n], x);
      assert actions == actions[..n] + [actions[n]];
      hide Apply, Joins, Joined;
    }
  }

  /** An account is to be cleaned exactly if it was added before the Gateway was deleted. */
  lemma AccountsFollowCalls(cluster: Cluster, actions: seq<Action>, id: Id)
    ensures AccountItem(id) in Run(Init(cluster), actions).world.items <==>
            exists k :: 0 <= k < |actions| && actions[k] == AddAccount(id) && UserDelete !in actions[..k]
  {
    ItemsFollowSaves(cluster, actions, AccountItem(id));
    forall k | 0 <= k < |actions|
      ensures Joins(Run(Init(cluster), actions[..k]), actions[k], AccountItem(id)) <==> actions[k] == AddAccount(id) && UserDelete !in actions[..k]
    {
      DeletedExactlyWhenAsked(cluster, actions[..k]);
    }
    hide Run, Joins;
  }

  /** A journal is to be cleaned exactly if a save of it was permitted while the scope was open. */
  lemma JournalsFollowCalls(cluster: Cluster, actions: seq<Action>, id: Id)
    ensures JournalItem(id) in Run(Init(cluster), actions).world.items <==>
            exists k :: 0 <= k < |actions| && actions[k].SaveJournal? && actions[k].id == id
              && (actions[k].cleanup || UserDelete !in actions[..k]) && !Run(Init(cluster), actions[..k]).world.scope.sealed
  {
    ItemsFollowSaves(cluster, actions, JournalItem(id));
    forall k | 0 <= k < |actions|
      ensures Joins(Run(Init(cluster), actions[..k]), actions[k], JournalItem(id)) <==>
              && actions[k].SaveJournal? && actions[k].id == id
              && (actions[k].cleanup || UserDelete !in actions[..k]) && !Run(Init(cluster), actions[..k]).world.scope.sealed
    {
      DeletedExactlyWhenAsked(cluster, actions[..k]);
    }
    hide Run, Joins;
  }

  /* ---------- the membership revision ---------- */

  function Journals(items: set<nat>): set<nat> {
    set x | x in items && x > LIMIT
  }

  predicate Counted(world: World) {
    world.scope.revision == |Journals(world.items)| + (if world.scope.sealed then 1 else 0)
  }

  lemma NewJournal(items: set<nat>, x: nat)
    requires x !in items
    ensures |Journals(items + {x})| == |Journals(items)| + (if x > LIMIT then 1 else 0)
    ensures Journals(items + {x}) == if x > LIMIT then Journals(items) + {x} else Journals(items)
  {
    assert Journals(items + {x}) == if x > LIMIT then Journals(items) + {x} else Journals(items);
  }

  lemma StepCounts(s: State, a: Action)
    requires Counted(s.world)
    ensures Counted(Apply(s, a).world)
  {
    hide RecordCleanup, PageStep, LoadStep, Journals;
    match a
    case AddAccount(id) =>
      assert s.world.items + {AccountItem(id)} == s.world.items || AccountItem(id) !in s.world.items;
      if AccountItem(id) !in s.world.items { NewJournal(s.world.items, AccountItem(id)); }
    case SaveJournal(id, _) => if JournalItem(id) !in s.world.items { NewJournal(s.world.items, JournalItem(id)); }
    case _ =>
  }

  /** The revision counts the journal keys that ever joined, and the seal. */
  lemma {:induction false} RevisionCountsJournals(cluster: Cluster, actions: seq<Action>)
    ensures Counted(Run(Init(cluster), actions).world)
    decreases |actions|
  {
    if actions != [] {
      RevisionCountsJournals(cluster, actions[..|actions| - 1]);
      StepCounts(Run(Init(cluster), actions[..|actions| - 1]), actions[|actions| - 1]);
      hide Apply, Counted;
    } else {
      assert Journals({}) == {};
    }
  }

  /* ---------- the inventory ---------- */

  /** Some worker found the provider inventory clean, without an error, and later closed its pass. */
  ghost predicate Inventoried(actions: seq<Action>, w: WorkerId) {
    exists k :: 0 <= k < |actions| && actions[k] == Inventory(w, true, false)
  }

  ghost predicate Vouched(actions: seq<Action>, s: State) {
    && (forall w :: w in s.workers && s.workers[w].Deciding? && s.workers[w].complete ==> Inventoried(actions, w))
    && (s.world.store.row.done.accounts ==> exists w, k :: 0 <= k < |actions| && actions[k] == Finish(w, true) && Inventoried(actions[..k], w))
  }

  lemma InventoriedGrows(actions: seq<Action>, a: Action, w: WorkerId)
    requires Inventoried(actions, w)
    ensures Inventoried(actions + [a], w)
  {
    var k :| 0 <= k < |actions| && actions[k] == Inventory(w, true, false);
    assert (actions + [a])[k] == actions[k];
  }

  /** Only a clean inventory lets a worker decide for completion, and only its own closing transaction records one. */
  lemma StepDecides(s: State, a: Action)
    ensures var t := Apply(s, a);
            && (forall w :: w in t.workers && t.workers[w].Deciding? && t.workers[w].complete ==>
                  a == Inventory(w, true, false) || (w in s.workers && s.workers[w].Deciding? && s.workers[w].complete))
            && (t.world.store.row.done.accounts && !s.world.store.row.done.accounts ==>
                  a.Finish? && a.effect && a.w in s.workers && s.workers[a.w].Deciding? && s.workers[a.w].complete)
  {
    forall w | w in Apply(s, a).workers && Apply(s, a).workers[w].Deciding? && Apply(s, a).workers[w].complete
      ensures a == Inventory(w, true, false) || (w in s.workers && s.workers[w].Deciding? && s.workers[w].complete)
    {
      WorkerDecides(s, a, w);
    }
    hide ConsoleProven, PageStep, LoadStep;
  }

  lemma WorkerDecides(s: State, a: Action, w: WorkerId)
    requires w in Apply(s, a).workers && Apply(s, a).workers[w].Deciding? && Apply(s, a).workers[w].complete
    ensures a == Inventory(w, true, false) || (w in s.workers && s.workers[w].Deciding? && s.workers[w].complete)
  {
    hide WorldStep, FinishStep, IsPage, Accepted, AnyFailed, CleanedBy;
    match a
    case Inventory(v, clean, failed) =>
    case _ =>
  }

  lemma VouchedStep(actions: seq<Action>, s: State, a: Action)
    requires Vouched(actions, s)
    ensures Vouched(actions + [a], Apply(s, a))
  {
    StepDecides(s, a);
    hide Apply;
    var t, all := Apply(s, a), actions + [a];
    hide Inventoried;
    forall w | w in t.workers && t.workers[w].Deciding? && t.workers[w].complete
      ensures Inventoried(all, w)
    {
      if a == Inventory(w, true, false) {
        Recorded(actions, w);
      } else {
        InventoriedGrows(actions, a, w);
      }
    }
    if t.world.store.row.done.accounts {
      if s.world.store.row.done.accounts {
        var w, k :| 0 <= k < |actions| && actions[k] == Finish(w, true) && Inventoried(actions[..k], w);
        assert all[k] == Finish(w, true) && all[..k] == actions[..k];
      } else {
        assert all[|actions|] == Finish(a.w, true) && all[..|actions|] == actions;
      }
    }
  }

  lemma Recorded(actions: seq<Action>, w: WorkerId)
    ensures Inventoried(actions + [Inventory(w, true, false)], w)
  {
    assert (actions + [Inventory(w, true, false)])[|actions|] == Inventory(w, true, false);
  }

  lemma {:induction false} RunVouched(cluster: Cluster, actions: seq<Action>)
    ensures Vouched(actions, Run(Init(cluster), actions))
    decreases |actions|
  {
    if actions != [] {
      var n := |actions| - 1;
      RunVouched(cluster, actions[..n]);
      VouchedStep(actions[..n], Run(Init(cluster), actions[..n]), actions[n]);
      assert actions == actions[..n] + [actions[n]];
      hide Vouched, Apply;
    } else {
      NobodyVouched(cluster);
      hide Vouched;
    }
  }

  lemma NobodyVouched(cluster: Cluster)
    ensures Vouched([], Init(cluster))
  {}

  /** A complete observation was recorded by a worker that had found the inventory clean; an unclean one never leads to completion. */
  lemma CompleteNeedsCleanInventory(cluster: Cluster, actions: seq<Action>)
    requires Run(Init(cluster), actions).world.store.row.done.accounts
    ensures exists w, k, j :: 0 <= j < k < |actions| && actions[j] == Inventory(w, true, false) && actions[k] == Finish(w, true)
  {
    RunVouched(cluster, actions);
    hide Run;
    var w, k :| 0 <= k < |actions| && actions[k] == Finish(w, true) && Inventoried(actions[..k], w);
    var j :| 0 <= j < k && actions[..k][j] == Inventory(w, true, false);
    assert actions[j] == Inventory(w, true, false);
  }

  /* ---------- the checkpoint and the other parties ---------- */

  /** Only a save moves the checkpoint, to the next version, and it never drops the failure of an unfinished cycle of the same source. */
  lemma StepMovesCheckpoint(s: State, a: Action)
    ensures var before, after := s.world.checkpoint, Apply(s, a).world.checkpoint;
            after != before ==>
              && a.SaveProgress? && a.effect
              && after.version == before.version + 1
              && (before.cycle.source == after.cycle.source && before.cycle.source.Some? && !before.cycle.complete && before.cycle.failed ==> after.cycle.failed)
  {
    hide RecordCleanup, PageStep, LoadStep;
  }

  /** A crash ends one worker and a start begins one, and neither touches the world. */
  lemma WorkersComeAndGo(s: State, w: WorkerId)
    ensures var t := Apply(s, Crash(w)); t.world == s.world && t.workers == s.workers - {w}
    ensures var t := Apply(s, Start(w));
            && t.world == s.world
            && t.workers == if s.world.store.row.deleted && w !in s.workers
                            then s.workers[w := Opened(s.world.store.row.version, s.world.store.row.done.accounts)] else s.workers
  {}

  /** An observation of another owner that the row accepts. */
  predicate OthersDue(s: Store, owner: Owner, target: Option<Cluster>, complete: bool) {
    && owner != Accounts && s.row.version >= 1 && s.row.deleted
    && target == (if owner == Identity then None else Some(s.row.cluster))
    && (owner == Sql && complete ==> ConsoleProven(s))
  }

  /** The other owners' observations reach the row, and leave accounts, items, scope and checkpoint alone. */
  lemma OthersObserve(s: State, owner: Owner, target: Option<Cluster>, complete: bool)
    ensures var t, row := Apply(s, Observe(owner, target, complete)), s.world.store.row;
            && t.workers == s.workers && t.world == s.world.(store := t.world.store)
            && t.world.store.row.done.accounts == row.done.accounts
            && (OthersDue(s.world.store, owner, target, complete) ==> Has(t.world.store.row.done, owner) == complete)
  {
    CleanupAccepted(s.world.store, s.world.store.row.version, owner, target, complete);
    if RecordCleanup(s.world.store, s.world.store.row.version, owner, target, complete).Ok? {
      CleanupOutcome(s.world.store, s.world.store.row.version, owner, target, complete);
      assert Has(s.world.store.row.done, Accounts) == s.world.store.row.done.accounts;
    }
    hide RecordCleanup, ConsoleProven;
  }

  /** What the inventory decides: completion exactly if it was clean, and an error exactly if it failed. */
  lemma InventoryDecides(s: State, w: WorkerId, clean: bool, failed: bool)
    requires w in s.workers && s.workers[w].Listing?
    ensures var t := Apply(s, Inventory(w, clean, failed));
            && t.world == s.world && w in t.workers && t.workers[w].Deciding?
            && t.workers[w].read == s.workers[w].read && t.workers[w].cleaned == s.workers[w].cleaned
            && (t.workers[w].complete <==> clean && !failed) && (t.workers[w].error <==> failed)
  {}
}
