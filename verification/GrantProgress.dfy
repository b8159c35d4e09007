/**
 Grant synchronisation always can publish: whatever has happened before, a
 fault-free run of the worker alone, bounded by the number of grants, ends with a
 condition published at the current generation.
 */
module GrantProgress {
  import opened Common
  import opened ScanCycle
  import opened GrantSync

  /* ---------- what links a pass to the row it will save to ---------- */

  predicate RowLinked(row: Row) {
    var c := row.cycle;
    && row.generation >= 1 && row.revision >= 1
    && (0 !in row.grants)
    && (c.source.None? ==> c == Empty<nat>())
    && (c.source.Some? ==> c.source.value <= row.generation)
    && (c.after == 0 || c.after in row.grants)
    && (c.source.Some? && c.complete && !c.failed ==> row.condition == Condition(GrantSyncComplete, c.source.value))
  }

  /** A pass goes on from the checkpoint it loaded: the cursor only advances and a failure stays. */
  predicate Continues(stored: Cycle<nat>, generation: nat, loaded: Cycle<nat>, current: Cycle<nat>) {
    && loaded == (if stored.source == Some(generation) then stored else Empty())
    && (loaded.source == Some(generation) && !loaded.complete ==>
          loaded.after <= current.after && (loaded.failed ==> current.failed))
  }

  predicate Ordered(g: map<GrantId, Grant>, after: nat, items: seq<GrantId>) {
    && items != []
    && (forall i :: 0 <= i < |items| ==> items[i] in g && after < items[i])
    && (forall i, j :: 0 <= i < j < |items| ==> items[i] < items[j])
  }

  predicate PassLinked(row: Row, k: Worker) {
    k.Pass? ==>
      && k.version <= row.version && k.revision >= 1 && 1 <= k.generation
      && k.current.source == Some(k.generation)
      && (k.current.after == 0 || k.current.after in row.grants)
      && (k.stage != Committing ==> !k.current.complete)
      && (k.stage.Emitting? ==> Ordered(row.grants, k.current.after, k.stage.items))
      && (k.version == row.version ==> Continues(row.cycle, k.generation, k.loaded, k.current))
  }

  predicate Linked(s: State) {
    RowLinked(s.row) && PassLinked(s.row, s.worker)
  }

  lemma OrderedRest(g: map<GrantId, Grant>, after: nat, items: seq<GrantId>)
    requires Ordered(g, after, items) && |items| > 1
    ensures Ordered(g, items[0], items[1..])
  {}

  lemma AdvanceKeepsLinked(row: Row, k: Worker, seen: set<User>)
    requires PassLinked(row, k) && k.Pass? && k.stage.Emitting?
    ensures PassLinked(row, Advance(k, seen))
  {
    if |k.stage.items| > 1 {
      OrderedRest(row.grants, k.current.after, k.stage.items);
    }
  }

  lemma PassStepKeepsLinked(s: State, a: Action)
    requires Linked(s) && s.worker.Pass? && !a.Save?
    requires a.ReadPage? || a.ReadUser? || a.Write? || a.EndPage? || a.Stop?
    ensures Linked(Apply(s, a))
  {
    var k := s.worker;
    hide RoleOf;
    if k.stage.Emitting? {
      AdvanceKeepsLinked(s.row, k, k.stage.seen);
      AdvanceKeepsLinked(s.row, Failing(k), k.stage.seen);
      if k.stage.items[0] in s.row.grants {
        AdvanceKeepsLinked(s.row, Failing(k), k.stage.seen + {s.row.grants[k.stage.items[0]].user});
      }
      hide Advance;
    }
    hide Continues, ProviderAfter;
  }

  lemma RowStepKeepsLinked(s: State, a: Action)
    requires Linked(s) && (a.GrantCreate? || a.GrantDelete? || a.SpecUpdate? || a.Touch? || a.LateWrite?)
    ensures Linked(Apply(s, a))
  {}

  lemma SaveKeepsLinked(s: State, a: Action)
    requires Linked(s) && (a.Save? || a.Load? || a.Crash?)
    ensures Linked(Apply(s, a))
  {
    hide Ordered;
  }

  lemma StepKeepsLinked(s: State, a: Action)
    requires Linked(s)
    ensures Linked(Apply(s, a))
  {
    hide RowLinked, PassLinked;
    if a.Save? || a.Load? || a.Crash? {
      SaveKeepsLinked(s, a);
    } else if a.ReadPage? || a.ReadUser? || a.Write? || a.EndPage? || a.Stop? {
      if s.worker.Pass? {
        PassStepKeepsLinked(s, a);
      }
    } else {
      RowStepKeepsLinked(s, a);
    }
  }

  lemma {:induction false} RunKeepsLinked(id: GrantId, owner: User, actions: seq<Action>)
    requires id >= 1
    ensures Linked(Run(Init(id, owner), actions))
    decreases |actions|
  {
    if actions != [] {
      RunKeepsLinked(id, owner, actions[..|actions| - 1]);
      StepKeepsLinked(Run(Init(id, owner), actions[..|actions| - 1]), actions[|actions| - 1]);
      hide Linked, Apply;
    }
  }

  /* ---------- the fault-free run ---------- */

  /** Published, and for the generation now stored. */
  predicate Current(s: State) {
    s.row.condition == Condition(GrantSyncComplete, s.row.generation)
  }

  ghost function Next(s: State): Action {
    var k := s.worker;
    if k == Idle then Load
    else match k.stage
      case Reading => var page := NextPage(s.row.grants.Keys, k.current.after, PAGE_SIZE); ReadPage(page.0, page.1)
      case Emitting(_, _, _, call) => if call.None? then ReadUser(true, false) else Write(true, NoRole, false)
      case Paged(_) => EndPage
      case Committing => Save(true)
  }

  predicate FaultFree(a: Action) {
    match a
    case Load => true
    case ReadPage(_, _) => true
    case ReadUser(ok, _) => ok
    case Write(ok, _, _) => ok
    case EndPage => true
    case Save(commits) => commits
    case _ => false
  }

  const UNIT: nat := 9

  function RowUnits(row: Row): nat {
    Units(row.grants.Keys, Resume(row.cycle, row.generation))
  }

  /** Within one unit, the stages of a pass in their order. */
  function StageSteps(k: Worker): nat {
    if k == Idle then 6
    else match k.stage
      case Reading => 5
      case Emitting(_, _, _, call) => if call.None? then 4 else 3
      case Paged(more) => if more then 8 else 1
      case Committing => 7
  }

  /** A pass that cannot save is finished first, and its work counts for nothing. */
  function Rank(s: State): nat {
    var keys, k := s.row.grants.Keys, s.worker;
    StageSteps(k) + UNIT * (if k == Idle then RowUnits(s.row)
                            else if Savable(s.row, k) then Units(keys, k.current)
                            else Units(keys, k.current) + RowUnits(s.row) + 1)
  }

  /** A step of the pass that neither saves nor leaves its row. */
  predicate PassMoves(s: State, t: State) {
    && s.worker.Pass? && t.worker.Pass? && t.row == s.row
    && t.worker == s.worker.(current := t.worker.current, stage := t.worker.stage, pages := t.worker.pages)
    && Units(s.row.grants.Keys, t.worker.current) * UNIT + StageSteps(t.worker) < Units(s.row.grants.Keys, s.worker.current) * UNIT + StageSteps(s.worker)
  }

  lemma AdvanceMoves(row: Row, k: Worker, seen: set<User>)
    requires PassLinked(row, k) && k.Pass? && k.stage.Emitting?
    ensures Units(row.grants.Keys, Advance(k, seen).current) < Units(row.grants.Keys, k.current)
  {
    FewerAfter(row.grants.Keys, k.current.after, k.stage.items[0]);
    hide After;
  }

  lemma ReadFalls(s: State)
    requires s.worker.Pass? && s.worker.stage == Reading
    ensures PassMoves(s, Apply(s, Next(s)))
  {
    hide Units, IsPage, NextPage, CreateGrant, DeleteGrant, SaveIdentityScanCycle, Advance, LoadPass;
    var page := NextPage(s.row.grants.Keys, s.worker.current.after, PAGE_SIZE);
    assert Apply(s, Next(s)) == s.(worker := ReadPageStep(s.row, s.worker, page.0, page.1));
  }

  lemma CompletingMoves(keys: set<nat>, c: Cycle<nat>)
    requires !c.complete
    ensures Units(keys, c.(complete := true)) < Units(keys, c)
  {
    hide After;
  }

  lemma EndFalls(s: State)
    requires s.worker.Pass? && s.worker.stage.Paged? && !s.worker.current.complete
    ensures PassMoves(s, Apply(s, Next(s)))
  {
    CompletingMoves(s.row.grants.Keys, s.worker.current);
    hide Units, NextPage, CreateGrant, DeleteGrant;
  }

  lemma EmitFalls(s: State)
    requires Linked(s) && s.worker.Pass? && s.worker.stage.Emitting?
    ensures PassMoves(s, Apply(s, Next(s)))
  {
    var k := s.worker;
    hide RoleOf, Units, NextPage, CreateGrant, DeleteGrant, SaveIdentityScanCycle, LoadPass, ReadPageStep, ProviderAfter, After;
    AdvanceMoves(s.row, k, k.stage.seen);
    assert k.stage.items != [] && k.stage.items[0] in s.row.grants;
    hide Linked;
  }

  lemma PassFalls(s: State)
    requires Linked(s) && s.worker.Pass? && s.worker.stage != Committing
    ensures PassMoves(s, Apply(s, Next(s)))
  {
    if s.worker.stage.Emitting? {
      EmitFalls(s);
    } else if s.worker.stage.Paged? {
      EndFalls(s);
    } else {
      ReadFalls(s);
    }
    hide Apply, Next, Linked, PassMoves;
  }

  lemma LoadFalls(s: State)
    requires s.worker == Idle && RowLinked(s.row)
    ensures Rank(Apply(s, Next(s))) < Rank(s)
  {
    hide Units;
  }

  /** A save that is accepted moves the units of the pass into the row. */
  lemma SavedUnits(row: Row, k: Worker)
    requires RowLinked(row) && PassLinked(row, k) && Savable(row, k) && k.current != k.loaded
    ensures var saved := SaveIdentityScanCycle(row, k.version, k.generation, k.revision, k.current);
            && saved.Ok? && saved.value.grants == row.grants && saved.value.generation == row.generation
            && (saved.value.condition == Condition(GrantSyncComplete, row.generation) ||
                RowUnits(saved.value) == Units(row.grants.Keys, k.current))
  {
    NoneBefore(row.grants.Keys);
    hide After;
  }

  lemma SaveFalls(s: State)
    requires Linked(s) && s.worker.Pass? && s.worker.stage == Committing && !Current(s)
    ensures var t := Apply(s, Next(s)); Current(t) || Rank(t) < Rank(s)
  {
    var row, k := s.row, s.worker;
    if k.current == k.loaded {
      NoneBefore(row.grants.Keys);
      hide After;
    } else if Savable(row, k) {
      SavedUnits(row, k);
      hide Units, SaveIdentityScanCycle;
    } else {
      hide Units;
    }
  }

  /** Until the condition is published, the next step brings it nearer. */
  lemma RankFalls(s: State)
    requires Linked(s) && !Current(s)
    ensures var t := Apply(s, Next(s)); Current(t) || Rank(t) < Rank(s)
    ensures FaultFree(Next(s)) && Apply(s, Next(s)).row.grants == s.row.grants
  {
    assert FaultFree(Next(s)) && Apply(s, Next(s)).row.grants == s.row.grants by { hide RoleOf, Linked; }
    if s.worker == Idle {
      LoadFalls(s);
    } else if s.worker.stage == Committing {
      SaveFalls(s);
    } else {
      PassFalls(s);
      hide Apply, Next, Units;
    }
    hide Apply, Next, Rank, FaultFree;
  }

  /* ---------- from every reachable state ---------- */

  ghost function Finish(s: State): (actions: seq<Action>)
    requires Linked(s)
    decreases Rank(s)
  {
    if Current(s) then []
    else
      RankFalls(s);
      StepKeepsLinked(s, Next(s));
      if Current(Apply(s, Next(s))) then [Next(s)] else [Next(s)] + Finish(Apply(s, Next(s)))
  }

  lemma RunOne(s: State, a: Action)
    ensures Run(s, [a]) == Apply(s, a)
  {
    hide Apply;
    assert [a] == [] + [a];
    RunSnoc(s, [], a);
  }

  /** The fault-free run of the worker alone publishes within the rank, and changes no grant. */
  lemma {:induction false} FinishPublishes(s: State)
    requires Linked(s)
    ensures Current(Run(s, Finish(s))) && Run(s, Finish(s)).row.grants == s.row.grants
    ensures |Finish(s)| <= Rank(s)
    ensures forall a :: a in Finish(s) ==> FaultFree(a)
    decreases Rank(s)
  {
    if !Current(s) {
      RankFalls(s);
      StepKeepsLinked(s, Next(s));
      RunOne(s, Next(s));
      var t := Apply(s, Next(s));
      hide Apply, Next, Rank, Linked, FaultFree;
      if !Current(t) {
        FinishPublishes(t);
        RunSplits(s, [Next(s)], Finish(t));
      }
      hide Run;
    }
  }

  lemma RankBound(s: State)
    ensures Rank(s) <= 36 * |s.row.grants.Keys| + 53
  {
    AfterBound(s.row.grants.Keys, Resume(s.row.cycle, s.row.generation).after);
    if s.worker.Pass? {
      AfterBound(s.row.grants.Keys, s.worker.current.after);
    }
    hide After;
  }

  /**
   However a run began, with whatever failures and late writes, the worker can
   publish the condition at the current generation in a number of fault-free steps
   that the number of grants bounds.
   */
  lemma ScanCanPublish(id: GrantId, owner: User, actions: seq<Action>)
    requires id >= 1
    ensures exists rest: seq<Action> ::
              && |rest| <= 36 * |Run(Init(id, owner), actions).row.grants.Keys| + 53
              && (forall a :: a in rest ==> FaultFree(a))
              && Run(Init(id, owner), actions + rest).row.grants == Run(Init(id, owner), actions).row.grants
              && Current(Run(Init(id, owner), actions + rest))
  {
    RunKeepsLinked(id, owner, actions);
    var s := Run(Init(id, owner), actions);
    FinishPublishes(s);
    RankBound(s);
    RunSplits(Init(id, owner), actions, Finish(s));
    hide Linked, Rank, Run, Finish, FaultFree, Current;
  }
}
