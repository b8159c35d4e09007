/**
 The endpoint change does get done: what a step without faults sends and stores, and
 exactly which stopped changes can still be completed without another writer's help.
 */
module EndpointProgress {
  import opened Common
  import opened EndpointChange

  lemma {:induction false} RunSplits(s: State, before: seq<Action>, after: seq<Action>)
    ensures Run(s, before + after) == Run(Run(s, before), after)
    decreases |after|
  {
    if after == [] {
      assert before + after == before;
    } else {
      var n := |after| - 1;
      assert (before + after)[..|before| + n] == before + after[..n];
      hide Apply;
      RunSplits(s, before, after[..n]);
    }
  }

  lemma RunOne(s: State, a: Action)
    ensures Run(s, [a]) == Apply(s, a)
  {
    hide Apply;
    assert [a][..0] == [] && Run(s, [a]) == Apply(Run(s, []), a);
  }

  /** So many requests and file writes of the script, each of which succeeds. */
  function Advances(n: nat): seq<Action> {
    seq(n, _ => Advance(NoFault))
  }

  lemma AdvanceNext(s: State, n: nat)
    ensures Run(s, Advances(n + 1)) == AdvanceStep(Run(s, Advances(n)), NoFault)
    ensures Run(s, Advances(0)) == s
  {
    hide AdvanceStep;
    assert Advances(n + 1)[..n] == Advances(n);
  }

  /* ---------- the patch ---------- */

  /** The policy as it was installed, not being deleted. */
  predicate Original(s: State) {
    s.server.Some? && s.server.value.uid == UID && s.server.value.value == Before && !s.server.value.deleting && s.server.value.rv > 0
  }

  /** The same policy with the replacement in force, at a new version and generation. */
  predicate Replaced(s: State, t: State) {
    && s.server.Some? && t.server.Some?
    && t.server.value == s.server.value.(value := After, rv := s.clock + 1, generation := s.server.value.generation + 1)
    && t.clock == s.clock + 1
  }

  /** A step on the original policy saves `patching` and then patches it; a lost reply ends the step after the patch. */
  lemma StepPatches(s: State, f: Fault)
    requires s.script == Idle && Original(s) && (s.journal == Some(Prepared) || s.journal == Some(Patching))
    requires f == NoFault || f == LostReply
    ensures var t := Run(s, [Start(true, true)] + Advances(2) + [Advance(f)]);
            && Replaced(s, t) && t.journal == Some(Patching)
            && t.script == (if f == NoFault then Rereading else Idle)
            && t.sent == s.sent && t.foreign == s.foreign && t.manifest == s.manifest && t.ack == s.ack
  {
    var p, a := s.server.value, Apply(s, Start(true, true));
    RunOne(s, Start(true, true));
    RunSplits(s, [Start(true, true)], Advances(2));
    AdvanceNext(a, 0);
    AdvanceNext(a, 1);
    assert AdvanceStep(a, NoFault) == a.(script := Marking(p));
    var b := a.(script := Sending(p), journal := Some(Patching));
    assert AdvanceStep(a.(script := Marking(p)), NoFault) == b;
    hide Advances;
    RunSplits(s, [Start(true, true)] + Advances(2), [Advance(f)]);
    RunOne(b, Advance(f));
    hide Run;
  }

  /* ---------- the delivery ---------- */

  /** A policy whose replacement the server has checked, as read by the script. */
  predicate Checked(p: Policy) {
    p.uid == UID && p.value == After && p.observed == p.generation && p.checked && !p.warnings
  }

  lemma DeliveryCompletes(s: State)
    requires s.script.Replacing?
    ensures Run(s, Advances(3)) == s.(journal := Some(Complete), script := Idle, manifest := true, ack := Some(s.script.generation))
  {
    var g := s.script.generation;
    AdvanceNext(s, 0);
    AdvanceNext(s, 1);
    AdvanceNext(s, 2);
    hide Run, Advances, PatchServer, Seen;
    assert Run(s, Advances(1)) == s.(script := Acknowledging(g), manifest := true);
    assert Run(s, Advances(2)) == s.(script := Finishing(g), manifest := true, ack := Some(g));
  }

  /** An approved observation is recorded, delivered, acknowledged by its generation, and the journal completed. */
  lemma ApprovedCompletes(s: State)
    requires s.script.Confirming? && Checked(s.script.current)
    ensures Run(s, Advances(6)) == s.(journal := Some(Complete), script := Idle, manifest := true, ack := Some(s.script.current.generation))
  {
    var p := s.script.current;
    AdvanceNext(s, 0);
    AdvanceNext(s, 1);
    AdvanceNext(s, 2);
    assert Advances(3) + Advances(3) == Advances(6);
    hide Run, Advances, PatchServer, Seen;
    assert Run(s, Advances(1)) == s.(journal := Some(Checking), script := Judging(p));
    assert Run(s, Advances(2)) == s.(journal := Some(Checking), script := Approving(p.generation));
    var t := s.(journal := Some(Delivering), script := Replacing(p.generation));
    assert Run(s, Advances(3)) == t;
    DeliveryCompletes(t);
    RunSplits(s, Advances(3), Advances(3));
  }

  /** An observation that the server has not approved is never delivered: the step ends with the check recorded. */
  lemma UnapprovedStops(s: State)
    requires s.script.Confirming? && !Checked(s.script.current)
    ensures Run(s, Advances(2)) == s.(journal := Some(Checking), script := Idle)
  {
    AdvanceNext(s, 0);
    AdvanceNext(s, 1);
    hide Run, Advances, PatchServer, Seen;
  }

  /** What a completed change leaves: the delivered manifest, and an acknowledgement of the policy's own generation. */
  predicate Done(t: State) {
    && t.journal == Some(Complete) && t.manifest
    && t.server.Some? && t.server.value.value == After && t.ack == Some(t.server.value.generation)
  }

  lemma SevenAdvances()
    ensures Advances(1) == [Advance(NoFault)] && Advances(1) + Advances(6) == Advances(7)
  {}

  /** A read of the replacement, once the server has checked it, leads to completion. */
  lemma ReadCompletes(s: State)
    requires s.server.Some? && s.server.value.uid == UID && s.server.value.value == After && !s.server.value.deleting
    requires s.script == Rereading || (s.script.Reading? && s.script.phase != Prepared)
    ensures Done(Run(s, [TypeCheck(false)] + Advances(7)))
  {
    var t := Apply(s, TypeCheck(false));
    var u := AdvanceStep(t, NoFault);
    assert u.script == Confirming(t.server.value) && u.server == t.server && Checked(t.server.value);
    hide AdvanceStep, Advances;
    RunOne(s, TypeCheck(false));
    RunOne(t, Advance(NoFault));
    RunSplits(s, [TypeCheck(false)], Advances(7));
    RunSplits(t, Advances(1), Advances(6));
    SevenAdvances();
    ApprovedCompletes(u);
    hide Run;
  }

  /* ---------- which changes can be completed ---------- */

  /** The installed policy stands, and the journal and the policy agree on how far the change has come. */
  predicate Completable(s: State) {
    && s.server.Some? && s.server.value.uid == UID && !s.server.value.deleting
    && match s.server.value.value
       case Before => s.journal == None || s.journal == Some(Prepared) || s.journal == Some(Patching)
       case After => s.journal == Some(Patching) || s.journal == Some(Checking) || s.journal == Some(Delivering)
       case Other(_) => false
  }

  predicate Versioned(s: State) {
    s.server.Some? ==> s.server.value.rv > 0
  }

  lemma StepVersioned(s: State, a: Action)
    requires Versioned(s)
    ensures Versioned(Apply(s, a))
  {
    hide Seen, Approved, Patchable;
  }

  lemma {:induction false} RunVersioned(actions: seq<Action>)
    ensures Versioned(Run(Init(), actions))
    decreases |actions|
  {
    if actions != [] {
      RunVersioned(actions[..|actions| - 1]);
      StepVersioned(Run(Init(), actions[..|actions| - 1]), actions[|actions| - 1]);
      hide Apply;
    }
  }

  /** Only the operator, the script without faults, and the server's type check. */
  predicate Helpful(a: Action) {
    a == Prepare(true) || a == Start(true, true) || a == Advance(NoFault) || a == TypeCheck(false)
  }

  lemma PreparedCompletes(s: State) returns (rest: seq<Action>)
    requires s.script == Idle && Completable(s) && Versioned(s) && s.journal != None
    ensures |rest| <= 12 && (forall a :: a in rest ==> Helpful(a)) && Done(Run(s, rest))
  {
    hide Run, Done;
    if s.server.value.value == Before {
      var patch, finish := [Start(true, true)] + Advances(2) + [Advance(NoFault)], [TypeCheck(false)] + Advances(7);
      StepPatches(s, NoFault);
      ReadCompletes(Run(s, patch));
      RunSplits(s, patch, finish);
      rest := patch + finish;
    } else {
      var finish := [TypeCheck(false)] + Advances(7);
      RunOne(s, Start(true, true));
      ReadCompletes(Apply(s, Start(true, true)));
      RunSplits(s, [Start(true, true)], finish);
      rest := [Start(true, true)] + finish;
    }
  }

  lemma CompletableCompletes(s: State) returns (rest: seq<Action>)
    requires s.script == Idle && Completable(s) && Versioned(s)
    ensures |rest| <= 13 && (forall a :: a in rest ==> Helpful(a)) && Done(Run(s, rest))
  {
    hide Run, Done;
    if s.journal == None {
      var t := Apply(s, Prepare(true));
      RunOne(s, Prepare(true));
      rest := PreparedCompletes(t);
      RunSplits(s, [Prepare(true)], rest);
      rest := [Prepare(true)] + rest;
    } else {
      rest := PreparedCompletes(s);
    }
  }

  /** A change that nobody but another writer of the policy can set going again. */
  predicate Stuck(s: State) {
    && (s.script == Idle || s.script.Reading?) && s.journal != Some(Complete)
    && !Completable(s)
  }

  lemma StuckStep(s: State, a: Action)
    requires Inv(s) && Stuck(s) && !a.ForeignWrite?
    ensures Stuck(Apply(s, a))
  {}

  lemma {:induction false} StuckStays(s: State, actions: seq<Action>)
    requires Inv(s) && Stuck(s) && forall a :: a in actions ==> !a.ForeignWrite?
    ensures Inv(Run(s, actions)) && Stuck(Run(s, actions))
    decreases |actions|
  {
    if actions != [] {
      StuckStays(s, actions[..|actions| - 1]);
      StepKeepsInv(Run(s, actions[..|actions| - 1]), actions[|actions| - 1]);
      StuckStep(Run(s, actions[..|actions| - 1]), actions[|actions| - 1]);
      hide Inv, Stuck, Apply;
    }
  }

  ghost predicate CanComplete(s: State) {
    exists rest: seq<Action> :: (forall a :: a in rest ==> !a.ForeignWrite?) && Run(s, rest).journal == Some(Complete)
  }

  /**
   Whatever happened before, a change at rest that is not complete can be completed
   without another writer exactly if it is Completable, and then at most 13 actions
   without a fault deliver it.
   */
  lemma ChangeCompletesExactly(actions: seq<Action>)
    requires Run(Init(), actions).script == Idle && Run(Init(), actions).journal != Some(Complete)
    ensures CanComplete(Run(Init(), actions)) <==> Completable(Run(Init(), actions))
    ensures Completable(Run(Init(), actions)) ==>
              exists rest: seq<Action> ::
                |rest| <= 13 && (forall a :: a in rest ==> Helpful(a)) && Done(Run(Init(), actions + rest))
  {
    RunKeepsInv(actions);
    RunVersioned(actions);
    var s := Run(Init(), actions);
    hide Run, Inv, Versioned;
    if Completable(s) {
      var rest := CompletableCompletes(s);
      RunSplits(Init(), actions, rest);
    } else if CanComplete(s) {
      var rest: seq<Action> :| (forall a :: a in rest ==> !a.ForeignWrite?) && Run(s, rest).journal == Some(Complete);
      StuckStays(s, rest);
      assert false;
    }
  }

  /* ---------- the other parties ---------- */

  /** Every write of another party gives the policy a version above all earlier ones, keeps its identity, and leaves the script and its deliveries alone. */
  lemma OthersWrite(s: State, a: Action)
    requires s.server.Some? && (a.ForeignWrite? || a.Touch? || a.TypeCheck? || a.MarkDeleting?)
    ensures var t, p := Apply(s, a), s.server.value;
            && t.server.Some? && t.clock == s.clock + 1 && t.server.value.rv == t.clock && t.server.value.uid == p.uid
            && t.server.value.value == (if a.ForeignWrite? then a.value else p.value)
            && t.server.value.generation == p.generation + (if a.ForeignWrite? then 1 else 0)
            && t.server.value.deleting == (p.deleting || a.MarkDeleting?)
            && (a.TypeCheck? ==> t.server.value.observed == p.generation && t.server.value.checked && t.server.value.warnings == a.warnings)
            && (!a.TypeCheck? ==> t.server.value.observed == p.observed && t.server.value.checked == p.checked && t.server.value.warnings == p.warnings)
            && t.foreign == (s.foreign || (a.ForeignWrite? && a.value == After))
            && t.sent == s.sent && t.journal == s.journal && t.script == s.script && t.manifest == s.manifest && t.ack == s.ack
  {}

  /** A policy can be removed, and only another identity can take its place; a crash loses nothing but the script. */
  lemma OthersReplace(s: State, uid: nat, v: Value)
    ensures Apply(s, Remove).server == None && Apply(s, Remove).clock == s.clock
    ensures s.server == None && uid != UID ==>
              var t := Apply(s, Recreate(uid, v));
              t.server.Some? && t.server.value.uid == uid && t.server.value.value == v && t.server.value.rv == t.clock == s.clock + 1
    ensures s.server.Some? || uid == UID ==> Apply(s, Recreate(uid, v)) == s
    ensures Apply(s, Crash) == s.(script := Idle)
  {}

  /** A patch under way lands once, and only on the identity and version that it tests for. */
  lemma LatePatchLands(s: State, rv: nat)
    requires rv in s.sent
    ensures var t := Apply(s, Land(rv));
            && t.sent == s.sent - {rv} && t.script == s.script && t.journal == s.journal
            && (if s.server.Some? && s.server.value.uid == UID && s.server.value.rv == rv then Replaced(s, t) else t.server == s.server && t.clock == s.clock)
  {}

  /** The journal alone starts nothing: a step needs the Pod's request and the checks around it, and takes up the saved phase. */
  lemma StartNeedsRequest(s: State, requested: bool, guarded: bool)
    ensures var t := Apply(s, Start(requested, guarded));
            if s.script == Idle && s.journal.Some? && s.journal.value != Complete && requested && guarded then t == s.(script := Reading(s.journal.value))
            else t == s
    ensures Apply(s, Prepare(false)) == s
  {}
}
