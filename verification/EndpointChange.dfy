/**
 The journaled change of one admission policy. The script can stop between any two
 of its requests and file writes, any reply can be lost, a patch whose reply was
 lost can land later, and the server, other writers and the type checker act at
 any time. A replaced journal file is either the old or the new one.
 */
module EndpointChange {
  import opened Common

  /** What the policy compares as once server-owned fields are removed and defaults filled in. */
  datatype Value = Before | After | Other(id: nat)

  datatype Policy = Policy(uid: nat, value: Value, rv: nat, generation: nat, deleting: bool, observed: nat, checked: bool, warnings: bool)

  datatype Phase = Prepared | Patching | Checking | Delivering | Complete

  datatype Script =
    | Idle
    | Reading(phase: Phase)
    | Marking(current: Policy)
    | Sending(current: Policy)
    | Rereading
    | Confirming(current: Policy)
    | Judging(current: Policy)
    | Approving(generation: nat)
    | Replacing(generation: nat)
    | Acknowledging(generation: nat)
    | Finishing(generation: nat)

  /**
   `clock` is the last resource version the server gave out. `sent` holds the
   resource versions that patches without a reply still test for. `foreign` tells
   whether another writer ever stored the replacement value.
   */
  datatype State = State(
    server: Option<Policy>, clock: nat, sent: set<nat>, foreign: bool,
    journal: Option<Phase>, script: Script, manifest: bool, ack: Option<nat>)

  datatype Fault = NoFault | NoEffect | LostReply | Late

  datatype Action =
    | Prepare(guarded: bool)
    | Start(requested: bool, guarded: bool)
    | Advance(fault: Fault)
    | Crash
    | Land(rv: nat)
    | ForeignWrite(value: Value)
    | Touch
    | TypeCheck(warnings: bool)
    | MarkDeleting
    | Remove
    | Recreate(uid: nat, value: Value)

  /** The identity recorded when the policy was installed. */
  const UID: nat := 1

  function Init(): State {
    State(Some(Policy(UID, Before, 1, 1, false, 0, false, false)), 1, {}, false, None, Idle, false, None)
  }

  /** The checks made before any patch is built. */
  predicate Patchable(p: Policy) {
    p.uid == UID && p.rv > 0 && !p.deleting && p.value == Before
  }

  /** RFC 6902 `test` operations on identity and version guard the replacement as a whole. */
  function PatchServer(s: State, rv: nat): (t: State)
    ensures t == s.(server := t.server, clock := t.clock)
  {
    if s.server.Some? && s.server.value.uid == UID && s.server.value.rv == rv then
      var p := s.server.value;
      s.(server := Some(p.(value := After, rv := s.clock + 1, generation := p.generation + 1)), clock := s.clock + 1)
    else s
  }

  function Write(s: State, p: Policy): State {
    s.(server := Some(p.(rv := s.clock + 1)), clock := s.clock + 1)
  }

  /** The verdict on one observation of the changed policy. */
  predicate Approved(p: Policy) {
    p.uid == UID && p.value == After && p.observed == p.generation && p.checked && !p.warnings
  }

  function Seen(s: State, phase: Phase): Script {
    if s.server.None? || s.server.value.uid != UID || s.server.value.deleting then Idle
    else
      var p := s.server.value;
      if p.value != After then
        if Patchable(p) && (phase == Prepared || phase == Patching) then Marking(p) else Idle
      else if phase == Prepared then Idle
      else Confirming(p)
  }

  function Save(s: State, phase: Phase, next: Script, f: Fault): State {
    if f == NoFault then s.(journal := Some(phase), script := next) else s.(script := Idle)
  }

  /** The script's next request or file write. Any failure ends the run of the script. */
  function AdvanceStep(s: State, f: Fault): State {
    match s.script
    case Idle => s
    case Reading(phase) => s.(script := if f == NoFault then Seen(s, phase) else Idle)
    case Marking(p) => Save(s, Patching, Sending(p), f)
    case Sending(p) =>
      if f == NoEffect then s.(script := Idle)
      else if f == Late then s.(sent := s.sent + {p.rv}, script := Idle)
      else
        var t := PatchServer(s, p.rv);
        t.(script := if f == NoFault && t != s then Rereading else Idle)
    case Rereading =>
      s.(script := if f == NoFault && s.server.Some? && s.server.value.uid == UID && s.server.value.value == After
                   then Confirming(s.server.value) else Idle)
    case Confirming(p) => Save(s, Checking, Judging(p), f)
    case Judging(p) => s.(script := if Approved(p) then Approving(p.generation) else Idle)
    case Approving(g) => Save(s, Delivering, Replacing(g), f)
    case Replacing(g) =>
      if f == NoEffect then s.(script := Idle)
      else s.(manifest := true, script := if f == NoFault then Acknowledging(g) else Idle)
    case Acknowledging(g) =>
      if f == NoEffect then s.(script := Idle)
      else s.(ack := Some(g), script := if f == NoFault then Finishing(g) else Idle)
    case Finishing(_) => Save(s, Complete, Idle, f)
  }

  function Apply(s: State, a: Action): State {
    match a
    case Prepare(guarded) =>
      if s.script == Idle && s.journal == None && guarded && s.server.Some? && Patchable(s.server.value) then
        s.(journal := Some(Prepared))
      else s
    case Start(requested, guarded) =>
      if s.script == Idle && s.journal.Some? && s.journal != Some(Complete) && requested && guarded then
        s.(script := Reading(s.journal.value))
      else s
    case Advance(f) => AdvanceStep(s, f)
    case Crash => s.(script := Idle)
    case Land(rv) => if rv in s.sent then PatchServer(s.(sent := s.sent - {rv}), rv) else s
    case ForeignWrite(v) =>
      if s.server.None? then s
      else
        var p := s.server.value;
        Write(s, p.(value := v, generation := p.generation + 1)).(foreign := s.foreign || v == After)
    case Touch => if s.server.None? then s else Write(s, s.server.value)
    case TypeCheck(w) =>
      if s.server.None? then s
      else Write(s, s.server.value.(observed := s.server.value.generation, checked := true, warnings := w))
    case MarkDeleting => if s.server.None? then s else Write(s, s.server.value.(deleting := true))
    case Remove => s.(server := None)
    case Recreate(uid, v) =>
      if s.server.Some? || uid == UID then s
      else Write(s, Policy(uid, v, 0, 1, false, 0, false, false)).(foreign := s.foreign || v == After)
  }

  function Run(s: State, actions: seq<Action>): State
    decreases |actions|
  {
    if actions == [] then s else Apply(Run(s, actions[..|actions| - 1]), actions[|actions| - 1])
  }

  lemma RunSnoc(s: State, actions: seq<Action>, a: Action)
    ensures Run(s, actions + [a]) == Apply(Run(s, actions), a)
  {
    hide Apply;
    assert (actions + [a])[..|actions|] == actions;
  }

  /* ---------- what every step keeps ---------- */

  predicate Reached(journal: Option<Phase>) {
    journal.Some? && journal != Some(Prepared)
  }

  predicate Settled(journal: Option<Phase>) {
    journal == Some(Checking) || journal == Some(Delivering) || journal == Some(Complete)
  }

  /** A snapshot is no newer than the server, and equals it at the same resource version. */
  predicate Snapshot(s: State, p: Policy) {
    p.uid == UID && p.rv <= s.clock && (s.server.Some? && s.server.value.rv <= p.rv ==> s.server.value == p)
  }

  predicate ServerOk(s: State) {
    && (s.server.Some? ==> s.server.value.rv <= s.clock)
    && (s.server.Some? && s.server.value.value == After && !s.foreign ==> Reached(s.journal))
    && (forall rv :: rv in s.sent ==>
          && rv <= s.clock && Reached(s.journal)
          && (s.server.Some? && s.server.value.rv <= rv ==> s.server.value.rv == rv && s.server.value.value == Before && s.server.value.uid == UID))
    && (Settled(s.journal) ==> forall rv :: rv in s.sent ==> (s.server.Some? ==> rv < s.server.value.rv))
  }

  predicate ScriptOk(s: State) {
    match s.script
    case Idle => true
    case Reading(phase) => s.journal == Some(phase) && phase != Complete
    case Marking(p) => Snapshot(s, p) && Patchable(p) && s.journal.Some? && !Settled(s.journal)
    case Sending(p) => Snapshot(s, p) && Patchable(p) && s.journal == Some(Patching)
    case Rereading => s.journal == Some(Patching)
    case Confirming(p) =>
      && Snapshot(s, p) && p.value == After && Reached(s.journal) && s.journal != Some(Complete)
      && (forall rv :: rv in s.sent ==> rv < p.rv)
    case Judging(p) => s.journal == Some(Checking) && p.value == After && p.uid == UID
    case Approving(_) => s.journal == Some(Checking)
    case Replacing(_) => s.journal == Some(Delivering)
    case Acknowledging(_) => s.journal == Some(Delivering) && s.manifest
    case Finishing(_) => s.journal == Some(Delivering) && s.manifest && s.ack.Some?
  }

  predicate Inv(s: State) {
    ServerOk(s) && ScriptOk(s) && (s.journal == Some(Complete) ==> s.manifest && s.ack.Some?)
  }

  lemma InitInv()
    ensures Inv(Init())
  {}

  lemma WriteKeepsInv(s: State, p: Policy, foreign: bool)
    requires Inv(s) && (s.server.Some? || p.uid != UID)
    requires s.server.Some? ==> p.uid == s.server.value.uid
    requires p.value == After ==> foreign || (s.server.Some? && s.server.value.value == After)
    ensures Inv(Write(s, p).(foreign := s.foreign || foreign))
  {}

  lemma LandKeepsInv(s: State, rv: nat)
    requires Inv(s) && rv in s.sent
    ensures Inv(PatchServer(s.(sent := s.sent - {rv}), rv))
  {}

  /** A reading of the replacement is later than every patch still in flight. */
  lemma ReadKeepsInv(s: State, f: Fault)
    requires Inv(s) && (s.script.Reading? || s.script.Rereading?)
    ensures Inv(AdvanceStep(s, f))
  {}

  lemma SendKeepsInv(s: State, f: Fault)
    requires Inv(s) && s.script.Sending?
    ensures Inv(AdvanceStep(s, f))
  {}

  lemma ConfirmKeepsInv(s: State, f: Fault)
    requires Inv(s) && s.script.Confirming?
    ensures Inv(AdvanceStep(s, f))
  {}

  lemma AdvanceKeepsInv(s: State, f: Fault)
    requires Inv(s)
    ensures Inv(AdvanceStep(s, f))
  {
    if s.script.Reading? || s.script.Rereading? {
      ReadKeepsInv(s, f);
    } else if s.script.Sending? {
      SendKeepsInv(s, f);
    } else if s.script.Confirming? {
      ConfirmKeepsInv(s, f);
    } else {
      hide PatchServer, Seen;
    }
  }

  lemma StepKeepsInv(s: State, a: Action)
    requires Inv(s)
    ensures Inv(Apply(s, a))
  {
    hide Inv, AdvanceStep, PatchServer;
    match a
    case Prepare(_) => PrepareKeepsInv(s, a);
    case Start(_, _) => PrepareKeepsInv(s, a);
    case Crash => PrepareKeepsInv(s, a);
    case Remove => PrepareKeepsInv(s, a);
    case Advance(f) => AdvanceKeepsInv(s, f);
    case Land(rv) => if rv in s.sent { LandKeepsInv(s, rv); }
    case ForeignWrite(v) =>
      if s.server.Some? {
        WriteKeepsInv(s, s.server.value.(value := v, generation := s.server.value.generation + 1), v == After);
      }
    case Recreate(uid, v) =>
      if s.server.None? && uid != UID {
        WriteKeepsInv(s, Policy(uid, v, 0, 1, false, 0, false, false), v == After);
      }
    case Touch => if s.server.Some? { WriteKeepsInv(s, s.server.value, false); }
    case TypeCheck(w) =>
      if s.server.Some? {
        WriteKeepsInv(s, s.server.value.(observed := s.server.value.generation, checked := true, warnings := w), false);
      }
    case MarkDeleting => if s.server.Some? { WriteKeepsInv(s, s.server.value.(deleting := true), false); }
  }

  lemma PrepareKeepsInv(s: State, a: Action)
    requires Inv(s) && (a.Prepare? || a.Start? || a.Crash? || a.Remove?)
    ensures Inv(Apply(s, a))
  {}

  lemma {:induction false} RunKeepsInv(actions: seq<Action>)
    ensures Inv(Run(Init(), actions))
    decreases |actions|
  {
    if actions == [] {
      InitInv();
    } else {
      RunKeepsInv(actions[..|actions| - 1]);
      StepKeepsInv(Run(Init(), actions[..|actions| - 1]), actions[|actions| - 1]);
      hide Inv, Apply;
    }
  }

  /* ---------- what the journal proves ---------- */

  /** The replacement is in force only once the journal says that a patch may have been sent. */
  lemma AfterOnlyIfPatching(actions: seq<Action>)
    requires var s := Run(Init(), actions); s.server.Some? && s.server.value.value == After && !s.foreign
    ensures Reached(Run(Init(), actions).journal)
  {
    RunKeepsInv(actions);
    hide Run;
  }

  /** Once `checking` was saved, neither the script nor a patch still in flight changes the policy again. */
  lemma NoPatchOnceChecked(actions: seq<Action>, a: Action)
    requires Settled(Run(Init(), actions).journal) && (a.Advance? || a.Land?)
    ensures var s := Run(Init(), actions); Apply(s, a).server == s.server && Apply(s, a).sent <= s.sent
  {
    RunKeepsInv(actions);
    hide Run;
  }

  function Rank(journal: Option<Phase>): nat {
    match journal
    case None => 0
    case Some(p) => match p { case Prepared => 1 case Patching => 2 case Checking => 3 case Delivering => 4 case Complete => 5 }
  }

  /** The journal only moves on, except that a repeated check takes `delivering` back to `checking`; Complete is final. */
  lemma JournalMovesOn(actions: seq<Action>, a: Action)
    ensures var j, k := Run(Init(), actions).journal, Apply(Run(Init(), actions), a).journal;
            Rank(j) <= Rank(k) <= Rank(j) + 1 || (j == Some(Delivering) && k == Some(Checking))
  {
    RunKeepsInv(actions);
    hide Run, ServerOk, PatchServer;
  }

  /** A completed journal has delivered the manifest and the acknowledgement. */
  lemma CompleteMeansDelivered(actions: seq<Action>)
    requires Run(Init(), actions).journal == Some(Complete)
    ensures var s := Run(Init(), actions); s.manifest && s.ack.Some?
  {
    RunKeepsInv(actions);
    hide Run, ServerOk, ScriptOk;
  }

  /** At some moment of the run the server held exactly this policy. */
  ghost predicate Was(actions: seq<Action>, p: Policy) {
    exists k :: 0 <= k <= |actions| && Run(Init(), actions[..k]).server == Some(p)
  }

  /** At some moment the server held the replacement, type-checked without warnings at its own generation. */
  ghost predicate WasApproved(actions: seq<Action>, generation: nat) {
    exists p :: Was(actions, p) && Approved(p) && p.generation == generation
  }

  ghost predicate History(actions: seq<Action>, s: State) {
    && (s.script.Confirming? || s.script.Judging? ==> Was(actions, s.script.current))
    && (s.script.Approving? || s.script.Replacing? || s.script.Acknowledging? || s.script.Finishing? ==> WasApproved(actions, s.script.generation))
    && (s.manifest ==> exists g :: WasApproved(actions, g))
    && (s.ack.Some? ==> WasApproved(actions, s.ack.value))
  }

  lemma WasGrows(actions: seq<Action>, a: Action, p: Policy)
    requires Was(actions, p)
    ensures Was(actions + [a], p)
  {
    var k :| 0 <= k <= |actions| && Run(Init(), actions[..k]).server == Some(p);
    assert (actions + [a])[..k] == actions[..k];
  }

  lemma WasNow(actions: seq<Action>)
    ensures var s := Run(Init(), actions); s.server.Some? ==> Was(actions, s.server.value)
  {
    assert actions[..|actions|] == actions;
  }

  lemma WasApprovedGrows(actions: seq<Action>, a: Action, g: nat)
    requires WasApproved(actions, g)
    ensures WasApproved(actions + [a], g)
  {
    hide Was, Approved;
    var p :| Was(actions, p) && Approved(p) && p.generation == g;
    WasGrows(actions, a, p);
  }

  lemma HistoryGrows(actions: seq<Action>, a: Action, s: State)
    requires History(actions, s)
    ensures History(actions + [a], s)
  {
    hide Was, WasApproved;
    forall p | Was(actions, p)
      ensures Was(actions + [a], p)
    {
      WasGrows(actions, a, p);
    }
    forall g | WasApproved(actions, g)
      ensures WasApproved(actions + [a], g)
    {
      WasApprovedGrows(actions, a, g);
    }
  }

  /** Every step keeps what is delivered tied to an approved observation of the server. */
  lemma HistoryStep(actions: seq<Action>, s: State, a: Action)
    requires History(actions, s)
    requires s.server.Some? ==> Was(actions, s.server.value)
    ensures History(actions, Apply(s, a))
  {
    hide Was, PatchServer, Patchable, Approved;
    if a.Advance? && s.script.Judging? && Approved(s.script.current) {
      var p := s.script.current;
      assert Was(actions, p) && Approved(p) && p.generation == p.generation;
      assert WasApproved(actions, p.generation);
    } else if a.Advance? && s.script.Replacing? {
      assert WasApproved(actions, s.script.generation);
    } else if !a.Advance? {
      assert Apply(s, a).manifest == s.manifest && Apply(s, a).ack == s.ack;
    }
    hide WasApproved;
  }

  lemma {:induction false} RunHistory(actions: seq<Action>)
    ensures History(actions, Run(Init(), actions))
    decreases |actions|
  {
    if actions != [] {
      var before, a := actions[..|actions| - 1], actions[|actions| - 1];
      RunHistory(before);
      WasNow(before);
      HistoryStep(before, Run(Init(), before), a);
      HistoryGrows(before, a, Apply(Run(Init(), before), a));
      assert before + [a] == actions;
      hide History, Apply;
    }
  }

  /**
   On every run, a delivered manifest or acknowledgement follows an observation of
   the replacement at its current generation, type-checked without warnings; the
   acknowledgement names that generation.
   */
  lemma DeliveredOnlyApproved(actions: seq<Action>)
    ensures var s := Run(Init(), actions);
            && (s.manifest ==> exists g :: WasApproved(actions, g))
            && (s.ack.Some? ==> WasApproved(actions, s.ack.value))
  {
    RunHistory(actions);
    hide Run, WasApproved;
  }
}
