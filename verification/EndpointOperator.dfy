/**
 The endpoint script's two commands as they run: reads, checks, saves and requests
 in order, each of which can fail and end the command. `faults` says how each of
 them ends. An execution is the run of EndpointChange with just these faults.
 */
module EndpointOperator {
  import opened Common
  import opened EndpointChange

  type Faults = nat -> Fault

  /** The script's first n requests and file writes, as they end. */
  function Steps(faults: Faults, n: nat): seq<Action> {
    seq(n, i requires 0 <= i < n => Advance(faults(i)))
  }

  lemma StepsNext(base: State, faults: Faults, n: nat)
    ensures Run(base, Steps(faults, n + 1)) == AdvanceStep(Run(base, Steps(faults, n)), faults(n))
    ensures Run(base, Steps(faults, 0)) == base
  {
    hide AdvanceStep;
    assert Steps(faults, n + 1)[..n] == Steps(faults, n);
  }

  class Change {
    var server: Option<Policy>
    var journal: Option<Phase>
    var manifest: bool
    var ack: Option<nat>
    var clock: nat
    ghost var sent: set<nat>
    ghost var foreign: bool

    constructor ()
      ensures At(Idle) == Init()
    {
      server, clock := Init().server, Init().clock;
      journal, manifest, ack := None, false, None;
      sent, foreign := {}, false;
    }

    /** The whole system while the script stands at one of its statements. */
    ghost function At(script: Script): State
      reads this
    {
      State(server, clock, sent, foreign, journal, script, manifest, ack)
    }

    method Prepare(guarded: bool)
      modifies this`journal
      ensures At(Idle) == Apply(old(At(Idle)), EndpointChange.Prepare(guarded))
      ensures journal == if old(journal) == None && guarded && server.Some? && Patchable(server.value) then Some(Prepared) else old(journal)
    {
      if journal.Some? || !guarded {
        return;
      }
      if server.None? || !Patchable(server.value) {
        return;
      }
      journal := Some(Prepared);
    }

    /** The journal is replaced in one rename, or not at all. */
    method Save(phase: Phase, fault: Fault) returns (ok: bool)
      modifies this`journal
      ensures ok == (fault == NoFault)
      ensures journal == if ok then Some(phase) else old(journal)
    {
      ok := fault == NoFault;
      if ok {
        journal := Some(phase);
      }
    }

    /** The server applies a patch only to the version it tests for; its reply, or the patch itself, may be late. */
    method Patch(rv: nat, fault: Fault) returns (ok: bool)
      modifies this`server, this`clock, this`sent
      ensures sent == if fault == Late then old(sent) + {rv} else old(sent)
      ensures ok == (fault == NoFault && old(server).Some? && old(server).value.uid == UID && old(server).value.rv == rv)
      ensures if (fault == NoFault || fault == LostReply) && old(server).Some? && old(server).value.uid == UID && old(server).value.rv == rv then
                && clock == old(clock) + 1
                && server == Some(old(server).value.(value := After, rv := clock, generation := old(server).value.generation + 1))
              else clock == old(clock) && server == old(server)
    {
      ok := false;
      if fault == NoEffect {
        return;
      }
      if fault == Late {
        sent := sent + {rv};
        return;
      }
      if server.Some? && server.value.uid == UID && server.value.rv == rv {
        clock := clock + 1;
        server := Some(server.value.(value := After, rv := clock, generation := server.value.generation + 1));
        ok := fault == NoFault;
      }
    }

    /** A step that is not asked for, or finds the journal done, does nothing; any other goes on until a fault or a check ends it. */
    method Step(requested: bool, guarded: bool, faults: Faults) returns (ghost n: nat)
      modifies this
      ensures if old(journal) == None || old(journal) == Some(Complete) || !requested || !guarded then At(Idle) == old(At(Idle))
              else Run(Apply(old(At(Idle)), Start(true, true)), Steps(faults, n)) == At(Idle)
    {
      n := 0;
      if journal.None? || journal == Some(Complete) {
        return;
      }
      if !requested || !guarded {
        return;
      }
      ghost var base := At(Reading(journal.value));
      StepsNext(base, faults, 0);
      hide Run;
      var phase := journal.value;
      var current, go, at := Observe(phase, faults, base);
      if !go {
        return at;
      }
      n := Confirm(current, faults, at, base);
    }

    /** Read the policy, patch it if it is still the original, and read it again. */
    method Observe(phase: Phase, faults: Faults, ghost base: State) returns (current: Policy, go: bool, at: nat)
      requires Run(base, Steps(faults, 0)) == At(Reading(phase))
      modifies this
      ensures Run(base, Steps(faults, at)) == At(if go then Confirming(current) else Idle)
    {
      hide Run;
      current, go, at := Policy(0, Before, 0, 0, false, 0, false, false), false, 1;
      StepsNext(base, faults, 0);
      if faults(0) != NoFault || server.None? || server.value.uid != UID || server.value.deleting {
        return;
      }
      current := server.value;
      if current.value == After {
        go := phase != Prepared;
        return;
      }
      if !Patchable(current) || (phase != Prepared && phase != Patching) {
        return;
      }
      current, go, at := Replace(current, faults, base);
    }

    /** Save before the write; then read what the server holds. */
    method Replace(original: Policy, faults: Faults, ghost base: State) returns (current: Policy, go: bool, at: nat)
      requires Run(base, Steps(faults, 1)) == At(Marking(original))
      modifies this
      ensures Run(base, Steps(faults, at)) == At(if go then Confirming(current) else Idle)
    {
      hide Run, Seen, Patchable, PatchServer;
      current, go, at := original, false, 2;
      var saved := Save(Patching, faults(1));
      StepsNext(base, faults, 1);
      if !saved {
        return;
      }
      at := 3;
      var ok := SendPatch(original, faults, base);
      if !ok {
        return;
      }
      at := 4;
      StepsNext(base, faults, 3);
      if faults(3) != NoFault || server.None? || server.value.uid != UID || server.value.value != After {
        return;
      }
      current, go := server.value, true;
    }

    method SendPatch(original: Policy, faults: Faults, ghost base: State) returns (ok: bool)
      requires Run(base, Steps(faults, 2)) == At(Sending(original))
      modifies this`server, this`clock, this`sent
      ensures Run(base, Steps(faults, 3)) == At(if ok then Rereading else Idle)
    {
      hide Run, Seen, Patchable;
      StepsNext(base, faults, 2);
      ok := Patch(original.rv, faults(2));
    }

    /** Record the check, judge the observation, and deliver only what passed. */
    method Confirm(current: Policy, faults: Faults, first: nat, ghost base: State) returns (at: nat)
      requires Run(base, Steps(faults, first)) == At(Confirming(current))
      modifies this
      ensures Run(base, Steps(faults, at)) == At(Idle)
    {
      hide Run;
      at := first + 1;
      var saved := Save(Checking, faults(first));
      StepsNext(base, faults, first);
      if !saved {
        return;
      }
      at := first + 2;
      StepsNext(base, faults, first + 1);
      if current.uid != UID || current.value != After || current.observed != current.generation || !current.checked {
        return;
      }
      if current.warnings {
        return;
      }
      at := first + 3;
      saved := Save(Delivering, faults(first + 2));
      StepsNext(base, faults, first + 2);
      if saved {
        at := Deliver(current.generation, faults, at, base);
      }
    }

    /** The manifest, then the acknowledgement, then the journal. */
    method Deliver(generation: nat, faults: Faults, first: nat, ghost base: State) returns (at: nat)
      requires Run(base, Steps(faults, first)) == At(Replacing(generation))
      modifies this`manifest, this`ack, this`journal
      ensures Run(base, Steps(faults, at)) == At(Idle)
    {
      hide Run;
      at := first + 1;
      StepsNext(base, faults, first);
      if faults(first) != NoEffect {
        manifest := true;
      }
      if faults(first) != NoFault {
        return;
      }
      at := first + 2;
      StepsNext(base, faults, first + 1);
      if faults(first + 1) != NoEffect {
        ack := Some(generation);
      }
      if faults(first + 1) != NoFault {
        return;
      }
      at := first + 3;
      StepsNext(base, faults, first + 2);
      var _ := Save(Complete, faults(first + 2));
    }
  }
}
