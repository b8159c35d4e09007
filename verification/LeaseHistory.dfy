/**
 Who holds the Lease: every committed patch was asked for by a caller with the same
 holder and Job, and an acquire of a free Lease, or a release after its Job has
 ended, does commit.
 */
module LeaseHistory {
  import opened LiveLease

  /* ---------- what was asked ---------- */

  /** Some caller asked to take the Lease for this holder and Job. */
  ghost predicate AskedToAcquire(actions: seq<Action>, holder: nat, job: Job) {
    exists k :: 0 <= k < |actions| && actions[k].ReadToAcquire? && actions[k].holder == holder && actions[k].job == job
  }

  /** Some caller asked to release the Lease of this holder. */
  ghost predicate AskedToRelease(actions: seq<Action>, holder: nat) {
    exists k :: 0 <= k < |actions| && actions[k].ReadToRelease? && actions[k].holder == holder
  }

  ghost predicate PatchAsked(actions: seq<Action>, p: Patch) {
    match p
    case Take(_, holder, job) => AskedToAcquire(actions, holder, job)
    case Free(_, holder, _, _) => AskedToRelease(actions, holder)
  }

  ghost predicate EventAsked(actions: seq<Action>, e: Event) {
    match e
    case Acquired(holder, job, _) => AskedToAcquire(actions, holder, job)
    case Released(holder, _, _, _) => AskedToRelease(actions, holder)
  }

  ghost predicate ProcessAsked(actions: seq<Action>, k: Process) {
    match k
    case Holding(_, holder) => AskedToRelease(actions, holder)
    case Prepared(p) => PatchAsked(actions, p)
  }

  ghost predicate History(actions: seq<Action>, s: State) {
    && (forall c :: c in s.processes ==> ProcessAsked(actions, s.processes[c]))
    && (forall p :: p in s.sent ==> PatchAsked(actions, p))
    && (forall i :: 0 <= i < |s.log| ==> EventAsked(actions, s.log[i]))
  }

  lemma AskedGrows(actions: seq<Action>, a: Action)
    ensures forall holder, job :: AskedToAcquire(actions, holder, job) ==> AskedToAcquire(actions + [a], holder, job)
    ensures forall holder :: AskedToRelease(actions, holder) ==> AskedToRelease(actions + [a], holder)
    ensures a.ReadToAcquire? ==> AskedToAcquire(actions + [a], a.holder, a.job)
    ensures a.ReadToRelease? ==> AskedToRelease(actions + [a], a.holder)
  {
    var all := actions + [a];
    assert all[|actions|] == a;
    forall k | 0 <= k < |actions|
      ensures all[k] == actions[k]
    {}
  }

  lemma CommitHistory(actions: seq<Action>, s: State, p: Patch)
    requires History(actions, s) && PatchAsked(actions, p)
    ensures History(actions, Commit(s, p))
  {
    hide AskedToAcquire, AskedToRelease;
  }

  lemma HistoryGrows(actions: seq<Action>, s: State, a: Action)
    requires History(actions, s)
    ensures History(actions + [a], s)
  {
    AskedGrows(actions, a);
    hide AskedToAcquire, AskedToRelease;
  }

  lemma HistoryStep(actions: seq<Action>, s: State, a: Action)
    requires History(actions, s)
    ensures History(actions + [a], Apply(s, a))
  {
    HistoryGrows(actions, s, a);
    AskedGrows(actions, a);
    hide AskedToAcquire, AskedToRelease, Commit;
    match a
    case SendPatch(c, f) =>
      if c in s.processes && s.processes[c].Prepared? {
        var p := s.processes[c].patch;
        assert ProcessAsked(actions + [a], s.processes[c]);
        CommitHistory(actions + [a], Forget(s, c), p);
      }
    case Land(p) =>
      if p in s.sent {
        CommitHistory(actions + [a], s.(sent := s.sent - {p}), p);
      }
    case _ =>
  }

  lemma {:induction false} RunHistory(actions: seq<Action>)
    ensures History(actions, Run(Init(), actions))
    decreases |actions|
  {
    if actions != [] {
      var before := actions[..|actions| - 1];
      RunHistory(before);
      HistoryStep(before, Run(Init(), before), actions[|actions| - 1]);
      assert before + [actions[|actions| - 1]] == actions;
      hide History, Apply;
    } else {
      NothingAsked();
      hide History;
    }
  }

  lemma NothingAsked()
    ensures History([], Init())
  {}

  /** Every commit names the holder, and an acquire the Job, of a caller that asked for it. */
  lemma CommitsWereAsked(actions: seq<Action>, i: nat)
    requires i < |Run(Init(), actions).log|
    ensures var e := Run(Init(), actions).log[i];
            if e.Acquired? then e.holder != 0 && AskedToAcquire(actions, e.holder, e.job) else AskedToRelease(actions, e.holder)
  {
    RunHistory(actions);
    LiveLease.RunKeepsInv(actions);
    hide Run, AskedToAcquire, AskedToRelease;
    assert EventAsked(actions, Run(Init(), actions).log[i]);
  }

  /* ---------- what an undisturbed call comes to ---------- */

  /** A free Lease is taken for this holder and Job, at the next version; nothing else changes. */
  lemma AcquireActs(s: State, c: Contender, holder: nat, job: Job, f: Fault)
    requires c !in s.processes && holder != 0 && (f == NoFault || f == LostReply)
    ensures var t, at := Run(s, [ReadToAcquire(c, holder, job), SendPatch(c, f)]), s.lease.rv + 1;
            if s.lease.holder == 0 then t == s.(lease := Lease(at, holder, job), log := s.log + [Acquired(holder, job, at)])
            else t == s
  {
    TwoActions(s, ReadToAcquire(c, holder, job), SendPatch(c, f));
    hide Run;
    assert s.processes[c := Prepared(Take(s.lease.rv, holder, job))] - {c} == s.processes;
  }

  /** The holder's Lease is freed, at the next version, exactly if its Job is not live. */
  lemma ReleaseActs(s: State, c: Contender, holder: nat, f: Fault)
    requires c !in s.processes && holder != 0 && (f == NoFault || f == LostReply)
    ensures var t, rv := Run(s, [ReadToRelease(c, holder), CheckJob(c), SendPatch(c, f)]), s.lease.rv;
            if s.lease.holder == holder && s.lease.job !in s.jobs then
              t == s.(lease := Lease(rv + 1, 0, s.lease.job), log := s.log + [Released(holder, s.lease.job, rv, rv + 1)],
                      absences := s.absences + {(s.lease.job, rv)})
            else t == s
  {
    TwoActions(s, ReadToRelease(c, holder), CheckJob(c));
    assert [ReadToRelease(c, holder), CheckJob(c), SendPatch(c, f)] == [ReadToRelease(c, holder), CheckJob(c)] + [SendPatch(c, f)];
    RunSnoc(s, [ReadToRelease(c, holder), CheckJob(c)], SendPatch(c, f));
    CheckActs(s, c, holder);
    hide Run;
    assert s.processes[c := Prepared(Free(s.lease.rv, holder, s.lease.job, s.lease.rv))] - {c} == s.processes;
  }

  /** The holder's read and Job check: a live Job ends the release, an absent one is noted and the patch prepared. */
  lemma CheckActs(s: State, c: Contender, holder: nat)
    requires c !in s.processes && holder != 0
    ensures Apply(Apply(s, ReadToRelease(c, holder)), CheckJob(c)) ==
            if s.lease.holder != holder || s.lease.job in s.jobs then s
            else s.(processes := s.processes[c := Prepared(Free(s.lease.rv, holder, s.lease.job, s.lease.rv))],
                    absences := s.absences + {(s.lease.job, s.lease.rv)})
  {
    hide Commit;
    assert s.processes[c := Holding(s.lease, holder)] - {c} == s.processes;
  }

  lemma TwoActions(s: State, a: Action, b: Action)
    ensures Run(s, [a, b]) == Apply(Apply(s, a), b)
  {
    hide Apply;
    assert [a, b] == [] + [a] + [b];
    assert Run(s, []) == s;
    RunSnoc(s, [], a);
    RunSnoc(s, [] + [a], b);
  }

  /** A patch built on an older version of the Lease changes nothing, whenever it arrives. */
  lemma StalePatchIsRefused(s: State, p: Patch)
    requires p.rv != s.lease.rv
    ensures var t := Apply(s, Land(p)); t.lease == s.lease && t.log == s.log
  {}

  /** A patch that is late, or still on its way when its sender gives up, lands as if it had been sent then. */
  lemma LatePatchLands(s: State, p: Patch)
    requires p in s.sent && p.rv == s.lease.rv
    ensures var t := Apply(s, Land(p));
            && p !in t.sent && t.lease.rv == s.lease.rv + 1
            && t.lease.holder == (if p.Take? then p.holder else 0) && t.lease.job == (if p.Take? then p.job else s.lease.job)
            && |t.log| == |s.log| + 1
  {}

  /* ---------- the other parties ---------- */

  /** Jobs start and end, other writers raise the version, and a contender gives up: each changes that and nothing else. */
  lemma OthersAct(s: State, c: Contender, job: Job)
    ensures Apply(s, JobStarts(job)) == s.(jobs := s.jobs + {job})
    ensures Apply(s, JobEnds(job)) == s.(jobs := s.jobs - {job})
    ensures var t := Apply(s, Touch); t == s.(lease := t.lease) && t.lease.rv == s.lease.rv + 1 && t.lease.holder == s.lease.holder && t.lease.job == s.lease.job
    ensures var t := Apply(s, Abandon(c)); t == s.(processes := t.processes) && t.processes == s.processes - {c}
  {}

  /** How the sending of a prepared patch can end: without effect, still under way, or at the server. */
  lemma SendEnds(s: State, c: Contender, f: Fault)
    requires c in s.processes && s.processes[c].Prepared?
    ensures var t, p := Apply(s, SendPatch(c, f)), s.processes[c].patch;
            && t.processes == s.processes - {c}
            && t.sent == (if f == Late then s.sent + {p} else s.sent)
            && (f == NoEffect || f == Late || p.rv != s.lease.rv ==> t.lease == s.lease && t.log == s.log)
            && ((f == NoFault || f == LostReply) && p.rv == s.lease.rv ==> t.lease.rv == s.lease.rv + 1 && |t.log| == |s.log| + 1)
  {}
}
