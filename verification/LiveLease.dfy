/**
 The shared live-test Lease: any number of contenders read it, and change it only
 with a patch that tests the resource version they read. Reads go stale, replies
 are lost, and a patch whose reply was lost can land later.
 */
module LiveLease {
  type Contender = nat
  type Job = nat

  /** Holder 0 is the empty identity. */
  datatype Lease = Lease(rv: nat, holder: nat, job: Job)

  datatype Patch = Take(rv: nat, holder: nat, job: Job) | Free(rv: nat, holder: nat, job: Job, checked: nat)

  /** `at` is the resource version of the commit, `checked` that of the Lease when the Job was found absent. */
  datatype Event = Acquired(holder: nat, job: Job, at: nat) | Released(holder: nat, job: Job, checked: nat, at: nat)

  datatype Process = Holding(snapshot: Lease, holder: nat) | Prepared(patch: Patch)

  datatype Fault = NoFault | NoEffect | LostReply | Late

  datatype State = State(
    lease: Lease, jobs: set<Job>, processes: map<Contender, Process>, sent: set<Patch>,
    log: seq<Event>, absences: set<(Job, nat)>)

  datatype Action =
    | ReadToAcquire(c: Contender, holder: nat, job: Job)
    | ReadToRelease(c: Contender, holder: nat)
    | CheckJob(c: Contender)
    | SendPatch(c: Contender, fault: Fault)
    | Land(patch: Patch)
    | Abandon(c: Contender)
    | JobStarts(job: Job)
    | JobEnds(job: Job)
    | Touch

  function Init(): State {
    State(Lease(1, 0, 0), {}, map[], {}, [], {})
  }

  /** RFC 6902 `test` on the resource version rejects the whole patch when the Lease has changed. */
  function Commit(s: State, p: Patch): State {
    if s.lease.rv != p.rv then s
    else match p
      case Take(rv, holder, job) =>
        s.(lease := Lease(rv + 1, holder, job), log := s.log + [Acquired(holder, job, rv + 1)])
      case Free(rv, holder, job, checked) =>
        s.(lease := s.lease.(rv := rv + 1, holder := 0), log := s.log + [Released(holder, job, checked, rv + 1)])
  }

  function Forget(s: State, c: Contender): State {
    s.(processes := s.processes - {c})
  }

  function Apply(s: State, a: Action): State {
    match a
    case ReadToAcquire(c, holder, job) =>
      if c in s.processes || holder == 0 || s.lease.holder != 0 then s
      else s.(processes := s.processes[c := Prepared(Take(s.lease.rv, holder, job))])
    case ReadToRelease(c, holder) =>
      if c in s.processes || holder == 0 || s.lease.holder != holder then s
      else s.(processes := s.processes[c := Holding(s.lease, holder)])
    case CheckJob(c) =>
      if c !in s.processes || !s.processes[c].Holding? then s
      else
        var k := s.processes[c];
        if k.snapshot.job in s.jobs then Forget(s, c)
        else
          s.(processes := s.processes[c := Prepared(Free(k.snapshot.rv, k.holder, k.snapshot.job, s.lease.rv))],
             absences := s.absences + {(k.snapshot.job, s.lease.rv)})
    case SendPatch(c, f) =>
      if c !in s.processes || !s.processes[c].Prepared? then s
      else
        var p := s.processes[c].patch;
        if f == NoEffect then Forget(s, c)
        else if f == Late then Forget(s, c).(sent := s.sent + {p})
        else Commit(Forget(s, c), p)
    case Land(p) => if p in s.sent then Commit(s.(sent := s.sent - {p}), p) else s
    case Abandon(c) => Forget(s, c)
    case JobStarts(job) => s.(jobs := s.jobs + {job})
    case JobEnds(job) => s.(jobs := s.jobs - {job})
    case Touch => s.(lease := s.lease.(rv := s.lease.rv + 1))
  }

  function Run(s: State, actions: seq<Action>): State
    decreases |actions|
  {
    if actions == [] then s else Apply(Run(s, actions[..|actions| - 1]), actions[|actions| - 1])
  }

  lemma RunSnoc(s: State, actions: seq<Action>, a: Action)
    ensures Run(s, actions + [a]) == Apply(Run(s, actions), a)
  {
    hide Apply;
    assert (actions + [a])[..|actions|] == actions;
  }

  /* ---------- what every step keeps ---------- */

  /** One release answers one acquire: same holder, same Job, and its Job check fell inside the holding. */
  predicate Answers(acquired: Event, released: Event, absences: set<(Job, nat)>) {
    && acquired.Acquired? && released.Released?
    && released.holder == acquired.holder && released.job == acquired.job
    && acquired.at <= released.checked < released.at
    && (released.job, released.checked) in absences
  }

  /** Commits alternate, starting with an acquire. */
  predicate Alternates(log: seq<Event>, absences: set<(Job, nat)>) {
    && (log != [] ==> log[0].Acquired?)
    && (forall i :: 0 < i < |log| ==> if log[i - 1].Acquired? then Answers(log[i - 1], log[i], absences) else log[i].Acquired?)
    && (forall i :: 0 <= i < |log| && log[i].Acquired? ==> log[i].holder != 0)
  }

  predicate Taken(log: seq<Event>) {
    log != [] && log[|log| - 1].Acquired?
  }

  /** The stored Lease is the state that the log describes. */
  predicate LeaseOk(lease: Lease, log: seq<Event>) {
    && (lease.holder != 0 <==> Taken(log))
    && (Taken(log) ==> var last := log[|log| - 1]; last.holder == lease.holder && last.job == lease.job && last.at <= lease.rv)
  }

  /** A patch that still applies was built on the Lease as it stands, and a release saw the Job absent under it. */
  predicate PatchOk(s: State, p: Patch) {
    && p.rv <= s.lease.rv && p.holder != 0
    && (p.Take? && p.rv == s.lease.rv ==> s.lease.holder == 0)
    && (p.Free? ==>
          && p.rv <= p.checked <= s.lease.rv
          && (p.job, p.checked) in s.absences
          && (p.rv == s.lease.rv ==> s.lease.holder == p.holder && s.lease.job == p.job))
  }

  predicate ProcessOk(s: State, k: Process) {
    match k
    case Holding(snapshot, holder) =>
      snapshot.rv <= s.lease.rv && holder != 0 && snapshot.holder == holder && (snapshot.rv == s.lease.rv ==> snapshot == s.lease)
    case Prepared(p) => PatchOk(s, p)
  }

  predicate Inv(s: State) {
    && Alternates(s.log, s.absences)
    && LeaseOk(s.lease, s.log)
    && (forall p :: p in s.sent ==> PatchOk(s, p))
    && (forall c :: c in s.processes ==> ProcessOk(s, s.processes[c]))
  }

  /** What a commit or another change leaves true of every patch and process built before it. */
  predicate Newer(s: State, t: State) {
    s.absences <= t.absences && (t.lease == s.lease || s.lease.rv < t.lease.rv)
  }

  lemma NewerKeepsOk(s: State, t: State)
    requires Newer(s, t)
    ensures forall p :: PatchOk(s, p) ==> PatchOk(t, p)
    ensures forall k :: ProcessOk(s, k) ==> ProcessOk(t, k)
  {}

  lemma CommitKeepsLog(s: State, p: Patch)
    requires Alternates(s.log, s.absences) && LeaseOk(s.lease, s.log) && PatchOk(s, p)
    ensures var t := Commit(s, p); Alternates(t.log, t.absences) && LeaseOk(t.lease, t.log) && Newer(s, t)
  {}

  lemma CommitKeepsInv(s: State, p: Patch)
    requires Inv(s) && PatchOk(s, p)
    ensures Inv(Commit(s, p))
  {
    CommitKeepsLog(s, p);
    NewerKeepsOk(s, Commit(s, p));
    hide Alternates, LeaseOk, PatchOk, ProcessOk;
  }

  /** A step that commits nothing adds only sound patches and processes. */
  lemma QuietKeepsInv(s: State, t: State)
    requires Inv(s) && Newer(s, t) && t.log == s.log
    requires t.lease == s.lease.(rv := t.lease.rv)
    requires forall p :: p in t.sent ==> p in s.sent || PatchOk(t, p)
    requires forall c :: c in t.processes ==> (c in s.processes && t.processes[c] == s.processes[c]) || ProcessOk(t, t.processes[c])
    ensures Inv(t)
  {
    NewerKeepsOk(s, t);
    assert Alternates(t.log, t.absences);
    hide PatchOk, ProcessOk, Alternates;
  }

  lemma CheckKeepsInv(s: State, c: Contender)
    requires Inv(s)
    ensures Inv(Apply(s, CheckJob(c)))
  {
    var t := Apply(s, CheckJob(c));
    if c in s.processes && s.processes[c].Holding? && s.processes[c].snapshot.job !in s.jobs {
      assert ProcessOk(s, s.processes[c]);
      assert ProcessOk(t, t.processes[c]);
    }
    hide Alternates, LeaseOk;
    QuietKeepsInv(s, t);
  }

  lemma ReadKeepsInv(s: State, a: Action)
    requires Inv(s) && (a.ReadToAcquire? || a.ReadToRelease?)
    ensures Inv(Apply(s, a))
  {
    hide Alternates, LeaseOk;
    QuietKeepsInv(s, Apply(s, a));
  }

  lemma SendKeepsInv(s: State, c: Contender, f: Fault)
    requires Inv(s) && c in s.processes && s.processes[c].Prepared?
    ensures Inv(Apply(s, SendPatch(c, f)))
  {
    assert ProcessOk(s, s.processes[c]);
    QuietKeepsInv(s, Forget(s, c));
    hide Inv;
    if f == Late {
      QuietKeepsInv(Forget(s, c), Forget(s, c).(sent := s.sent + {s.processes[c].patch}));
    } else if f != NoEffect {
      CommitKeepsInv(Forget(s, c), s.processes[c].patch);
    }
  }

  lemma StepKeepsInv(s: State, a: Action)
    requires Inv(s)
    ensures Inv(Apply(s, a))
  {
    hide Inv, Commit;
    match a
    case SendPatch(c, f) => if c in s.processes && s.processes[c].Prepared? { SendKeepsInv(s, c, f); }
    case Land(p) =>
      if p in s.sent {
        assert PatchOk(s, p) by { InvSent(s, p); }
        QuietKeepsInv(s, s.(sent := s.sent - {p}));
        CommitKeepsInv(s.(sent := s.sent - {p}), p);
      }
    case CheckJob(c) => CheckKeepsInv(s, c);
    case ReadToAcquire(_, _, _) => ReadKeepsInv(s, a);
    case ReadToRelease(_, _) => ReadKeepsInv(s, a);
    case _ => QuietKeepsInv(s, Apply(s, a));
  }

  lemma InvSent(s: State, p: Patch)
    requires Inv(s) && p in s.sent
    ensures PatchOk(s, p)
  {}

  lemma {:induction false} RunKeepsInv(actions: seq<Action>)
    ensures Inv(Run(Init(), actions))
    decreases |actions|
  {
    if actions != [] {
      RunKeepsInv(actions[..|actions| - 1]);
      StepKeepsInv(Run(Init(), actions[..|actions| - 1]), actions[|actions| - 1]);
      hide Inv, Apply;
    }
  }

  /* ---------- mutual exclusion ---------- */

  /** Between a committed acquire and the next acquire stands the release of its own holder, whose Job check fell inside that holding. */
  lemma HoldingsNeverOverlap(actions: seq<Action>, i: nat, j: nat)
    requires i < j < |Run(Init(), actions).log|
    requires Run(Init(), actions).log[i].Acquired? && Run(Init(), actions).log[j].Acquired?
    ensures var s := Run(Init(), actions); i + 1 < j && Answers(s.log[i], s.log[i + 1], s.absences)
  {
    RunKeepsInv(actions);
    var s := Run(Init(), actions);
    assert Answers(s.log[i], s.log[i + 1], s.absences);
    hide Run;
  }

  /** Every release that ever commits answers the acquire just before it. */
  lemma ReleaseOnlyByHolder(actions: seq<Action>, i: nat)
    requires i < |Run(Init(), actions).log| && Run(Init(), actions).log[i].Released?
    ensures var s := Run(Init(), actions); i > 0 && Answers(s.log[i - 1], s.log[i], s.absences)
  {
    RunKeepsInv(actions);
    hide Run;
  }

  /** The Lease names a holder exactly while the last commit is that holder's acquire. */
  lemma LeaseShowsHolder(actions: seq<Action>)
    ensures var s := Run(Init(), actions);
            s.lease.holder != 0 <==> s.log != [] && s.log[|s.log| - 1].Acquired? && s.log[|s.log| - 1].holder == s.lease.holder
  {
    RunKeepsInv(actions);
    hide Run;
  }

  /** Each recorded absence was a real one: it enters only when the Job is not among the live Jobs. */
  lemma AbsenceIsObserved(s: State, a: Action, job: Job, rv: nat)
    requires (job, rv) in Apply(s, a).absences && (job, rv) !in s.absences
    ensures a.CheckJob? && job !in s.jobs && rv == s.lease.rv
  {}
}
