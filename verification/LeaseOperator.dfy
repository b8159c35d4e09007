/**
 The lease script's acquire and release as they run; every execution is one of the
 runs of LiveLease. `fault` says how the patch of the call ends.
 */
module LeaseOperator {
  import opened LiveLease
  import LeaseHistory

  class Cluster {
    var lease: Lease
    var jobs: set<Job>
    ghost var sent: set<Patch>
    ghost var log: seq<Event>
    ghost var absences: set<(Job, nat)>

    constructor ()
      ensures At(map[]) == Init()
    {
      lease, jobs, sent, log, absences := Lease(1, 0, 0), {}, {}, [], {};
    }

    ghost function At(processes: map<Contender, Process>): State
      reads this
    {
      State(lease, jobs, processes, sent, log, absences)
    }

    /** The server tests the version and applies all or nothing; the reply, or the patch itself, may be late. */
    method Send(p: Patch, fault: Fault, ghost c: Contender, ghost start: State, ghost prefix: seq<Action>) returns (ok: bool, ghost trace: seq<Action>)
      requires Run(start, prefix) == At(map[c := Prepared(p)])
      modifies this
      ensures Run(start, trace) == At(map[])
      ensures jobs == old(jobs) && absences == old(absences)
      ensures ok <==> fault == NoFault && p.rv == old(lease).rv
      ensures sent == if fault == Late then old(sent) + {p} else old(sent)
      ensures if (fault == NoFault || fault == LostReply) && p.rv == old(lease).rv then
                && lease == (if p.Take? then Lease(p.rv + 1, p.holder, p.job) else Lease(p.rv + 1, 0, old(lease).job))
                && log == old(log) + [if p.Take? then Acquired(p.holder, p.job, lease.rv) else Released(p.holder, p.job, p.checked, lease.rv)]
              else lease == old(lease) && log == old(log)
    {
      hide Run;
      RunSnoc(start, prefix, SendPatch(c, fault));
      trace := prefix + [SendPatch(c, fault)];
      assert map[c := Prepared(p)] - {c} == map[];
      ok := false;
      if fault == NoEffect {
        return;
      }
      if fault == Late {
        sent := sent + {p};
        return;
      }
      if lease.rv == p.rv {
        match p {
          case Take(rv, holder, job) =>
            lease := Lease(rv + 1, holder, job);
            log := log + [Acquired(holder, job, rv + 1)];
          case Free(rv, holder, job, checked) =>
            lease := lease.(rv := rv + 1, holder := 0);
            log := log + [Released(holder, job, checked, rv + 1)];
        }
        ok := fault == NoFault;
      }
    }

    /** A held lease is refused; a free one is taken at the version that was read. */
    method Acquire(ghost c: Contender, holder: nat, job: Job, fault: Fault) returns (ok: bool, ghost trace: seq<Action>)
      requires holder != 0
      modifies this
      ensures Run(old(At(map[])), trace) == At(map[])
      ensures jobs == old(jobs) && absences == old(absences)
      ensures ok <==> old(lease).holder == 0 && fault == NoFault
      ensures if old(lease).holder == 0 && (fault == NoFault || fault == LostReply) then
                && lease == Lease(old(lease).rv + 1, holder, job)
                && log == old(log) + [Acquired(holder, job, lease.rv)]
              else lease == old(lease) && log == old(log)
    {
      ghost var start := At(map[]);
      assert Run(start, []) == start;
      hide Run;
      ok, trace := false, [];
      var current := lease;
      if current.holder != 0 {
        return;
      }
      RunSnoc(start, trace, ReadToAcquire(c, holder, job));
      trace := trace + [ReadToAcquire(c, holder, job)];
      ok, trace := Send(Take(current.rv, holder, job), fault, c, start, trace);
    }

    /** Only the holder releases, and only after it found the recorded Job absent. */
    method Release(ghost c: Contender, holder: nat, fault: Fault) returns (ok: bool, ghost trace: seq<Action>)
      requires holder != 0
      modifies this
      ensures Run(old(At(map[])), trace) == At(map[])
      ensures jobs == old(jobs)
      ensures ok <==> old(lease).holder == holder && old(lease).job !in jobs && fault == NoFault
      ensures if old(lease).holder == holder && old(lease).job !in jobs && (fault == NoFault || fault == LostReply) then
                && lease == Lease(old(lease).rv + 1, 0, old(lease).job)
                && log == old(log) + [Released(holder, lease.job, old(lease).rv, lease.rv)]
              else lease == old(lease) && log == old(log)
    {
      ghost var start := At(map[]);
      assert Run(start, []) == start;
      hide Run, Apply;
      ok, trace := false, [];
      var current := lease;
      if current.holder != holder {
        return;
      }
      LeaseHistory.CheckActs(start, c, holder);
      RunSnoc(start, trace, ReadToRelease(c, holder));
      trace := trace + [ReadToRelease(c, holder)];
      RunSnoc(start, trace, CheckJob(c));
      trace := trace + [CheckJob(c)];
      if current.job in jobs {
        return;
      }
      absences := absences + {(current.job, lease.rv)};
      ok, trace := Send(Free(current.rv, holder, current.job, lease.rv), fault, c, start, trace);
    }
  }
}
