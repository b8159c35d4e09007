/**
 The request counter and the diagnostic log as objects. A method body is one
 critical section under the object's mutex. Closing a closed channel, or sending
 on one, would panic: those calls carry the precondition that excludes it.
 */
module HttpServer {
  import opened Common
  import L = HttpLifecycle

  /** A channel that only ever signals by closing. */
  class Signal {
    var closed: bool

    constructor ()
      ensures !closed
    {
      closed := false;
    }

    method Close()
      requires !closed
      modifies this
      ensures closed
    {
      closed := true;
    }
  }

  class RequestTracker {
    var active: int
    var stopped: bool
    const drained: Signal
    ghost var running: set<L.Handler>

    ghost function Snapshot(): L.Requests
      reads this, drained
    {
      L.Requests(active, stopped, if drained.closed then 1 else 0, running)
    }

    ghost predicate Valid()
      reads this, drained
    {
      L.RequestsOk(Snapshot())
    }

    constructor ()
      ensures Valid() && Snapshot() == L.NO_REQUESTS && fresh(drained)
    {
      active, stopped, running := 0, false, {};
      drained := new Signal();
    }

    /** The entry section of one request; a refused one receives 503. */
    method Enter(ghost h: L.Handler) returns (admitted: bool)
      requires Valid() && h !in running
      modifies this
      ensures Valid() && Snapshot() == L.EnterStep(old(Snapshot()), h)
      ensures admitted == !old(stopped) && stopped == old(stopped)
      ensures admitted ==> running == old(running) + {h} && active == old(active) + 1
      ensures !admitted ==> running == old(running) && active == old(active)
      ensures drained.closed == old(drained.closed)
    {
      if stopped {
        return false;
      }
      active := active + 1;
      running := running + {h};
      return true;
    }

    /** The deferred exit section of an admitted request. */
    method Leave(ghost h: L.Handler)
      requires Valid() && h in running
      modifies this, drained
      ensures Valid() && Snapshot() == L.LeaveStep(old(Snapshot()), h)
      ensures running == old(running) - {h} && active == old(active) - 1 && stopped == old(stopped)
      ensures drained.closed <==> stopped && running == {}
    {
      active := active - 1;
      running := running - {h};
      if stopped && active == 0 {
        drained.Close();
      }
    }

    /** The drain section and its first look at the channel: true is the nil result. */
    method Drain() returns (finished: bool)
      requires Valid()
      modifies this, drained
      ensures Valid() && Snapshot() == L.StopStep(old(Snapshot()))
      ensures stopped && running == old(running) && active == old(active)
      ensures finished <==> running == {}
      ensures drained.closed <==> running == {}
    {
      if !stopped {
        stopped := true;
        if active == 0 {
          drained.Close();
        }
      }
      return drained.closed;
    }

    /** One look of a waiting drain at its two channels; when both are ready either may be taken. */
    method Await(expired: bool) returns (outcome: Wait)
      requires Valid() && stopped
      ensures outcome == Nil ==> running == {}
      ensures outcome == Expired ==> expired
      ensures outcome == Waiting <==> running != {} && !expired
    {
      if drained.closed {
        var first: bool := *;
        return if expired && first then Expired else Nil;
      }
      return if expired then Expired else Waiting;
    }
  }

  /** How a drain stands: its nil result, its deadline error, or still waiting. */
  datatype Wait = Nil | Expired | Waiting

  /** The queue keeps only event times; a full or closed log counts a drop instead of waiting. */
  class DiagnosticLog {
    var queue: seq<nat>
    var started: bool
    var closed: bool
    var queueClosed: bool
    var dropped: nat
    const done: Signal
    ghost var writes: nat
    ghost var consumed: nat

    ghost function Snapshot(): L.Diagnostics
      reads this, done
    {
      L.Diagnostics(started, closed, |queue|, if queueClosed then 1 else 0, 0, if done.closed then 1 else 0, writes, consumed, dropped)
    }

    ghost predicate Valid()
      reads this, done
    {
      L.DiagnosticsOk(Snapshot())
    }

    constructor ()
      ensures Valid() && Snapshot() == L.NO_DIAGNOSTICS && fresh(done)
    {
      queue, started, closed, queueClosed, dropped, writes, consumed := [], false, false, false, 0, 0, 0;
      done := new Signal();
    }

    method Send(time: nat)
      requires !queueClosed && |queue| < L.CAPACITY
      modifies this`queue
      ensures queue == old(queue) + [time]
    {
      queue := queue + [time];
    }

    method Write(time: nat)
      requires Valid()
      modifies this
      ensures Valid() && Snapshot() == L.WriteStep(old(Snapshot()))
      ensures if !old(closed) && |old(queue)| < 256 then queue == old(queue) + [time] && dropped == old(dropped)
              else queue == old(queue) && dropped == old(dropped) + 1
      ensures closed == old(closed) && (started <==> old(started) || !closed) && queueClosed == old(queueClosed)
      ensures writes == old(writes) + 1 && consumed == old(consumed)
    {
      writes := writes + 1;
      if closed {
        dropped := dropped + 1;
        return;
      }
      if !started {
        started := true;
      }
      if |queue| < L.CAPACITY {
        Send(time);
      } else {
        dropped := dropped + 1;
      }
    }

    /** One turn of the worker: the oldest event, or the end of a closed and empty queue. */
    method Turn() returns (event: Option<nat>)
      requires Valid() && L.WorkerRuns(Snapshot())
      modifies this, done
      ensures Valid()
      ensures Snapshot() == L.DiagnosticStep(old(Snapshot()), if old(queue) != [] then L.Consume else L.WorkerExit)
      ensures old(queue) != [] ==> event == Some(old(queue)[0]) && queue == old(queue)[1..]
      ensures old(queue) == [] ==> event == None && queue == []
      ensures done.closed <==> old(queue) == [] && queueClosed
      ensures closed == old(closed) && queueClosed == old(queueClosed) && dropped == old(dropped)
    {
      if |queue| > 0 {
        event := Some(queue[0]);
        queue := queue[1..];
        consumed := consumed + 1;
        return;
      }
      event := None;
      if queueClosed {
        done.Close();
      }
    }

    method CloseQueue()
      requires !queueClosed
      modifies this`queueClosed
      ensures queueClosed
    {
      queueClosed := true;
    }

    method Close()
      requires Valid()
      modifies this, done
      ensures Valid() && Snapshot() == L.CloseStep(old(Snapshot()))
      ensures closed && queue == old(queue) && dropped == old(dropped) && started == old(started)
      ensures if started then queueClosed && done.closed == old(done.closed) else done.closed && queueClosed == old(queueClosed)
    {
      if !closed {
        closed := true;
        if started {
          CloseQueue();
        } else {
          done.Close();
        }
      }
    }
  }
}
