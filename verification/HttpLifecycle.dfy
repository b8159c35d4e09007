/**
 Two shared objects of the HTTP process: the request counter that a drain waits
 on, and the bounded diagnostic queue. Each critical section is one action, and so
 is each step of the diagnostic worker; they interleave in any order.
 */
module HttpLifecycle {
  /* ---------- request drain ---------- */

  type Handler = nat

  /** `running` names the handlers inside the wrapped chain; `closes` counts the closes of the drained channel. */
  datatype Requests = Requests(active: int, stopped: bool, closes: nat, running: set<Handler>)

  datatype RequestAction = Enter(h: Handler) | Leave(h: Handler) | Stop

  const NO_REQUESTS := Requests(0, false, 0, {})

  /** A stopped server refuses the request; an admitted one is counted before it runs. */
  function EnterStep(r: Requests, h: Handler): Requests {
    if r.stopped || h in r.running then r else r.(active := r.active + 1, running := r.running + {h})
  }

  function LeaveStep(r: Requests, h: Handler): Requests {
    if h !in r.running then r
    else
      var left := r.(active := r.active - 1, running := r.running - {h});
      if left.stopped && left.active == 0 then left.(closes := left.closes + 1) else left
  }

  function StopStep(r: Requests): Requests {
    if r.stopped then r
    else if r.active == 0 then r.(stopped := true, closes := r.closes + 1)
    else r.(stopped := true)
  }

  function RequestStep(r: Requests, a: RequestAction): Requests {
    match a
    case Enter(h) => EnterStep(r, h)
    case Leave(h) => LeaveStep(r, h)
    case Stop => StopStep(r)
  }

  function Serve(r: Requests, actions: seq<RequestAction>): Requests
    decreases |actions|
  {
    if actions == [] then r else RequestStep(Serve(r, actions[..|actions| - 1]), actions[|actions| - 1])
  }

  predicate RequestsOk(r: Requests) {
    && r.active == |r.running|
    && r.closes == (if r.stopped && r.running == {} then 1 else 0)
  }

  lemma RequestStepKeepsOk(r: Requests, a: RequestAction)
    requires RequestsOk(r)
    ensures RequestsOk(RequestStep(r, a))
  {}

  /** On every run the counter is exact, and the channel is closed once, exactly when stopped with no handler running. */
  lemma {:induction false} DrainedExactly(actions: seq<RequestAction>)
    ensures RequestsOk(Serve(NO_REQUESTS, actions))
    decreases |actions|
  {
    if actions != [] {
      DrainedExactly(actions[..|actions| - 1]);
      RequestStepKeepsOk(Serve(NO_REQUESTS, actions[..|actions| - 1]), actions[|actions| - 1]);
    }
  }

  /** A drain that found the channel closed: no handler runs, and none is admitted by any continuation. */
  lemma {:induction false} DrainIsFinal(before: seq<RequestAction>, after: seq<RequestAction>)
    requires Serve(NO_REQUESTS, before).closes > 0
    ensures Serve(Serve(NO_REQUESTS, before), after) == Serve(NO_REQUESTS, before)
    ensures Serve(NO_REQUESTS, before).running == {}
    decreases |after|
  {
    DrainedExactly(before);
    if after != [] {
      DrainIsFinal(before, after[..|after| - 1]);
    }
  }

  /** This request entered before any stop, and its handler has not left since. */
  ghost predicate Inside(actions: seq<RequestAction>, h: Handler) {
    exists k :: 0 <= k < |actions| && actions[k] == Enter(h) && Stop !in actions[..k] && Leave(h) !in actions[k + 1..]
  }

  lemma InsideNext(actions: seq<RequestAction>, a: RequestAction, h: Handler)
    ensures Inside(actions + [a], h) <==> if a == Enter(h) && Stop !in actions then true else Inside(actions, h) && a != Leave(h)
  {
    var all := actions + [a];
    forall k | 0 <= k < |actions|
      ensures all[..k] == actions[..k] && all[k + 1..] == actions[k + 1..] + [a] && all[k] == actions[k]
    {}
    assert all[..|actions|] == actions && all[|actions|] == a && all[|actions| + 1..] == [];
    if Inside(actions, h) && a != Leave(h) {
      var k :| 0 <= k < |actions| && actions[k] == Enter(h) && Stop !in actions[..k] && Leave(h) !in actions[k + 1..];
      assert all[k] == Enter(h) && Leave(h) !in all[k + 1..];
    }
  }

  /** The calls of a run alone say which handlers run and whether the server stopped: a refused request is never inside. */
  lemma {:induction false} RunningFollowsCalls(actions: seq<RequestAction>, h: Handler)
    ensures h in Serve(NO_REQUESTS, actions).running <==> Inside(actions, h)
    ensures Serve(NO_REQUESTS, actions).stopped <==> Stop in actions
    decreases |actions|
  {
    if actions != [] {
      var n := |actions| - 1;
      RunningFollowsCalls(actions[..n], h);
      InsideNext(actions[..n], actions[n], h);
      assert actions == actions[..n] + [actions[n]];
      hide Inside;
    }
  }

  /** The channel is closed exactly once the server was stopped and every request that it admitted has left. */
  lemma ClosedExactlyWhenLeft(actions: seq<RequestAction>)
    ensures Serve(NO_REQUESTS, actions).closes == (if Stop in actions && forall h: Handler :: !Inside(actions, h) then 1 else 0)
  {
    DrainedExactly(actions);
    forall h: Handler
      ensures h in Serve(NO_REQUESTS, actions).running <==> Inside(actions, h)
    {
      RunningFollowsCalls(actions, h);
    }
    RunningFollowsCalls(actions, 0);
    hide Serve, Inside;
  }

  function Leaves(order: seq<Handler>): seq<RequestAction> {
    seq(|order|, i requires 0 <= i < |order| => Leave(order[i]))
  }

  lemma LeaveStops(r: Requests, h: Handler)
    requires RequestsOk(r) && r.stopped
    ensures var t := LeaveStep(r, h); RequestsOk(t) && t.stopped && t.running == r.running - {h}
  {}

  lemma {:induction false} LeavesRun(r: Requests, order: seq<Handler>)
    requires RequestsOk(r) && r.stopped
    ensures var t := Serve(r, Leaves(order));
            RequestsOk(t) && t.stopped && forall h :: h in t.running ==> h in r.running && h !in order
    decreases |order|
  {
    if order != [] {
      var n := |order| - 1;
      LeavesRun(r, order[..n]);
      assert Leaves(order)[..n] == Leaves(order[..n]);
      assert order == order[..n] + [order[n]];
      LeaveStops(Serve(r, Leaves(order[..n])), order[n]);
      hide RequestsOk, LeaveStep;
    } else {
      assert Leaves(order) == [];
    }
  }

  /** A stopped server does drain: once the running handlers have left, in any order, the channel is closed. */
  lemma LeavesDrain(r: Requests, order: seq<Handler>)
    requires RequestsOk(r) && r.stopped
    requires forall h :: h in r.running ==> h in order
    ensures Serve(r, Leaves(order)).closes == 1
  {
    LeavesRun(r, order);
    assert Serve(r, Leaves(order)).running == {};
    hide Serve;
  }

  /* ---------- diagnostics ---------- */

  const CAPACITY: nat := 256

  /**
   `queue` counts the queued event times. The worker starts with the first one;
   `sentAfterClose` and `queueCloses` count what would panic.
   */
  datatype Diagnostics = Diagnostics(
    started: bool, closed: bool, queue: nat, queueCloses: nat, sentAfterClose: nat, doneCloses: nat,
    writes: nat, consumed: nat, dropped: nat)

  datatype DiagnosticAction = WriteEvent | Consume | WorkerExit | Close

  const NO_DIAGNOSTICS := Diagnostics(false, false, 0, 0, 0, 0, 0, 0, 0)

  function WriteStep(d: Diagnostics): Diagnostics {
    var w := d.(writes := d.writes + 1);
    if w.closed then w.(dropped := w.dropped + 1)
    else
      var live := w.(started := true);
      if live.queue < CAPACITY then
        live.(queue := live.queue + 1, sentAfterClose := live.sentAfterClose + (if live.queueCloses > 0 then 1 else 0))
      else live.(dropped := live.dropped + 1)
  }

  function CloseStep(d: Diagnostics): Diagnostics {
    if d.closed then d
    else if d.started then d.(closed := true, queueCloses := d.queueCloses + 1)
    else d.(closed := true, doneCloses := d.doneCloses + 1)
  }

  /** The worker drains the queue; it ends when the queue is closed and empty. */
  predicate WorkerRuns(d: Diagnostics) {
    d.started && d.doneCloses == 0
  }

  function DiagnosticStep(d: Diagnostics, a: DiagnosticAction): Diagnostics {
    match a
    case WriteEvent => WriteStep(d)
    case Consume => if WorkerRuns(d) && d.queue > 0 then d.(queue := d.queue - 1, consumed := d.consumed + 1) else d
    case WorkerExit => if WorkerRuns(d) && d.queue == 0 && d.queueCloses > 0 then d.(doneCloses := d.doneCloses + 1) else d
    case Close => CloseStep(d)
  }

  function Diagnose(d: Diagnostics, actions: seq<DiagnosticAction>): Diagnostics
    decreases |actions|
  {
    if actions == [] then d else DiagnosticStep(Diagnose(d, actions[..|actions| - 1]), actions[|actions| - 1])
  }

  function Count(actions: seq<DiagnosticAction>, a: DiagnosticAction): nat
    decreases |actions|
  {
    if actions == [] then 0 else Count(actions[..|actions| - 1], a) + (if actions[|actions| - 1] == a then 1 else 0)
  }

  /** Every write of a run is counted, and the log is closed exactly if it was asked to close. */
  lemma {:induction false} DiagnosticsFollowCalls(actions: seq<DiagnosticAction>)
    ensures Diagnose(NO_DIAGNOSTICS, actions).writes == Count(actions, WriteEvent)
    ensures Diagnose(NO_DIAGNOSTICS, actions).closed <==> Close in actions
    decreases |actions|
  {
    if actions != [] {
      var n := |actions| - 1;
      DiagnosticsFollowCalls(actions[..n]);
      assert actions == actions[..n] + [actions[n]];
    }
  }

  /** A write is dropped only by a closed or full log, and is queued otherwise; the first one starts the worker. */
  lemma WriteOutcome(d: Diagnostics)
    ensures var t := DiagnosticStep(d, WriteEvent);
            && (t.dropped == d.dropped + 1 && t.queue == d.queue <==> d.closed || d.queue >= 256)
            && (t.dropped == d.dropped && t.queue == d.queue + 1 <==> !d.closed && d.queue < 256)
            && (!d.closed ==> t.started) && t.closed == d.closed && t.consumed == d.consumed
  {}

  /** Whether the log is open or closed, a worker takes what is queued, and it ends only at a closed and empty queue. */
  lemma WorkerOutcome(d: Diagnostics)
    requires DiagnosticsOk(d) && d.started && d.doneCloses == 0
    ensures d.queue > 0 ==> DiagnosticStep(d, Consume) == d.(queue := d.queue - 1, consumed := d.consumed + 1)
    ensures d.queue > 0 || !d.closed ==> DiagnosticStep(d, WorkerExit) == d
    ensures d.queue == 0 && d.closed ==> DiagnosticStep(d, WorkerExit) == d.(doneCloses := 1)
  {}

  predicate DiagnosticsOk(d: Diagnostics) {
    && d.writes == d.queue + d.consumed + d.dropped
    && d.queue <= CAPACITY
    && d.sentAfterClose == 0
    && d.queueCloses == (if d.closed && d.started then 1 else 0)
    && d.doneCloses <= 1
    && (!d.started ==> d.queue == 0 && (d.doneCloses == 1 <==> d.closed))
    && (d.started && d.doneCloses == 1 ==> d.closed && d.queue == 0)
  }

  lemma DiagnosticStepKeepsOk(d: Diagnostics, a: DiagnosticAction)
    requires DiagnosticsOk(d)
    ensures DiagnosticsOk(DiagnosticStep(d, a))
  {}

  /**
   On every run diagnostics are conserved within the bound, nothing is sent on a
   closed queue, and `done` is closed at most once: by the worker when it started,
   by the close when it never did.
   */
  lemma {:induction false} DiagnosticsConserved(actions: seq<DiagnosticAction>)
    ensures DiagnosticsOk(Diagnose(NO_DIAGNOSTICS, actions))
    decreases |actions|
  {
    if actions != [] {
      DiagnosticsConserved(actions[..|actions| - 1]);
      DiagnosticStepKeepsOk(Diagnose(NO_DIAGNOSTICS, actions[..|actions| - 1]), actions[|actions| - 1]);
    }
  }

  /** After a close, the worker needs only its queued events to finish: `done` is then closed and nothing stays queued. */
  lemma {:induction false} CloseFinishes(d: Diagnostics, n: nat)
    requires DiagnosticsOk(d) && d.closed && n == d.queue
    ensures var t := Diagnose(d, seq(n, _ => Consume) + [WorkerExit]); t.doneCloses == 1 && t.queue == 0
  {
    ConsumesAll(d, n);
    var all := seq(n, _ => Consume) + [WorkerExit];
    assert all[..|all| - 1] == seq(n, _ => Consume);
  }

  lemma {:induction false} ConsumesAll(d: Diagnostics, n: nat)
    requires DiagnosticsOk(d) && d.closed && n <= d.queue
    ensures Diagnose(d, seq(n, _ => Consume)) == d.(queue := d.queue - n, consumed := d.consumed + n)
    decreases n
  {
    if n > 0 {
      ConsumesAll(d, n - 1);
      assert seq(n, _ => Consume)[..n - 1] == seq(n - 1, _ => Consume);
    }
  }
}
