/**
 The process supervisor: it starts every task, joins every result, and cancels
 the rest on the first failure. One action is one step of the supervisor or of a
 task goroutine, in any order. The two cancellation flags of a task's result are
 read in one step: both only ever rise, so two reads in sequence agree with the
 flags at one of the two moments.
 */
module TaskSupervisor {
  import opened Common

  /** How a task body ends; a panic or an exit without a return is Aborted. */
  datatype Raw = Aborted | Nil | Canceled | Real

  datatype Failure = AbortedBeforeReturn | StoppedBeforeCancellation | Returned(raw: Raw)

  /** `cancelled` is what the task saw of the two contexts after its body had ended. */
  datatype Task = Waiting | Running | Ended(raw: Raw) | Ready(raw: Raw, cancelled: bool) | Sent(raw: Raw, cancelled: bool)

  datatype Phase = Checking | Starting(next: nat) | Collecting | Finished(started: bool)

  /** `queue`, `received` and `failures` name tasks by index; the queue's capacity is the number of tasks. */
  datatype State = State(
    parent: bool, child: bool, phase: Phase, tasks: seq<Task>,
    queue: seq<nat>, received: seq<nat>, failures: seq<nat>)

  datatype Action =
    | CancelParent
    | PropagateCancel
    | Supervise
    | End(i: nat, raw: Raw)
    | Classify(i: nat)
    | Send(i: nat)

  function Init(n: nat): State {
    State(false, false, Checking, seq(n, _ => Waiting), [], [], [])
  }

  predicate Cancelled(s: State) {
    s.parent || s.child
  }

  /** The deferred handler of one task, at the moment it reads the two contexts. */
  function FailureOf(raw: Raw, cancelled: bool): Option<Failure> {
    var error := if raw == Aborted then Some(AbortedBeforeReturn) else if raw == Nil then None else Some(Returned(raw));
    var stopped := if error == None && !cancelled then Some(StoppedBeforeCancellation) else error;
    if stopped == Some(Returned(Canceled)) && cancelled then None else stopped
  }

  predicate Fails(t: Task) {
    t.Sent? && FailureOf(t.raw, t.cancelled).Some?
  }

  /** The supervisor's own next step; Finished states have none. */
  function SuperviseStep(s: State): (t: State)
    ensures |t.tasks| == |s.tasks|
  {
    match s.phase
    case Checking => if Cancelled(s) then s.(phase := Finished(false)) else s.(phase := Starting(0))
    case Starting(k) =>
      if k < |s.tasks| then s.(tasks := s.tasks[k := Running], phase := Starting(k + 1)) else s.(phase := Collecting)
    case Collecting =>
      if |s.received| == |s.tasks| then s.(phase := Finished(true), child := true)
      else if s.queue == [] || s.queue[0] >= |s.tasks| || !s.tasks[s.queue[0]].Sent? then s
      else
        var i := s.queue[0];
        var failed := Fails(s.tasks[i]);
        s.(queue := s.queue[1..], received := s.received + [i],
           child := s.child || failed, failures := if failed then s.failures + [i] else s.failures)
    case Finished(_) => s
  }

  function Apply(s: State, a: Action): (t: State)
    ensures |t.tasks| == |s.tasks|
  {
    match a
    case CancelParent => s.(parent := true)
    case PropagateCancel => if s.parent then s.(child := true) else s
    case Supervise => SuperviseStep(s)
    case End(i, raw) => if i < |s.tasks| && s.tasks[i] == Running then s.(tasks := s.tasks[i := Ended(raw)]) else s
    case Classify(i) =>
      if i < |s.tasks| && s.tasks[i].Ended? then
        s.(tasks := s.tasks[i := Ready(s.tasks[i].raw, Cancelled(s))])
      else s
    case Send(i) =>
      if i < |s.tasks| && s.tasks[i].Ready? && |s.queue| < |s.tasks| then
        s.(tasks := s.tasks[i := Sent(s.tasks[i].raw, s.tasks[i].cancelled)], queue := s.queue + [i])
      else s
  }

  function Run(s: State, actions: seq<Action>): (t: State)
    ensures |t.tasks| == |s.tasks|
    decreases |actions|
  {
    if actions == [] then s else Apply(Run(s, actions[..|actions| - 1]), actions[|actions| - 1])
  }

  /* ---------- what every step keeps ---------- */

  function Weight(t: Task): nat {
    match t
    case Waiting => 4
    case Running => 3
    case Ended(_) => 2
    case Ready(_, _) => 1
    case Sent(_, _) => 0
  }

  function Steps(tasks: seq<Task>): nat {
    if tasks == [] then 0 else Weight(tasks[0]) + Steps(tasks[1..])
  }

  function Unsent(tasks: seq<Task>): nat {
    if tasks == [] then 0 else (if tasks[0].Sent? then 0 else 1) + Unsent(tasks[1..])
  }

  lemma {:induction false} UpdateCounts(tasks: seq<Task>, i: nat, t: Task)
    requires i < |tasks|
    ensures Steps(tasks[i := t]) == Steps(tasks) - Weight(tasks[i]) + Weight(t)
    ensures Unsent(tasks[i := t]) == Unsent(tasks) - (if tasks[i].Sent? then 0 else 1) + (if t.Sent? then 0 else 1)
  {
    if i == 0 {
      assert tasks[0 := t][1..] == tasks[1..];
    } else {
      assert tasks[i := t][1..] == tasks[1..][i - 1 := t];
      UpdateCounts(tasks[1..], i - 1, t);
    }
  }

  lemma {:induction false} UnsentCounts(tasks: seq<Task>)
    ensures Unsent(tasks) == 0 <==> forall i :: 0 <= i < |tasks| ==> tasks[i].Sent?
    ensures Unsent(tasks) <= |tasks|
    ensures (forall i :: 0 <= i < |tasks| ==> !tasks[i].Sent?) ==> Unsent(tasks) == |tasks|
  {
    if tasks != [] {
      UnsentCounts(tasks[1..]);
      assert forall i :: 1 <= i < |tasks| ==> tasks[i] == tasks[1..][i - 1];
    }
  }

  predicate Distinct(s: seq<nat>) {
    forall j, k :: 0 <= j < k < |s| ==> s[j] != s[k]
  }

  /** Every result sent is queued or received exactly once. */
  ghost predicate ResultsOk(s: State) {
    var all := s.received + s.queue;
    && Distinct(all)
    && (forall i: nat :: i in all <==> i < |s.tasks| && s.tasks[i].Sent?)
    && |all| + Unsent(s.tasks) == |s.tasks|
  }

  predicate PhaseOk(s: State) {
    match s.phase
    case Checking => forall i :: 0 <= i < |s.tasks| ==> s.tasks[i] == Waiting
    case Starting(k) => k <= |s.tasks| && forall i :: 0 <= i < |s.tasks| ==> (s.tasks[i] == Waiting <==> k <= i)
    case Collecting => forall i :: 0 <= i < |s.tasks| ==> s.tasks[i] != Waiting
    case Finished(started) =>
      && (forall i :: 0 <= i < |s.tasks| ==> if started then s.tasks[i].Sent? else s.tasks[i] == Waiting)
      && (!started ==> Cancelled(s))
      && (started ==> |s.received| == |s.tasks|)
  }

  ghost predicate FailuresOk(s: State) {
    && Distinct(s.failures)
    && (forall i: nat :: i in s.failures <==> i in s.received && i < |s.tasks| && Fails(s.tasks[i]))
    && (s.failures != [] ==> s.child)
    && (s.child && !s.parent && !s.phase.Finished? ==> s.failures != [])
    && (forall i :: 0 <= i < |s.tasks| && (s.tasks[i].Ready? || s.tasks[i].Sent?) && s.tasks[i].cancelled ==>
          s.parent || s.failures != [])
  }

  ghost predicate Inv(s: State) {
    ResultsOk(s) && PhaseOk(s) && FailuresOk(s)
  }

  lemma InitInv(n: nat)
    ensures Inv(Init(n))
  {
    UnsentCounts(Init(n).tasks);
  }

  lemma TaskKeepsInv(s: State, i: nat, t: Task)
    requires Inv(s) && i < |s.tasks| && !s.tasks[i].Sent? && s.tasks[i] != Waiting && t != Waiting && !t.Sent?
    requires t.Ready? && t.cancelled ==> Cancelled(s)
    ensures Inv(s.(tasks := s.tasks[i := t]))
  {
    UpdateCounts(s.tasks, i, t);
  }

  lemma SendKeepsResults(s: State, i: nat)
    requires ResultsOk(s) && i < |s.tasks| && s.tasks[i].Ready?
    ensures ResultsOk(Apply(s, Send(i)))
  {
    UpdateCounts(s.tasks, i, Sent(s.tasks[i].raw, s.tasks[i].cancelled));
    var t := Apply(s, Send(i));
    if t != s {
      assert t.received + t.queue == s.received + s.queue + [i];
    }
    hide Unsent;
  }

  lemma SendKeepsInv(s: State, i: nat)
    requires Inv(s) && i < |s.tasks| && s.tasks[i].Ready?
    ensures Inv(Apply(s, Send(i)))
  {
    SendKeepsResults(s, i);
    var t := Apply(s, Send(i));
    assert i !in s.received by { assert i !in s.received + s.queue; }
    hide ResultsOk, FailureOf;
  }

  lemma ReceiveKeepsInv(s: State)
    requires Inv(s) && s.phase == Collecting && |s.received| < |s.tasks|
    ensures Inv(SuperviseStep(s))
  {
    var t := SuperviseStep(s);
    if t != s {
      assert t.received + t.queue == s.received + s.queue;
      assert ResultsOk(t);
      var i := s.queue[0];
      assert i !in s.received by {
        var all := s.received + s.queue;
        assert all[|s.received|] == i;
        assert forall j :: 0 <= j < |s.received| ==> all[j] == s.received[j];
      }
      hide ResultsOk, FailureOf;
      assert PhaseOk(t);
    }
  }

  lemma StartKeepsInv(s: State)
    requires Inv(s) && s.phase.Starting? && s.phase.next < |s.tasks|
    ensures Inv(SuperviseStep(s))
  {
    UpdateCounts(s.tasks, s.phase.next, Running);
    hide Unsent, FailureOf;
    assert ResultsOk(SuperviseStep(s));
  }

  lemma JoinedKeepsInv(s: State)
    requires Inv(s) && s.phase == Collecting && |s.received| == |s.tasks|
    ensures Inv(SuperviseStep(s))
  {
    UnsentCounts(s.tasks);
    hide Unsent, FailureOf;
  }

  lemma SuperviseKeepsInv(s: State)
    requires Inv(s)
    ensures Inv(SuperviseStep(s))
  {
    if s.phase.Starting? && s.phase.next < |s.tasks| {
      StartKeepsInv(s);
    } else if s.phase == Collecting && |s.received| == |s.tasks| {
      JoinedKeepsInv(s);
    } else if s.phase == Collecting && |s.received| < |s.tasks| {
      ReceiveKeepsInv(s);
    } else {
      assert |s.received| <= |s.tasks|;
      hide Unsent, FailureOf;
    }
  }

  lemma StepKeepsInv(s: State, a: Action)
    requires Inv(s)
    ensures Inv(Apply(s, a))
  {
    match a
    case Supervise => SuperviseKeepsInv(s);
    case End(i, raw) =>
      if i < |s.tasks| && s.tasks[i] == Running {
        TaskKeepsInv(s, i, Ended(raw));
      }
    case Classify(i) =>
      if i < |s.tasks| && s.tasks[i].Ended? {
        TaskKeepsInv(s, i, Ready(s.tasks[i].raw, Cancelled(s)));
      }
    case Send(i) =>
      if i < |s.tasks| && s.tasks[i].Ready? {
        SendKeepsInv(s, i);
      }
    case CancelParent => hide Unsent, FailureOf;
    case PropagateCancel => hide Unsent, FailureOf;
  }

  lemma {:induction false} RunKeepsInv(n: nat, actions: seq<Action>)
    ensures Inv(Run(Init(n), actions))
    decreases |actions|
  {
    if actions == [] {
      InitInv(n);
    } else {
      RunKeepsInv(n, actions[..|actions| - 1]);
      StepKeepsInv(Run(Init(n), actions[..|actions| - 1]), actions[|actions| - 1]);
      hide Inv, Apply;
    }
  }

  /* ---------- what the supervisor promises ---------- */

  /** A task fails exactly when it aborted, stopped before cancellation, or returned an error other than its own cancellation. */
  predicate IsFailure(raw: Raw, cancelled: bool) {
    raw == Aborted || raw == Real || !cancelled
  }

  /**
   The supervisor returns only after every task it started has ended, and the
   failures it joins are those of exactly the failing tasks, each once.
   */
  lemma ReturnsWhenJoined(n: nat, actions: seq<Action>)
    requires Run(Init(n), actions).phase == Finished(true)
    ensures var s := Run(Init(n), actions);
            && (forall i :: 0 <= i < n ==> s.tasks[i].Sent?)
            && Distinct(s.failures)
            && (forall i: nat :: i in s.failures <==> i < n && IsFailure(s.tasks[i].raw, s.tasks[i].cancelled))
  {
    RunKeepsInv(n, actions);
    var s := Run(Init(n), actions);
    UnsentCounts(s.tasks);
    assert s.received + s.queue == s.received;
    hide Run, Unsent;
  }

  lemma Memberless(s: seq<nat>)
    ensures s == [] || exists i :: i in s
  {
    if s != [] {
      assert s[0] in s;
    }
  }

  /** Already cancelled at the start, it returns no failure and starts no task. */
  lemma CancelledBeforeStart(n: nat, actions: seq<Action>)
    requires Run(Init(n), actions).phase == Finished(false)
    ensures var s := Run(Init(n), actions);
            Cancelled(s) && s.failures == [] && forall i :: 0 <= i < n ==> s.tasks[i] == Waiting
  {
    RunKeepsInv(n, actions);
    var s := Run(Init(n), actions);
    assert forall i :: i in s.failures ==> i in s.received + s.queue;
    Memberless(s.failures);
    hide Run, Unsent;
  }

  /** The queue holds every result that can still come, so no task ever waits to send. */
  lemma SendersNeverBlock(n: nat, actions: seq<Action>, i: nat)
    requires i < n && Run(Init(n), actions).tasks[i].Ready?
    ensures |Run(Init(n), actions).queue| < n
  {
    RunKeepsInv(n, actions);
    UnsentCounts(Run(Init(n), actions).tasks);
    hide Run, Unsent;
  }

  /** The first failure received cancels the other tasks; without one, only the parent's cancellation ends them cleanly. */
  lemma FailureCancelsRest(n: nat, actions: seq<Action>)
    ensures var s := Run(Init(n), actions);
            && (s.failures != [] ==> s.child)
            && (s.phase == Finished(true) && s.failures == [] && n > 0 ==> s.parent)
  {
    RunKeepsInv(n, actions);
    var s := Run(Init(n), actions);
    if s.phase == Finished(true) && s.failures == [] && n > 0 {
      ReturnsWhenJoined(n, actions);
      assert !(0 in s.failures) && s.tasks[0].cancelled;
    }
    hide Run, Unsent;
  }

  function PhaseSteps(p: Phase): nat {
    match p
    case Checking => 3
    case Starting(_) => 2
    case Collecting => 1
    case Finished(_) => 0
  }

  /** The steps still to come of the supervisor and its tasks. */
  function Remaining(s: State): nat {
    2 * Steps(s.tasks) + |s.queue| + PhaseSteps(s.phase)
  }

  /** Every step that does something brings the end nearer; only the cancellation flags change for free. */
  lemma StepsRunOut(s: State, a: Action)
    requires Inv(s) && !a.CancelParent? && !a.PropagateCancel?
    ensures Apply(s, a) == s || Remaining(Apply(s, a)) < Remaining(s)
  {
    hide Steps, Unsent, Fails, ResultsOk, FailuresOk;
    match a
    case Supervise =>
      if s.phase.Starting? && s.phase.next < |s.tasks| {
        UpdateCounts(s.tasks, s.phase.next, Running);
      }
    case End(i, raw) => if i < |s.tasks| { UpdateCounts(s.tasks, i, Ended(raw)); }
    case Classify(i) => if i < |s.tasks| && s.tasks[i].Ended? { UpdateCounts(s.tasks, i, Ready(s.tasks[i].raw, Cancelled(s))); }
    case Send(i) => if i < |s.tasks| && s.tasks[i].Ready? { UpdateCounts(s.tasks, i, Sent(s.tasks[i].raw, s.tasks[i].cancelled)); }
  }

  /** No deadlock: unless it has returned, the supervisor can go on, a task can deliver its result, or a task body is still running. */
  lemma NeverStuck(n: nat, actions: seq<Action>)
    requires !Run(Init(n), actions).phase.Finished?
    ensures var s := Run(Init(n), actions);
            || SuperviseStep(s) != s
            || (exists i :: 0 <= i < n && (s.tasks[i].Running? || s.tasks[i].Ended? || (s.tasks[i].Ready? && Apply(s, Send(i)) != s)))
  {
    RunKeepsInv(n, actions);
    var s := Run(Init(n), actions);
    UnsentCounts(s.tasks);
    if s.phase == Collecting && SuperviseStep(s) == s {
      assert s.queue == [] by {
        assert forall i :: i in s.queue ==> i in s.received + s.queue;
        Memberless(s.queue);
      }
      assert |s.received + s.queue| < n;
      var i :| 0 <= i < n && !s.tasks[i].Sent?;
      assert s.tasks[i].Ready? ==> Apply(s, Send(i)).tasks[i].Sent?;
    }
    hide Run, Unsent;
  }
}
