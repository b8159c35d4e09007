/**
 Where the supervisor's results come from: each is how its own task ended and what
 that task saw of the cancellation; the flags and phases follow from the actions of
 the run alone.
 */
module TaskHistory {
  import opened Common
  import opened TaskSupervisor

  /* ---------- how a task ended ---------- */

  /** The body of task i was running and ended this way. */
  ghost predicate EndedAs(n: nat, actions: seq<Action>, i: nat, raw: Raw)
    requires i < n
  {
    exists k :: 0 <= k < |actions| && actions[k] == End(i, raw) && Run(Init(n), actions[..k]).tasks[i] == Running
  }

  /** After its end, task i looked at the two contexts and saw this. */
  ghost predicate Looked(n: nat, actions: seq<Action>, i: nat, cancelled: bool) {
    exists k :: 0 <= k < |actions| && actions[k] == Classify(i) && cancelled == (CancelledBy(n, actions[..k]))
  }

  ghost predicate CancelledBy(n: nat, actions: seq<Action>) {
    Cancelled(Run(Init(n), actions))
  }

  ghost predicate Explained(n: nat, actions: seq<Action>, i: nat, t: Task)
    requires i < n
  {
    match t
    case Ended(raw) => EndedAs(n, actions, i, raw)
    case Ready(raw, cancelled) => EndedAs(n, actions, i, raw) && Looked(n, actions, i, cancelled)
    case Sent(raw, cancelled) => EndedAs(n, actions, i, raw) && Looked(n, actions, i, cancelled)
    case _ => true
  }

  lemma ExplainedGrows(n: nat, actions: seq<Action>, a: Action, i: nat, t: Task)
    requires i < n && Explained(n, actions, i, t)
    ensures Explained(n, actions + [a], i, t)
  {
    hide Run, CancelledBy;
    forall k | 0 <= k < |actions|
      ensures (actions + [a])[..k] == actions[..k] && (actions + [a])[k] == actions[k]
    {}
  }

  lemma EndsNow(n: nat, actions: seq<Action>, i: nat, raw: Raw)
    requires i < n && Run(Init(n), actions).tasks[i] == Running
    ensures EndedAs(n, actions + [End(i, raw)], i, raw)
  {
    hide Run;
    var all := actions + [End(i, raw)];
    assert all[..|actions|] == actions && all[|actions|] == End(i, raw);
  }

  lemma LooksNow(n: nat, actions: seq<Action>, i: nat)
    ensures Looked(n, actions + [Classify(i)], i, Cancelled(Run(Init(n), actions)))
  {
    var all := actions + [Classify(i)];
    assert all[..|actions|] == actions && all[|actions|] == Classify(i);
    hide Run;
  }

  /** A task's standing changes only by its own start, end, look or send. */
  lemma StepTask(s: State, a: Action, i: nat)
    requires i < |s.tasks|
    ensures var t := Apply(s, a).tasks[i];
            || t == s.tasks[i]
            || (a == Supervise && s.phase == Starting(i) && t == Running)
            || (a.End? && a.i == i && s.tasks[i] == Running && t == Ended(a.raw))
            || (a == Classify(i) && s.tasks[i].Ended? && t == Ready(s.tasks[i].raw, s.parent || s.child))
            || (a == Send(i) && s.tasks[i].Ready? && t == Sent(s.tasks[i].raw, s.tasks[i].cancelled))
  {
    hide FailureOf;
  }

  lemma {:induction false} RunExplains(n: nat, actions: seq<Action>, i: nat)
    requires i < n
    ensures Explained(n, actions, i, Run(Init(n), actions).tasks[i])
    decreases |actions|
  {
    if actions != [] {
      var before, a := actions[..|actions| - 1], actions[|actions| - 1];
      var s := Run(Init(n), before);
      RunExplains(n, before, i);
      StepTask(s, a, i);
      ExplainedGrows(n, before, a, i, s.tasks[i]);
      assert before + [a] == actions;
      if a.End? && a.i == i && s.tasks[i] == Running {
        EndsNow(n, before, i, a.raw);
      }
      if a == Classify(i) {
        LooksNow(n, before, i);
      }
      hide EndedAs, Looked, Apply;
    }
  }

  /** A result that was sent is how its own task ended, together with what the task then saw of the two contexts. */
  lemma ResultsAreOwn(n: nat, actions: seq<Action>, i: nat)
    requires i < n && Run(Init(n), actions).tasks[i].Sent?
    ensures var t := Run(Init(n), actions).tasks[i]; EndedAs(n, actions, i, t.raw) && Looked(n, actions, i, t.cancelled)
  {
    RunExplains(n, actions, i);
    hide Run, EndedAs, Looked;
  }

  /** What the joined error says of a failing task. */
  lemma FailureNames(raw: Raw, cancelled: bool)
    ensures FailureOf(raw, cancelled) == Some(AbortedBeforeReturn) <==> raw == Aborted
    ensures FailureOf(raw, cancelled) == Some(StoppedBeforeCancellation) <==> raw == Nil && !cancelled
    ensures FailureOf(raw, cancelled) == Some(Returned(Real)) <==> raw == Real
    ensures FailureOf(raw, cancelled) == Some(Returned(Canceled)) <==> raw == Canceled && !cancelled
    ensures FailureOf(raw, cancelled) == None <==> cancelled && (raw == Nil || raw == Canceled)
  {}

  /* ---------- the flags and phases ---------- */

  predicate Unstarted(actions: seq<Action>) {
    Supervise !in actions
  }

  /** The first look of the supervisor came after a cancellation. */
  ghost predicate FirstLookCancelled(actions: seq<Action>) {
    exists k :: 0 <= k < |actions| && actions[k] == Supervise && Unstarted(actions[..k]) && CancelParent in actions[..k]
  }

  ghost predicate Propagated(actions: seq<Action>) {
    exists k :: 0 <= k < |actions| && actions[k] == PropagateCancel && CancelParent in actions[..k]
  }

  lemma FirstLookNext(actions: seq<Action>, a: Action)
    ensures FirstLookCancelled(actions + [a]) <==> FirstLookCancelled(actions) || (a == Supervise && Unstarted(actions) && CancelParent in actions)
    ensures Propagated(actions + [a]) <==> Propagated(actions) || (a == PropagateCancel && CancelParent in actions)
  {
    var all := actions + [a];
    forall k | 0 <= k < |actions|
      ensures all[..k] == actions[..k] && all[k] == actions[k]
    {}
    assert all[..|actions|] == actions && all[|actions|] == a;
  }

  /** What the actions alone say of a state: its flags, whether it has begun, and whether it ended before it began. */
  ghost predicate Follows(actions: seq<Action>, s: State) {
    && (s.parent <==> CancelParent in actions)
    && (s.phase == Checking <==> Unstarted(actions))
    && (s.phase == Finished(false) <==> FirstLookCancelled(actions))
    && (s.child <==> Propagated(actions) || s.failures != [] || s.phase == Finished(true))
  }

  lemma EarlierActions(actions: seq<Action>)
    ensures FirstLookCancelled(actions) ==> !Unstarted(actions)
    ensures Propagated(actions) ==> CancelParent in actions
  {}

  lemma StepFollows(actions: seq<Action>, s: State, a: Action)
    requires Follows(actions, s)
    requires s.phase == Checking ==> s.failures == []
    ensures Follows(actions + [a], Apply(s, a))
  {
    FirstLookNext(actions, a);
    EarlierActions(actions);
    hide FailureOf, FirstLookCancelled, Propagated;
    assert forall b :: b in actions + [a] <==> b in actions || b == a;
  }

  lemma NoEarlyFailure(n: nat, actions: seq<Action>)
    ensures Run(Init(n), actions).phase == Checking ==> Run(Init(n), actions).failures == []
  {
    RunKeepsInv(n, actions);
    Memberless(Run(Init(n), actions).failures);
    hide Run, Unsent;
  }

  lemma {:induction false} RunFollows(n: nat, actions: seq<Action>)
    ensures Follows(actions, Run(Init(n), actions))
    decreases |actions|
  {
    if actions != [] {
      var before := actions[..|actions| - 1];
      RunFollows(n, before);
      NoEarlyFailure(n, before);
      StepFollows(before, Run(Init(n), before), actions[|actions| - 1]);
      assert before + [actions[|actions| - 1]] == actions;
      hide Follows, Apply;
    }
  }

  /**
   The parent is cancelled exactly by its own cancellation, the tasks' context exactly
   by the parent's reaching it, a failure or the end, and nothing is started exactly
   if the first look came after a cancellation.
   */
  lemma CancelledExactly(n: nat, actions: seq<Action>)
    ensures var s := Run(Init(n), actions);
            && (s.parent <==> CancelParent in actions)
            && (s.child <==> Propagated(actions) || s.failures != [] || s.phase == Finished(true))
            && (s.phase == Checking <==> Supervise !in actions)
            && (s.phase == Finished(false) <==> FirstLookCancelled(actions))
  {
    RunFollows(n, actions);
    hide Run, FirstLookCancelled, Propagated;
  }
}
