// Which phases an application goes through and what a context's block keeps open, along every run.
module Phases {
  import opened Providers
  import opened Ownership
  import opened Lifecycle

  function Stage(phase: Phase): nat {
    match phase
    case New => 0
    case Validated => 0
    case Starting => 1
    case Ready => 2
    case Stopping => 3
    case Failed => 4
    case Stopped => 5
  }

  // Where one step may lead.
  lemma PhaseMoves(s: State, step: Step)
    requires Phased(s) && Enabled(s, step)
    ensures var now, next := s.phase, Apply(s, step).phase;
      || next == now
      || (now in {New, Validated} && next in {New, Validated, Starting, Stopped})
      || (now == Starting && next in {Ready, Failed})
      || (now == Ready && next == Stopping)
      || (now in {Stopping, Failed} && next == Stopped)
  {
    match step
    case Track(_, _) =>
    case ExitBlock(_) =>
    case ContextClosed(_) =>
    case _ =>
  }

  // An application is never started twice, nor after it was stopped, and no phase comes back.
  lemma {:induction false} StagesOnlyRise(timeout: bool, states: seq<State>, steps: seq<Step>, i: nat, j: nat)
    requires IsRun(timeout, states, steps) && i <= j < |states|
    ensures Stage(states[i].phase) <= Stage(states[j].phase)
    ensures states[i].phase.Stopped? ==> states[j].phase.Stopped?
    decreases j
  {
    if i < j {
      StagesOnlyRise(timeout, states, steps, i, j - 1);
      EveryStateIsGood(timeout, states, steps, j - 1);
      assert Taken(states, steps, j - 1);
      PhaseMoves(states[j - 1], steps[j - 1]);
    }
  }

  // A stop that ends, or finds nothing running, is for good.
  lemma StoppedForGood(timeout: bool, states: seq<State>, steps: seq<Step>, k: nat, j: nat)
    requires IsRun(timeout, states, steps) && k < j < |states|
    requires steps[k].StopDone? || (steps[k].StopBegin? && !states[k].phase.Ready?)
    ensures states[j].phase.Stopped?
  {
    assert Taken(states, steps, k);
    StagesOnlyRise(timeout, states, steps, k + 1, j);
  }

  // A start that ends leaves the application ready until a stop begins.
  lemma {:induction false} ReadyUntilStopped(timeout: bool, states: seq<State>, steps: seq<Step>, k: nat, j: nat)
    requires IsRun(timeout, states, steps) && k < j < |states| && steps[k].StartDone?
    requires forall l :: k < l < j ==> !steps[l].StopBegin?
    ensures states[j].phase.Ready?
    decreases j
  {
    assert Taken(states, steps, j - 1);
    if k + 1 < j {
      ReadyUntilStopped(timeout, states, steps, k, j - 1);
      EveryStateIsGood(timeout, states, steps, j - 1);
    }
  }

  // A start that failed is closing what it tracked, or over.
  predicate Failing(s: State) {
    (s.suspended.StartClosing? && s.phase.Starting?) || s.phase.Failed? || s.phase.Stopped?
  }

  lemma FailingStays(s: State, step: Step)
    requires Phased(s) && Enabled(s, step)
    ensures Failing(s) ==> Failing(Apply(s, step))
    ensures step.StartFails? ==> Failing(Apply(s, step))
    ensures step.StartFailed? ==> Apply(s, step).phase.Failed?
  {
    match step
    case Track(_, _) =>
    case ExitBlock(_) =>
    case ContextClosed(_) =>
    case _ =>
  }

  // One that fails closes what it tracked and ends as failed: the application is never ready.
  lemma {:induction false} FailedStartIsNeverReady(timeout: bool, states: seq<State>, steps: seq<Step>, k: nat, j: nat)
    requires IsRun(timeout, states, steps) && k < j < |states| && steps[k].StartFails?
    ensures Failing(states[j]) && !states[j].phase.Ready?
    ensures j < |steps| && steps[j].StartFailed? ==> states[j + 1].phase.Failed?
    decreases j
  {
    EveryStateIsGood(timeout, states, steps, j - 1);
    EveryStateIsGood(timeout, states, steps, j);
    assert Taken(states, steps, j - 1) && (j < |steps| ==> Taken(states, steps, j));
    hide Accounts, Drained, Enabled, Apply;
    FailingStays(states[j - 1], steps[j - 1]);
    if k + 1 < j {
      FailedStartIsNeverReady(timeout, states, steps, k, j - 1);
    }
    if j < |steps| {
      FailingStays(states[j], steps[j]);
    }
  }

  // A validation stands as long as nothing follows it: a registration undoes it.
  lemma ValidatedSince(timeout: bool, states: seq<State>, steps: seq<Step>, i: nat)
    requires IsRun(timeout, states, steps) && i < |states|
    ensures states[i].phase.Validated? <==> i > 0 && steps[i - 1].Validate?
    ensures states[i].phase.New? <==> i == 0 || steps[i - 1].Register?
  {
    if i > 0 {
      EveryStateIsGood(timeout, states, steps, i - 1);
      assert Taken(states, steps, i - 1);
      assert ContextsOk(states[i - 1]);
      hide Accounts, Drained;
      BackToNew(states[i - 1], steps[i - 1]);
    }
  }

  lemma BackToNew(s: State, step: Step)
    requires Phased(s) && ContextsOk(s) && Enabled(s, step)
    ensures step.Register? ==> Apply(s, step).phase == New
    ensures step.Validate? ==> Apply(s, step).phase == Validated
    ensures Apply(s, step).phase.New? ==> step.Register?
    ensures Apply(s, step).phase.Validated? ==> step.Validate?
  {
    match step
    case Track(_, _) =>
    case ExitBlock(_) =>
    case ContextClosed(_) =>
    case _ =>
  }

  // A context counts as active from when it is entered for as long as its block is not left, whoever
  // closes it meanwhile; so a stop does not count it as drained.
  lemma {:induction false} ActiveWhileInside(timeout: bool, states: seq<State>, steps: seq<Step>, k: nat, j: nat,
      r: RequestId)
    requires IsRun(timeout, states, steps) && k < j < |states| && steps[k] == Enter(r)
    requires forall l :: k < l < j ==> steps[l] != ExitBlock(r)
    ensures r in states[j].active && r in states[j].contexts && states[j].contexts[r] != Closing(true)
    ensures j < |steps| ==> !steps[j].StopDrained?
    decreases j
  {
    assert Taken(states, steps, j - 1);
    EveryStateIsGood(timeout, states, steps, j);
    if k + 1 < j {
      ActiveWhileInside(timeout, states, steps, k, j - 1, r);
      OthersStayActive(states[j - 1], steps[j - 1], r);
    }
    if j < |steps| {
      assert Taken(states, steps, j);
    }
  }

  lemma OthersStayActive(s: State, step: Step, r: RequestId)
    requires Enabled(s, step) && step != ExitBlock(r)
    requires r in s.active && r in s.contexts && s.contexts[r] != Closing(true)
    ensures var s' := Apply(s, step); r in s'.active && r in s'.contexts && s'.contexts[r] != Closing(true)
  {
    match step
    case Track(_, _) =>
    case ExitBlock(_) =>
    case ContextClosed(_) =>
    case _ =>
  }
}
