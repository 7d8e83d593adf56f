// Outstanding resolutions end: every call has only so many steps to take, however the tasks interleave,
// whatever is cleared meanwhile, and whoever else calls.
module Completion {
  import opened Providers
  import opened Ownership
  import opened Resolution

  // --- How many steps a task has left, at most ---

  // For what a provider needs from its k-th dependency on: a descent, two looks at the cache, a lock
  // and a factory call each, and all that the dependency needs itself.
  ghost function Work(g: Graph, plan: seq<Contract>, c: Contract, k: nat): nat
    requires Validated(g, plan) && c in g && k <= |g[c].dependencies|
    decreases Rank(g, plan, c), |g[c].dependencies| - k
  {
    if k == |g[c].dependencies| then 0
    else
      var d := g[c].dependencies[k];
      EdgeLowersRank(g, plan, c, d);
      1 + CallWork(g, plan, d) + Work(g, plan, c, k + 1)
  }

  ghost function CallWork(g: Graph, plan: seq<Contract>, c: Contract): nat
    requires Validated(g, plan) && c in g
    decreases Rank(g, plan, c), |g[c].dependencies| + 1
  {
    3 + Work(g, plan, c, 0)
  }

  ghost predicate FrameFits(g: Graph, frame: Frame) {
    frame.contract in g && (frame.phase.Building? ==> |frame.phase.arguments| <= |g[frame.contract].dependencies|)
  }

  ghost function FrameWork(g: Graph, plan: seq<Contract>, frame: Frame): nat
    requires Validated(g, plan) && FrameFits(g, frame)
  {
    match frame.phase
    case Checking => 3 + Work(g, plan, frame.contract, 0)
    case Waiting => 2 + Work(g, plan, frame.contract, 0)
    case Building(arguments) => 1 + Work(g, plan, frame.contract, |arguments|)
  }

  // A frame below the top waits for its next argument, whose work is counted above it.
  ghost predicate CallerFits(g: Graph, frame: Frame) {
    frame.contract in g && frame.phase.Building? && |frame.phase.arguments| < |g[frame.contract].dependencies|
  }

  ghost predicate CallersFit(g: Graph, frames: seq<Frame>) {
    forall i :: 0 <= i < |frames| ==> CallerFits(g, frames[i])
  }

  ghost function CallersWork(g: Graph, plan: seq<Contract>, frames: seq<Frame>): nat
    requires Validated(g, plan) && CallersFit(g, frames)
  {
    if frames == [] then 0
    else
      var n := |frames| - 1;
      assert CallerFits(g, frames[n]);
      CallersWork(g, plan, frames[..n]) + 1 + Work(g, plan, frames[n].contract, |frames[n].phase.arguments| + 1)
  }

  ghost predicate TaskFits(g: Graph, task: Task) {
    task.Running? ==>
      && task.frames != [] && FrameFits(g, Top(task))
      && CallersFit(g, task.frames[..|task.frames| - 1])
  }

  ghost function TaskWork(g: Graph, plan: seq<Contract>, task: Task): nat
    requires Validated(g, plan) && TaskFits(g, task)
  {
    if !task.Running? then 0
    else CallersWork(g, plan, task.frames[..|task.frames| - 1]) + FrameWork(g, plan, Top(task))
  }

  lemma GoodTasksFit(g: Graph, s: State, t: TaskId)
    requires Inv(g, s) && t in s.tasks
    ensures TaskFits(g, s.tasks[t])
  {
    assert TaskOk(g, s, t);
    if s.tasks[t].Running? {
      var request, frames := s.tasks[t].request, s.tasks[t].frames;
      assert FrameOk(g, s, t, request, frames[|frames| - 1]);
      forall i | 0 <= i < |frames| - 1 ensures CallerFits(g, frames[i]) {
        assert Calls(g, frames, i);
      }
    }
  }

  lemma DeliverLowers(g: Graph, plan: seq<Contract>, task: Task, value: Instance)
    requires Validated(g, plan) && task.Running? && TaskFits(g, task)
    ensures TaskFits(g, Deliver(task, value))
    ensures TaskWork(g, plan, Deliver(task, value)) < TaskWork(g, plan, task)
  {
    hide Validated, Work;
    var n := |task.frames| - 1;
    if n > 0 {
      var callers := task.frames[..n];
      assert CallerFits(g, callers[n - 1]);
      var after := Deliver(task, value);
      assert after.frames[..n - 1] == callers[..n - 1];
    }
  }

  lemma TopLowers(g: Graph, plan: seq<Contract>, task: Task, frame: Frame)
    requires Validated(g, plan) && task.Running? && TaskFits(g, task) && FrameFits(g, frame)
    requires FrameWork(g, plan, frame) < FrameWork(g, plan, Top(task))
    ensures TaskFits(g, WithTop(task, frame))
    ensures TaskWork(g, plan, WithTop(task, frame)) < TaskWork(g, plan, task)
  {
    hide Validated, FrameWork;
    var n := |task.frames| - 1;
    assert WithTop(task, frame).frames[..n] == task.frames[..n];
  }

  lemma DescendLowers(g: Graph, plan: seq<Contract>, task: Task, d: Contract)
    requires Validated(g, plan) && task.Running? && TaskFits(g, task) && CallerFits(g, Top(task)) && d in g
    requires d == g[Top(task).contract].dependencies[|Top(task).phase.arguments|]
    ensures var after := task.(frames := task.frames + [NewFrame(g, d)]);
      TaskFits(g, after) && TaskWork(g, plan, after) < TaskWork(g, plan, task)
  {
    hide Validated;
    var n := |task.frames| - 1;
    var after := task.(frames := task.frames + [NewFrame(g, d)]);
    assert after.frames[..n + 1] == task.frames && task.frames == task.frames[..n] + [Top(task)];
    assert CallersFit(g, task.frames);
    assert FrameWork(g, plan, NewFrame(g, d)) <= CallWork(g, plan, d);
  }

  lemma OneTaskMoves(g: Graph, s: State, step: Step)
    requires Enabled(g, s, step) && !step.Begin? && !step.Clear?
    ensures var s' := Apply(g, s, step);
      step.task in s.tasks && s'.tasks == s.tasks[step.task := s'.tasks[step.task]]
  {
    hide Deliver, WithTop, NeedsCleanup, SlotOf, Owned;
  }

  lemma AcquireLowers(g: Graph, plan: seq<Contract>, s: State, step: Step)
    requires Validated(g, plan) && Enabled(g, s, step) && step.Acquire? && TaskFits(g, s.tasks[step.task])
    ensures var task := Apply(g, s, step).tasks[step.task];
      TaskFits(g, task) && TaskWork(g, plan, task) < TaskWork(g, plan, s.tasks[step.task])
  {
    hide Validated, TaskFits, TaskWork, Deliver, WithTop;
    var task, slot := s.tasks[step.task], TopSlot(g, s, step.task).value;
    if slot in s.cache {
      DeliverLowers(g, plan, task, s.cache[slot]);
    } else {
      TopLowers(g, plan, task, Frame(Top(task).contract, Building([])));
    }
  }

  lemma ConstructLowers(g: Graph, plan: seq<Contract>, s: State, step: Step)
    requires Validated(g, plan) && Enabled(g, s, step) && step.Construct? && TaskFits(g, s.tasks[step.task])
    ensures var task := Apply(g, s, step).tasks[step.task];
      TaskFits(g, task) && TaskWork(g, plan, task) < TaskWork(g, plan, s.tasks[step.task])
  {
    RaisingLowers(g, plan, s.tasks[step.task]);
    hide Validated, TaskFits, TaskWork, Deliver, NeedsCleanup, SlotOf, Owned;
    DeliverLowers(g, plan, s.tasks[step.task], step.instance);
  }

  lemma RaisingLowers(g: Graph, plan: seq<Contract>, task: Task)
    requires Validated(g, plan) && task.Running? && TaskFits(g, task)
    ensures TaskFits(g, Raised) && TaskWork(g, plan, Raised) < TaskWork(g, plan, task)
  {
  }

  // Every step a task takes leaves it less to do, and leaves the other tasks to themselves.
  lemma {:induction false} StepLowersWork(g: Graph, plan: seq<Contract>, s: State, step: Step)
    requires Validated(g, plan) && Inv(g, s) && Enabled(g, s, step) && !step.Begin? && !step.Clear?
    ensures var t, s' := step.task, Apply(g, s, step);
      && t in s.tasks && s'.tasks == s.tasks[t := s'.tasks[t]]
      && TaskFits(g, s.tasks[t]) && TaskFits(g, s'.tasks[t])
      && TaskWork(g, plan, s'.tasks[t]) < TaskWork(g, plan, s.tasks[t])
  {
    var t := step.task;
    GoodTasksFit(g, s, t);
    OneTaskMoves(g, s, step);
    var task := s.tasks[t];
    RaisingLowers(g, plan, task);
    match step
    case Acquire(_) => AcquireLowers(g, plan, s, step);
    case Construct(_, _) => ConstructLowers(g, plan, s, step);
    case Hit(_) =>
      hide Validated, Inv, TaskFits, TaskWork;
      DeliverLowers(g, plan, task, s.cache[TopSlot(g, s, t).value]);
    case Miss(_) =>
      hide Validated, Inv, TaskFits, TaskWork;
      TopLowers(g, plan, task, Frame(Top(task).contract, Waiting));
    case Descend(_) =>
      hide Validated, Inv, TaskFits, TaskWork;
      DescendLowers(g, plan, task, NextCall(g, s, t));
    case _ =>
  }

  // --- One call ---

  // The steps of a run that a task takes itself.
  function StepsBy(steps: seq<Step>, t: TaskId): nat {
    if steps == [] then 0
    else
      var n := |steps| - 1;
      StepsBy(steps[..n], t) + if IsBy(steps[n], t) then 1 else 0
  }

  // Whatever happens beside it, a call is over after a number of steps of its own that only the graph
  // below its contract decides.
  lemma {:induction false} CallsAreShort(g: Graph, plan: seq<Contract>, states: seq<State>, steps: seq<Step>, i: nat,
      j: nat, request: Option<RequestId>, c: Contract, t: TaskId)
    requires Validated(g, plan) && IsRun(g, states, steps) && c in g
    requires i < j <= |steps| && steps[i] == Begin(t, request, c)
    ensures t in states[j].tasks && TaskFits(g, states[j].tasks[t])
    ensures StepsBy(steps[i + 1..j], t) + TaskWork(g, plan, states[j].tasks[t]) <= CallWork(g, plan, c)
  {
    var k := j - 1;
    assert Taken(g, states, steps, k);
    EveryStateIsGood(g, plan, states, steps, k);
    hide IsRun, Validated, Inv, TaskFits, TaskWork, CallWork, Apply, Enabled, StepsBy;
    if k == i {
      BegunWork(g, plan, states[i], steps[i]);
      assert steps[i + 1..j] == [];
      NoStepsBy(t);
    } else {
      CallsAreShort(g, plan, states, steps, i, k, request, c, t);
      OneMoreStep(steps, i + 1, k, t);
      TakesOneOff(g, plan, states[k], steps[k], t);
    }
  }

  predicate IsBy(step: Step, t: TaskId) {
    !step.Clear? && step.task == t
  }

  lemma NoStepsBy(t: TaskId)
    ensures StepsBy([], t) == 0
  {
  }

  lemma OneMoreStep(steps: seq<Step>, i: nat, k: nat, t: TaskId)
    requires i <= k < |steps|
    ensures StepsBy(steps[i..k + 1], t) == StepsBy(steps[i..k], t) + if IsBy(steps[k], t) then 1 else 0
    ensures Resolving(steps[i..k + 1]) == Resolving(steps[i..k]) + if steps[k].Clear? then 0 else 1
  {
    assert steps[i..k + 1] == steps[i..k] + [steps[k]];
    assert steps[i..k + 1][..k - i] == steps[i..k];
  }

  lemma TakesOneOff(g: Graph, plan: seq<Contract>, s: State, step: Step, t: TaskId)
    requires Validated(g, plan) && Inv(g, s) && Enabled(g, s, step) && t in s.tasks && TaskFits(g, s.tasks[t])
    ensures var s' := Apply(g, s, step);
      && t in s'.tasks && TaskFits(g, s'.tasks[t])
      && TaskWork(g, plan, s'.tasks[t]) + (if IsBy(step, t) then 1 else 0) <= TaskWork(g, plan, s.tasks[t])
  {
    hide Validated, Inv, TaskFits, TaskWork;
    if !step.Begin? && !step.Clear? {
      StepLowersWork(g, plan, s, step);
      hide Apply, Enabled;
    }
  }

  lemma BegunWork(g: Graph, plan: seq<Contract>, s: State, step: Step)
    requires Validated(g, plan) && Enabled(g, s, step) && step.Begin? && step.contract in g
    ensures var s' := Apply(g, s, step);
      && step.task in s'.tasks && TaskFits(g, s'.tasks[step.task])
      && TaskWork(g, plan, s'.tasks[step.task]) <= CallWork(g, plan, step.contract)
  {
    hide Validated;
    assert [NewFrame(g, step.contract)][..0] == [];
  }

  // --- What is refused ---

  // A call is refused at once exactly if nothing is registered for its contract, or it is for a request's
  // provider outside any request.
  lemma RefusedAtOnceWhen(g: Graph, s: State, t: TaskId, request: Option<RequestId>, c: Contract)
    requires Enabled(g, s, Begin(t, request, c))
    ensures Apply(g, s, Begin(t, request, c)).tasks[t] == Raised <==>
      c !in g || (g[c].scope == Request && request == None)
  {
  }

  // In a validated graph there is one way to be refused further down: a transient provider that needs a
  // request's one was asked for outside any request.
  lemma RefusedBelowWhen(g: Graph, plan: seq<Contract>, states: seq<State>, steps: seq<Step>, i: nat, t: TaskId)
    requires Validated(g, plan) && IsRun(g, states, steps) && i < |states| && Enabled(g, states[i], Refuse(t))
    ensures var s := states[i];
      && s.tasks[t].request == None && g[Top(s.tasks[t]).contract].scope == Transient
      && NextCall(g, s, t) in g && g[NextCall(g, s, t)].scope == Request
  {
    EveryStateIsGood(g, plan, states, steps, i);
    var s := states[i];
    assert TaskOk(g, s, t);
    assert FrameOk(g, s, t, s.tasks[t].request, Top(s.tasks[t]));
    assert Edge(g, Top(s.tasks[t]).contract, NextCall(g, s, t));
  }

  // --- All calls ---

  ghost predicate Fit(g: Graph, tasks: map<TaskId, Task>) {
    forall t :: t in tasks ==> TaskFits(g, tasks[t])
  }

  lemma GoodStatesFit(g: Graph, s: State)
    requires Inv(g, s)
    ensures Fit(g, s.tasks)
  {
    hide Inv, TaskFits;
    forall t | t in s.tasks ensures TaskFits(g, s.tasks[t]) {
      GoodTasksFit(g, s, t);
    }
  }

  // What the tasks numbered below `n` have left.
  ghost function TotalWork(g: Graph, plan: seq<Contract>, tasks: map<TaskId, Task>, n: nat): nat
    requires Validated(g, plan) && Fit(g, tasks)
  {
    if n == 0 then 0
    else TotalWork(g, plan, tasks, n - 1) + if n - 1 in tasks then TaskWork(g, plan, tasks[n - 1]) else 0
  }

  lemma {:induction false} OneTaskLess(g: Graph, plan: seq<Contract>, before: map<TaskId, Task>, t: TaskId, task: Task,
      n: nat)
    requires Validated(g, plan) && Fit(g, before) && t in before && TaskFits(g, task)
    requires TaskWork(g, plan, task) < TaskWork(g, plan, before[t])
    ensures Fit(g, before[t := task])
    ensures TotalWork(g, plan, before[t := task], n) + (if t < n then 1 else 0) <= TotalWork(g, plan, before, n)
  {
    hide Validated, TaskFits, TaskWork;
    if n > 0 {
      OneTaskLess(g, plan, before, t, task, n - 1);
    }
  }

  lemma {:induction false} NumberedBelow(tasks: map<TaskId, Task>) returns (n: nat)
    ensures forall t :: t in tasks ==> t < n
    decreases |tasks|
  {
    n := 0;
    if tasks != map[] {
      var t :| t in tasks;
      var rest := NumberedBelow(tasks - {t});
      assert forall u :: u in tasks && u != t ==> u in tasks - {t};
      n := if rest <= t then t + 1 else rest;
    }
  }

  // The steps that resolve something, or fail.
  function Resolving(steps: seq<Step>): nat {
    if steps == [] then 0 else var n := |steps| - 1; Resolving(steps[..n]) + if steps[n].Clear? then 0 else 1
  }

  ghost predicate NoNewCalls(steps: seq<Step>, i: nat) {
    forall k :: i <= k < |steps| ==> !steps[k].Begin?
  }

  // Once no new call begins, only so many more steps can be taken at all, in whatever order.
  lemma {:induction false} OutstandingIsBounded(g: Graph, plan: seq<Contract>, states: seq<State>, steps: seq<Step>,
      i: nat, j: nat, n: nat)
    requires Validated(g, plan) && IsRun(g, states, steps) && i <= j <= |steps| && NoNewCalls(steps[..j], i)
    requires forall t :: t in states[i].tasks ==> t < n
    ensures Fit(g, states[i].tasks) && Fit(g, states[j].tasks) && states[j].tasks.Keys == states[i].tasks.Keys
    ensures Resolving(steps[i..j]) + TotalWork(g, plan, states[j].tasks, n) <= TotalWork(g, plan, states[i].tasks, n)
  {
    assert |states| == |steps| + 1;
    EveryStateIsGood(g, plan, states, steps, i);
    GoodStatesFit(g, states[i]);
    if i == j {
      assert steps[i..j] == [];
    } else {
      var k := j - 1;
      EveryStateIsGood(g, plan, states, steps, k);
      LastStepBegins(g, states, steps, i, k);
      hide Inv, Validated, Fit, Enabled, Apply, Resolving, IsRun, NoNewCalls, TotalWork;
      OutstandingIsBounded(g, plan, states, steps, i, k, n);
      OneMoreStep(steps, i, k, 0);
      TotalFalls(g, plan, states[k], steps[k], n);
    }
  }

  lemma LastStepBegins(g: Graph, states: seq<State>, steps: seq<Step>, i: nat, k: nat)
    requires IsRun(g, states, steps) && i <= k < |steps| && NoNewCalls(steps[..k + 1], i)
    ensures NoNewCalls(steps[..k], i) && !steps[k].Begin?
    ensures Enabled(g, states[k], steps[k]) && states[k + 1] == Apply(g, states[k], steps[k])
  {
    assert Taken(g, states, steps, k) && !steps[..k + 1][k].Begin?;
    hide Apply, Enabled;
    assert forall l :: i <= l < k ==> steps[..k][l] == steps[..k + 1][l];
  }

  lemma TotalFalls(g: Graph, plan: seq<Contract>, s: State, step: Step, n: nat)
    requires Validated(g, plan) && Inv(g, s) && Enabled(g, s, step) && !step.Begin? && Fit(g, s.tasks)
    requires forall t :: t in s.tasks ==> t < n
    ensures var s' := Apply(g, s, step);
      && s'.tasks.Keys == s.tasks.Keys && Fit(g, s'.tasks)
      && TotalWork(g, plan, s'.tasks, n) + (if step.Clear? then 0 else 1) <= TotalWork(g, plan, s.tasks, n)
  {
    hide Inv, Validated, Fit, TaskFits, TaskWork, TotalWork, Enabled;
    if !step.Clear? {
      StepLowersWork(g, plan, s, step);
      var s' := Apply(g, s, step);
      hide Apply;
      OneTaskLess(g, plan, s.tasks, step.task, s'.tasks[step.task], n);
    }
  }

  ghost predicate NobodyRuns(s: State) {
    forall t :: t in s.tasks ==> !s.tasks[t].Running?
  }

  lemma {:induction false} GoingOnEnds(g: Graph, plan: seq<Contract>, states: seq<State>, steps: seq<Step>,
      n: nat)
      returns (states': seq<State>, steps': seq<Step>)
    requires Validated(g, plan) && IsRun(g, states, steps)
    requires forall t :: t in states[|steps|].tasks ==> t < n
    requires Fit(g, states[|steps|].tasks)
    ensures IsRun(g, states', steps') && |states'| == |steps'| + 1 && states <= states' && steps <= steps'
    ensures forall k :: |steps| <= k < |steps'| ==> Progress(steps'[k])
    ensures |steps'| <= |steps| + TotalWork(g, plan, states[|steps|].tasks, n)
    ensures NobodyRuns(states'[|steps'|])
    decreases TotalWork(g, plan, states[|steps|].tasks, n)
  {
    assert |states| == |steps| + 1;
    hide IsRun, Validated, Fit, TotalWork, Progress;
    states', steps' := states, steps;
    if !NobodyRuns(states[|steps|]) {
      hide NobodyRuns;
      var states1, steps1 := SomeoneGoesOn(g, plan, states, steps, n);
      states', steps' := GoingOnEnds(g, plan, states1, steps1, n);
    }
  }

  lemma SomeoneGoesOn(g: Graph, plan: seq<Contract>, states: seq<State>, steps: seq<Step>, n: nat)
      returns (states': seq<State>, steps': seq<Step>)
    requires Validated(g, plan) && IsRun(g, states, steps) && !NobodyRuns(states[|steps|])
    requires (forall t :: t in states[|steps|].tasks ==> t < n) && Fit(g, states[|steps|].tasks)
    ensures IsRun(g, states', steps') && |states'| == |steps'| + 1 == |steps| + 2
    ensures states == states'[..|steps| + 1] && steps == steps'[..|steps|] && Progress(steps'[|steps|])
    ensures var now := states'[|steps'|].tasks;
      && Fit(g, now) && (forall t :: t in now ==> t < n)
      && TotalWork(g, plan, now, n) < TotalWork(g, plan, states[|steps|].tasks, n)
  {
    var s := states[|steps|];
    var t :| t in s.tasks && s.tasks[t].Running?;
    NoDeadlock(g, plan, states, steps, |steps|, t);
    EveryStateIsGood(g, plan, states, steps, |steps|);
    hide Inv, Validated, Fit, IsRun, Apply, Enabled, TotalWork;
    var step :| Progress(step) && Enabled(g, s, step);
    TotalFalls(g, plan, s, step, n);
    states', steps' := Continue(g, states, steps, step);
  }

  // So from every reachable state, going on wherever anyone can, without new calls and without failures,
  // leads to one in which every call has ended.
  lemma OutstandingCallsEnd(g: Graph, plan: seq<Contract>, states: seq<State>, steps: seq<Step>)
      returns (states': seq<State>, steps': seq<Step>)
    requires Validated(g, plan) && IsRun(g, states, steps)
    ensures IsRun(g, states', steps') && states <= states' && steps <= steps'
    ensures forall k :: |steps| <= k < |steps'| ==> Progress(steps'[k])
    ensures NobodyRuns(states'[|steps'|])
  {
    var s := states[|steps|];
    EveryStateIsGood(g, plan, states, steps, |steps|);
    GoodStatesFit(g, s);
    hide IsRun, Validated, Inv;
    var n := NumberedBelow(s.tasks);
    states', steps' := GoingOnEnds(g, plan, states, steps, n);
  }

  // And a schedule that gets stuck has got to the end: where nobody can go on, nobody is under way.
  lemma StuckMeansDone(g: Graph, plan: seq<Contract>, states: seq<State>, steps: seq<Step>, i: nat)
    requires Validated(g, plan) && IsRun(g, states, steps) && i < |states|
    ensures NobodyRuns(states[i]) <==> forall step :: Progress(step) ==> !Enabled(g, states[i], step)
  {
    if t :| t in states[i].tasks && states[i].tasks[t].Running? {
      NoDeadlock(g, plan, states, steps, i, t);
    }
    hide Validated, IsRun;
  }
}
