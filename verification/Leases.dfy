// One durable execution and any number of workers that take turns at it under leases: why a recovery
// pass never finds more than one interrupted attempt.
module Leases {
  import opened Recovery

  // What a worker believes about its claim. Only the fencing token in the journal says whether it is
  // still right: a worker may have been overtaken long ago without noticing.
  datatype Worker =
    | Idle
    | Holding(fence: nat)                  // has claimed, and not looked at the steps yet
    | Ready(fence: nat)                    // found no interrupted attempt, or decided the one it found
    | Attempting(fence: nat, step: nat)    // has started an attempt
    | Done(fence: nat)                     // has recorded the attempt's end

  // The journal's rows for one execution, and the workers. A fence of zero is no lease at all.
  datatype System = System(
    status: Status, steps: seq<StepState>, fence: nat, expires: int, now: int, workers: seq<Worker>)

  datatype Action =
    | Wait(time: nat)
    | Claim(worker: nat, ttl: nat)
    | Renew(worker: nat, ttl: nat)
    | FindNone(worker: nat)
    | Decide(worker: nat, step: nat, state: StepState)
    | Skip(worker: nat, step: nat)
    | Start(worker: nat, step: nat)
    | Finish(worker: nat, state: StepState, status: Status)
    | Yield(worker: nat)
    | Stop(worker: nat, status: Status)
    | StopFromOutside(status: Status)
    | ResumeWaiting
    | Crash(worker: nat)

  predicate Terminal(status: Status) {
    status in {Completed, Failed, Cancelled, TimedOut}
  }

  // The guard every write of a worker carries: its token is the current one, and the lease is live.
  predicate Live(s: System, fence: nat) {
    fence == s.fence && s.expires > s.now
  }

  predicate Unclaimed(s: System) {
    s.status in {Pending, Retrying} || (s.status == Running && s.expires <= s.now)
  }

  predicate HasFence(worker: Worker, s: System) {
    !worker.Idle? && Live(s, worker.fence)
  }

  // --- What each action asks and does ---

  predicate Enabled(policies: Policies, id: nat, s: System, action: Action) {
    match action
    case Wait(_) => true
    case Claim(w, ttl) => w < |s.workers| && Unclaimed(s) && ttl > 0
    case Renew(w, ttl) => w < |s.workers| && HasFence(s.workers[w], s)
    case FindNone(w) => w < |s.workers| && s.workers[w].Holding? && StepRunning !in s.steps
    case Decide(w, k, state) =>
      && w < |s.workers| && s.workers[w].Holding? && HasFence(s.workers[w], s) && s.status == Running
      && k < |s.steps| && s.steps[k] == StepRunning && Decided(policies, id, k) == Some(state)
    case Skip(w, k) => w < |s.workers| && s.workers[w].Ready? && HasFence(s.workers[w], s) && k < |s.steps| &&
      Skipped in NextStates(s.steps[k])
    case Start(w, k) =>
      && w < |s.workers| && s.workers[w].Ready? && HasFence(s.workers[w], s)
      && k < |s.steps| && s.steps[k] in {StepPending, StepRunning}
    case Finish(w, state, status) =>
      && w < |s.workers| && s.workers[w].Attempting? && HasFence(s.workers[w], s)
      && s.workers[w].step < |s.steps| && state in NextStates(s.steps[s.workers[w].step]) &&
        state in {StepPending, Succeeded, StepFailed}
      && (status == s.status || status in NextStatuses(s.status))
    case Yield(w) => w < |s.workers| && HasFence(s.workers[w], s) && Pending in NextStatuses(s.status)
    case Stop(w, status) => w < |s.workers| && HasFence(s.workers[w], s) && status in NextStatuses(s.status) &&
      (Terminal(status) || status == Waiting)
    case StopFromOutside(status) => Terminal(status) && status in NextStatuses(s.status)
    case ResumeWaiting => s.status == Waiting
    case Crash(w) => w < |s.workers|
  }

  function After(policies: Policies, id: nat, s: System, action: Action): System
    requires Enabled(policies, id, s, action)
  {
    match action
    case Wait(time) => s.(now := s.now + time)
    case Claim(w, ttl) =>
      s.(status := Running, fence := s.fence + 1, expires := s.now + ttl,
        workers := s.workers[w := Holding(s.fence + 1)])
    case Renew(w, ttl) => s.(expires := s.now + ttl)
    case FindNone(w) => s.(workers := s.workers[w := Ready(s.workers[w].fence)])
    case Decide(w, k, state) =>
      var decided := s.(steps := s.steps[k := state]);
      if state == OutcomeUnknown then decided.(status := Waiting, workers := s.workers[w := Idle])
      else decided.(status := Pending, expires := s.now, workers := s.workers[w := Ready(s.workers[w].fence)])
    case Skip(_, k) => s.(steps := s.steps[k := Skipped])
    case Start(w, k) => s.(steps := s.steps[k := StepRunning],
      workers := s.workers[w := Attempting(s.workers[w].fence, k)])
    case Finish(w, state, status) =>
      s.(steps := s.steps[s.workers[w].step := state], status := status,
        workers := s.workers[w := Done(s.workers[w].fence)])
    case Yield(w) => s.(status := Pending, expires := s.now, workers := s.workers[w := Idle])
    case Stop(w, status) => s.(status := status, workers := s.workers[w := Idle])
    case StopFromOutside(status) => s.(status := status)
    case ResumeWaiting => s.(status := Pending)
    case Crash(w) => s.(workers := s.workers[w := Idle])
  }

  // --- These are the journal's writes ---

  // The journal's row for the execution, when its lease is in this owner's name.
  function Row(s: System, owner: string): Execution {
    Execution(s.status, s.steps, if s.fence == 0 then None else Some(Lease(owner, s.fence, s.expires)), false, true,
      true, true)
  }

  // A claim is open exactly when the journal has it so, and does what its claim does.
  lemma ClaimsAsTheJournal(policies: Policies, id: nat, s: System, w: nat, ttl: nat, owner: string, next: string)
    requires w < |s.workers| && ttl > 0 && (s.status == Running ==> s.fence > 0)
    ensures Enabled(policies, id, s, Action.Claim(w, ttl)) <==> Claimable(Row(s, owner), s.now)
    ensures Enabled(policies, id, s, Action.Claim(w, ttl)) ==>
      Row(After(policies, id, s, Action.Claim(w, ttl)), next) == Claimed(Row(s, owner), next, s.now, ttl)
  {
    hide Decided;
  }

  // The other writes of a worker go through in the journal exactly under its guard, with the same outcome.
  lemma WritesAsTheJournal(policies: Policies, id: nat, s: System, w: nat, k: nat, state: StepState, status: Status,
      owner: string)
    requires s.fence > 0 && w < |s.workers| && !s.workers[w].Idle? && k < |s.steps|
    ensures var claim := Recovery.Claim(id, owner, s.workers[w].fence);
      && (HasFence(s.workers[w], s) <==> Guarded(Row(s, owner), claim, s.now))
      && (Enabled(policies, id, s, Decide(w, k, state)) ==>
            AttemptResolved(Row(s, owner), claim, k, state, s.now) ==
              Success(Row(After(policies, id, s, Decide(w, k, state)), owner)))
      && (Enabled(policies, id, s, Yield(w)) ==>
            Yielded(Row(s, owner), claim, s.now) == Success(Row(After(policies, id, s, Yield(w)), owner)))
      && (Enabled(policies, id, s, Stop(w, status)) ==>
            StatusMoved(Row(s, owner), claim, status, false, s.now) ==
              Success(Row(After(policies, id, s, Stop(w, status)), owner)))
  {
    DecidedIsJust(policies, id, k);
    hide Decided, Reports;
  }

  // So do the attempts and their ends, the skipped steps, and a lease kept alive; what happens outside the
  // journal leaves the row alone.
  lemma AttemptsAsTheJournal(policies: Policies, id: nat, s: System, w: nat, k: nat, state: StepState, status: Status,
      owner: string)
    requires s.fence > 0 && w < |s.workers| && !s.workers[w].Idle? && k < |s.steps|
    ensures var claim, row := Recovery.Claim(id, owner, s.workers[w].fence), Row(s, owner);
      && (Enabled(policies, id, s, Start(w, k)) && s.status == Running ==>
            StepMoved(row, claim, k, StepRunning, Running, s.now) ==
              Success(Row(After(policies, id, s, Start(w, k)), owner)))
      && (Enabled(policies, id, s, Skip(w, k)) && s.status == Running ==>
            StepMoved(row, claim, k, Skipped, Running, s.now) ==
              Success(Row(After(policies, id, s, Skip(w, k)), owner)))
      && (Enabled(policies, id, s, Finish(w, state, status)) && s.workers[w].step == k &&
            status in NextStatuses(s.status) ==>
            StepMoved(row, claim, k, state, status, s.now) ==
              Success(Row(After(policies, id, s, Finish(w, state, status)), owner)))
  {
    LifeCycles(s.status, s.steps[k]);
  }

  lemma LeasesAsTheJournal(policies: Policies, id: nat, s: System, w: nat, ttl: nat, status: Status, owner: string)
    requires s.fence > 0 && w < |s.workers|
    ensures Enabled(policies, id, s, Renew(w, ttl)) ==>
      && Guarded(Row(s, owner), Recovery.Claim(id, owner, s.workers[w].fence), s.now)
      && Row(After(policies, id, s, Renew(w, ttl)), owner) ==
        Row(s, owner).(lease := Some(Lease(owner, s.fence, s.now + ttl)))
    ensures Enabled(policies, id, s, StopFromOutside(status)) ==>
      && status in NextStatuses(s.status) && status in {Completed, Failed, Cancelled, TimedOut}
      && Row(After(policies, id, s, StopFromOutside(status)), owner) == Row(s, owner).(status := status)
    ensures Enabled(policies, id, s, ResumeWaiting) ==>
      s.status == Waiting && Row(After(policies, id, s, ResumeWaiting), owner) == Row(s, owner).(status := Pending)
    ensures var later := After(policies, id, s, Wait(ttl));
      Row(later, owner) == Row(s, owner) && later.now == s.now + ttl && later.workers == s.workers
    ensures var crashed := After(policies, id, s, Crash(w));
      Row(crashed, owner) == Row(s, owner) && crashed.now == s.now && crashed.workers == s.workers[w := Idle]
  {
  }

  // --- What every state keeps ---

  predicate Started(s: System) {
    s.fence == 0 && s.status == Pending && StepRunning !in s.steps && forall w :: 0 <= w < |s.workers| ==>
      s.workers[w].Idle?
  }

  // No token is ahead of the journal's, and no two workers hold the same one.
  predicate FencesOk(s: System) {
    && (forall w :: 0 <= w < |s.workers| && !s.workers[w].Idle? ==> s.workers[w].fence <= s.fence)
    && (forall v, w :: 0 <= v < w < |s.workers| && !s.workers[v].Idle? && !s.workers[w].Idle? ==>
      s.workers[v].fence != s.workers[w].fence)
  }

  predicate AtMostOneAttempt(steps: seq<StepState>) {
    forall i, j :: 0 <= i < j < |steps| ==> !(steps[i] == StepRunning && steps[j] == StepRunning)
  }

  // A worker that may still write to the journal is right about it: one that is ready has nothing
  // interrupted before it, and one that is attempting a step has the only running one.
  predicate WorkerOk(s: System, worker: Worker) {
    match worker
    case Ready(fence) => Live(s, fence) ==> StepRunning !in s.steps
    case Attempting(fence, k) =>
      fence == s.fence ==>
        k < |s.steps| && s.steps[k] == StepRunning && forall j :: 0 <= j < |s.steps| && s.steps[j] == StepRunning ==>
          j == k
    case Done(fence) => fence == s.fence ==> StepRunning !in s.steps
    case _ => true
  }

  predicate WorkersOk(s: System) {
    forall w :: 0 <= w < |s.workers| ==> WorkerOk(s, s.workers[w])
  }

  predicate Inv(s: System) {
    FencesOk(s) && AtMostOneAttempt(s.steps) && WorkersOk(s)
  }

  lemma StartsWell(s: System)
    requires Started(s)
    ensures Inv(s)
  {
  }

  lemma FencesKept(policies: Policies, id: nat, s: System, action: Action)
    requires Enabled(policies, id, s, action) && FencesOk(s)
    ensures FencesOk(After(policies, id, s, action))
  {
    hide Decided;
    match action
    case Wait(_) =>
    case Claim(_, _) =>
    case Renew(_, _) =>
    case FindNone(_) =>
    case Decide(_, _, _) =>
    case Skip(_, _) =>
    case Start(_, _) =>
    case Finish(_, _, _) =>
    case Yield(_) =>
    case Stop(_, _) =>
    case StopFromOutside(_) =>
    case ResumeWaiting =>
    case Crash(_) =>
  }

  lemma AttemptsKept(policies: Policies, id: nat, s: System, action: Action)
    requires Enabled(policies, id, s, action) && Inv(s)
    ensures AtMostOneAttempt(After(policies, id, s, action).steps)
  {
    hide Decided, FencesOk;
    match action
    case Decide(_, k, state) =>
      DecidedIsNotRunning(policies, id, k);
    case Start(w, k) =>
      assert WorkerOk(s, s.workers[w]);
    case Finish(w, state, _) =>
      assert WorkerOk(s, s.workers[w]);
    case Wait(_) =>
    case Claim(_, _) =>
    case Renew(_, _) =>
    case FindNone(_) =>
    case Skip(_, _) =>
    case Yield(_) =>
    case Stop(_, _) =>
    case StopFromOutside(_) =>
    case ResumeWaiting =>
    case Crash(_) =>
  }

  lemma DecidedIsNotRunning(policies: Policies, id: nat, k: nat)
    ensures Decided(policies, id, k) != Some(StepRunning)
  {
  }

  lemma WorkersKept(policies: Policies, id: nat, s: System, action: Action)
    requires Enabled(policies, id, s, action) && Inv(s)
    ensures WorkersOk(After(policies, id, s, action))
  {
    hide Decided;
    var after := After(policies, id, s, action);
    forall w | 0 <= w < |after.workers| ensures WorkerOk(after, after.workers[w]) {
      WorkerKept(policies, id, s, action, w);
    }
  }

  lemma WorkerKept(policies: Policies, id: nat, s: System, action: Action, w: nat)
    requires Enabled(policies, id, s, action) && Inv(s) && w < |s.workers|
    ensures |After(policies, id, s, action).workers| == |s.workers|
    ensures WorkerOk(After(policies, id, s, action), After(policies, id, s, action).workers[w])
  {
    hide Decided;
    assert WorkerOk(s, s.workers[w]);
    match action
    case Decide(v, k, _) =>
      DecidedIsNotRunning(policies, id, k);
      assert WorkerOk(s, s.workers[v]);
    case Start(v, _) =>
      assert WorkerOk(s, s.workers[v]);
    case Finish(v, _, _) =>
      assert WorkerOk(s, s.workers[v]);
    case Wait(_) =>
    case Claim(_, _) =>
    case Renew(_, _) =>
    case FindNone(_) =>
    case Skip(_, _) =>
    case Yield(_) =>
    case Stop(_, _) =>
    case StopFromOutside(_) =>
    case ResumeWaiting =>
    case Crash(_) =>
  }

  lemma {:induction false} InvKept(policies: Policies, id: nat, s: System, action: Action)
    requires Enabled(policies, id, s, action) && Inv(s)
    ensures Inv(After(policies, id, s, action))
  {
    FencesKept(policies, id, s, action);
    AttemptsKept(policies, id, s, action);
    WorkersKept(policies, id, s, action);
  }

  // --- Runs ---

  ghost predicate IsRun(policies: Policies, id: nat, states: seq<System>, actions: seq<Action>) {
    && |states| == |actions| + 1 && Started(states[0])
    && forall i :: 0 <= i < |actions| ==> Steps(policies, id, states, actions, i)
  }

  ghost predicate Steps(policies: Policies, id: nat, states: seq<System>, actions: seq<Action>, i: nat)
    requires i < |actions| && |states| == |actions| + 1
  {
    Enabled(policies, id, states[i], actions[i]) && states[i + 1] == After(policies, id, states[i], actions[i])
  }

  lemma {:induction false} EveryStateIsGood(policies: Policies, id: nat, states: seq<System>, actions: seq<Action>,
      i: nat)
    requires IsRun(policies, id, states, actions) && i < |states|
    ensures Inv(states[i])
    decreases i
  {
    if i == 0 {
      StartsWell(states[0]);
    } else {
      EveryStateIsGood(policies, id, states, actions, i - 1);
      assert Steps(policies, id, states, actions, i - 1);
      InvKept(policies, id, states[i - 1], actions[i - 1]);
    }
  }

  lemma AtMostOneRunning(steps: seq<StepState>)
    ensures AtMostOneAttempt(steps) <==> |RunningSteps(steps)| <= 1
  {
    hide RunningSteps;
    var running := RunningSteps(steps);
    if |running| > 1 {
      assert running[0] < running[1];
    } else {
      forall i, j | 0 <= i < j < |steps| ensures !(steps[i] == StepRunning && steps[j] == StepRunning) {
        assert !(i in running && j in running);
      }
    }
  }

  // In no reachable state has an execution more than one attempt to recover.
  lemma OneAttemptAtATime(policies: Policies, id: nat, states: seq<System>, actions: seq<Action>, i: nat)
    requires IsRun(policies, id, states, actions) && i < |states|
    ensures |RunningSteps(states[i].steps)| <= 1
  {
    EveryStateIsGood(policies, id, states, actions, i);
    AtMostOneRunning(states[i].steps);
  }

  // How a running step may stop running: the worker that started it says so while its lease is live
  // and unbroken, or recovery decides it as its policy has it.
  lemma AttemptsEndProperly(policies: Policies, id: nat, states: seq<System>, actions: seq<Action>, i: nat, k: nat)
    requires IsRun(policies, id, states, actions) && i < |actions|
    requires k < |states[i].steps| && states[i].steps[k] == StepRunning
    ensures |states[i + 1].steps| == |states[i].steps|
    ensures var state := states[i + 1].steps[k];
      state != StepRunning ==>
        match actions[i]
        case Finish(w, outcome, _) => state == outcome && w < |states[i].workers| &&
          states[i].workers[w] == Attempting(states[i].fence, k)
        case Decide(_, step, _) =>
          step == k && Decided(policies, id, k) == Some(state) && StepJust(policies, id, k, StepRunning, state)
        case _ => false
  {
    EveryStateIsGood(policies, id, states, actions, i);
    assert Steps(policies, id, states, actions, i);
    DecidedIsJust(policies, id, k);
    hide Decided, FencesOk, AtMostOneAttempt, StepJust;
    match actions[i]
    case Finish(w, _, _) => assert WorkerOk(states[i], states[i].workers[w]);
    case _ =>
  }

  // A running step whose worker has been overtaken: no worker may still end its attempt.
  predicate Orphaned(s: System, k: nat) {
    && k < |s.steps|
    && (|| s.steps[k] == OutcomeUnknown
        || (s.steps[k] == StepRunning && forall w :: 0 <= w < |s.workers| ==>
          !(s.workers[w].Attempting? && s.workers[w].fence == s.fence)))
  }

  lemma OrphansStay(policies: Policies, id: nat, s: System, action: Action, k: nat)
    requires Enabled(policies, id, s, action) && Inv(s) && Orphaned(s, k) && PolicyOf(policies, k) == Undeclared
    ensures Orphaned(After(policies, id, s, action), k)
  {
    hide AtMostOneAttempt, FencesOk;
    match action
    case Finish(w, _, _) => assert WorkerOk(s, s.workers[w]);
    case Start(w, _) => assert WorkerOk(s, s.workers[w]);
    case Wait(_) =>
    case Claim(w, _) => assert FencesOk(s); NoneAttemptsAhead(s);
    case Renew(_, _) =>
    case FindNone(_) =>
    case Decide(_, _, _) =>
    case Skip(_, _) =>
    case Yield(_) =>
    case Stop(_, _) =>
    case StopFromOutside(_) =>
    case ResumeWaiting =>
    case Crash(_) =>
  }

  lemma NoneAttemptsAhead(s: System)
    requires FencesOk(s)
    ensures forall w :: 0 <= w < |s.workers| && s.workers[w].Attempting? ==> s.workers[w].fence <= s.fence
  {
  }

  // Once another worker has claimed an execution in the middle of an attempt that nobody can vouch
  // for, that attempt is never said to have succeeded, failed, or not happened, and never repeated.
  lemma {:induction false} OvertakenIsNeverGuessed(policies: Policies, id: nat, states: seq<System>,
      actions: seq<Action>, i: nat, j: nat, k: nat)
    requires IsRun(policies, id, states, actions) && i < |actions| && i < j < |states|
    requires actions[i].Claim? && k < |states[i].steps| && states[i].steps[k] == StepRunning
    requires k !in policies || policies[k].Undeclared?
    ensures Orphaned(states[j], k) && states[j].steps[k] in {StepRunning, OutcomeUnknown}
    decreases j
  {
    if j == i + 1 {
      EveryStateIsGood(policies, id, states, actions, i);
      assert Steps(policies, id, states, actions, i);
      NoneAttemptsAhead(states[i]);
    } else {
      OvertakenIsNeverGuessed(policies, id, states, actions, i, j - 1, k);
      EveryStateIsGood(policies, id, states, actions, j - 1);
      assert Steps(policies, id, states, actions, j - 1);
      OrphansStay(policies, id, states[j - 1], actions[j - 1], k);
    }
  }

  // A step that is settled stays as it is.
  lemma SettledStays(policies: Policies, id: nat, s: System, action: Action, k: nat)
    requires Enabled(policies, id, s, action) && Inv(s) && k < |s.steps|
    requires s.steps[k] in {Succeeded, Skipped, StepFailed}
    ensures var steps := After(policies, id, s, action).steps; |steps| == |s.steps| && steps[k] == s.steps[k]
    ensures action.Start? ==> action.step != k
  {
    LifeCycles(s.status, s.steps[k]);
    hide AtMostOneAttempt, FencesOk, Decided;
    match action
    case Finish(w, _, _) => assert WorkerOk(s, s.workers[w]);
    case _ =>
  }

  // Once a pass has decided an attempt whose reconciler reports that it succeeded, the step stays
  // succeeded: no worker ever starts it again.
  lemma {:induction false} WhatSucceededIsNotRepeated(policies: Policies, id: nat, states: seq<System>,
      actions: seq<Action>, i: nat, j: nat, k: nat)
    requires IsRun(policies, id, states, actions) && i < j < |states|
    requires actions[i].Decide? && actions[i].step == k && Reports(policies, id, k, ItSucceeded)
    ensures k < |states[j].steps| && states[j].steps[k] == Succeeded
    ensures j < |actions| && actions[j].Start? ==> actions[j].step != k
    decreases j
  {
    assert Steps(policies, id, states, actions, j - 1);
    DecidedIsJust(policies, id, k);
    hide Decided, Reports;
    if j > i + 1 {
      WhatSucceededIsNotRepeated(policies, id, states, actions, i, j - 1, k);
      EveryStateIsGood(policies, id, states, actions, j - 1);
      SettledStays(policies, id, states[j - 1], actions[j - 1], k);
    }
    if j < |actions| {
      assert Steps(policies, id, states, actions, j);
      EveryStateIsGood(policies, id, states, actions, j);
      SettledStays(policies, id, states[j], actions[j], k);
    }
  }
}
