// What a recovery pass decides about executions whose worker stopped, and that it never guesses.
module Recovery {
  datatype Option<T> = None | Some(value: T)

  // --- The two life cycles ---

  datatype Status = Pending | Running | Retrying | Waiting | Completed | Failed | Cancelled | TimedOut

  datatype StepState = StepPending | StepRunning | Succeeded | Skipped | StepFailed | OutcomeUnknown

  function NextStatuses(status: Status): set<Status> {
    match status
    case Pending => {Running, Cancelled, TimedOut, Failed}
    case Running => {Running, Pending, Retrying, Waiting, Completed, Failed, Cancelled, TimedOut}
    case Retrying => {Running, Waiting, Failed, Cancelled, TimedOut}
    case Waiting => {Running, Failed, Cancelled, TimedOut}
    case _ => {}
  }

  function NextStates(state: StepState): set<StepState> {
    match state
    case StepPending => {StepRunning, Skipped, StepFailed, OutcomeUnknown}
    case StepRunning => {StepRunning, StepPending, Succeeded, StepFailed, OutcomeUnknown}
    case OutcomeUnknown => {StepPending, Succeeded, StepFailed}
    case _ => {}
  }

  // --- The journal ---

  // The fencing token lives in the lease's row, so the row stays when the claim is over.
  datatype Lease = Lease(owner: string, fence: nat, expires: int)

  // `due` says no later retry is scheduled, `alive` that the deadline has not passed, `compatible`
  // that the worker knows the very definition the execution was submitted with.
  datatype Execution = Execution(
    status: Status, steps: seq<StepState>, lease: Option<Lease>, cancelRequested: bool, due: bool, alive: bool,
    compatible: bool)

  datatype Claim = Claim(id: nat, owner: string, fence: nat)

  datatype Error = StateError | LeaseError | VersionError | ReconcilerError | Crashed

  datatype Result<T> = Success(value: T) | Failure(error: Error)

  predicate Guarded(e: Execution, claim: Claim, now: int) {
    e.lease.Some? && e.lease.value.owner == claim.owner && e.lease.value.fence == claim.fence &&
      e.lease.value.expires > now
  }

  predicate Expired(e: Execution, now: int) {
    e.status == Running && e.lease.Some? && e.lease.value.expires <= now
  }

  predicate Claimable(e: Execution, now: int) {
    && (!e.cancelRequested || e.status == Running)
    && e.alive
    && (|| (e.status in {Pending, Retrying} && e.due)
        || (e.status == Running && (e.lease.None? || e.lease.value.expires <= now)))
  }

  function Claimed(e: Execution, owner: string, now: int, ttl: int): Execution {
    var fence := if e.lease.None? then 1 else e.lease.value.fence + 1;
    e.(status := Running, due := true, lease := Some(Lease(owner, fence, now + ttl)))
  }

  function Released(e: Execution, now: int): Execution {
    if e.lease.None? then e else e.(lease := Some(e.lease.value.(expires := now)))
  }

  // A step and the execution move together, under the lease, and only along the two life cycles.
  function StepMoved(e: Execution, claim: Claim, k: nat, state: StepState, status: Status, now: int): Result<Execution>
    requires k < |e.steps|
  {
    if state !in NextStates(e.steps[k]) then Failure(StateError)
    else if !Guarded(e, claim, now) then Failure(if e.cancelRequested then StateError else LeaseError)
    else if status !in NextStatuses(e.status) || e.cancelRequested then Failure(StateError)
    else Success(e.(steps := e.steps[k := state], status := status))
  }

  function Resolved(e: Execution, claim: Claim, k: nat, state: StepState, now: int): Result<Execution>
    requires k < |e.steps|
  {
    var moved := StepMoved(e, claim, k, state, Pending, now);
    if moved.Failure? then moved else Success(Released(moved.value, now))
  }

  function MarkedUnknown(e: Execution, claim: Claim, k: nat, now: int): Result<Execution>
    requires k < |e.steps|
  {
    StepMoved(e, claim, k, OutcomeUnknown, Waiting, now)
  }

  function StatusMoved(e: Execution, claim: Claim, status: Status, evenCancelled: bool, now: int): Result<Execution> {
    if status !in NextStatuses(e.status) then Failure(StateError)
    else if e.cancelRequested && !evenCancelled then Failure(StateError)
    else if !Guarded(e, claim, now) then Failure(LeaseError)
    else Success(e.(status := status))
  }

  function Yielded(e: Execution, claim: Claim, now: int): Result<Execution> {
    var moved := StatusMoved(e, claim, Pending, false, now);
    if moved.Failure? then moved else Success(Released(moved.value, now))
  }

  // --- What the journal promises of its writes ---

  // Read by where they lead: nothing leaves a final status or state, and only a running execution or an
  // attempted step gets to most of the others.
  lemma LifeCycles(status: Status, state: StepState)
    ensures NextStatuses(status) == {} <==> status in {Completed, Failed, Cancelled, TimedOut}
    ensures forall next :: next in {Running, Failed, Cancelled, TimedOut} ==>
      (next in NextStatuses(status) <==> NextStatuses(status) != {})
    ensures forall next :: next in {Pending, Retrying, Completed} ==>
      (next in NextStatuses(status) <==> status == Running)
    ensures Waiting in NextStatuses(status) <==> status in {Running, Retrying}
    ensures NextStates(state) == {} <==> state in {Succeeded, Skipped, StepFailed}
    ensures StepRunning in NextStates(state) <==> state in {StepPending, StepRunning}
    ensures Succeeded in NextStates(state) <==> state in {StepRunning, OutcomeUnknown}
    ensures StepPending in NextStates(state) <==> state in {StepRunning, OutcomeUnknown}
    ensures StepFailed in NextStates(state) <==> state in {StepPending, StepRunning, OutcomeUnknown}
    ensures OutcomeUnknown in NextStates(state) <==> state in {StepPending, StepRunning}
    ensures Skipped in NextStates(state) <==> state == StepPending
  {
  }

  // The lease is the claim's own, and has not run out.
  ghost predicate HoldsLease(e: Execution, claim: Claim, now: int) {
    exists expires :: e.lease == Some(Lease(claim.owner, claim.fence, expires)) && now < expires
  }

  lemma GuardIsTheLease(e: Execution, claim: Claim, now: int)
    ensures HoldsLease(e, claim, now) <==> Guarded(e, claim, now)
  {
    if Guarded(e, claim, now) {
      assert e.lease == Some(Lease(claim.owner, claim.fence, e.lease.value.expires));
    }
  }

  // A write of a step goes through exactly under the claim's own live lease, along both life cycles, and
  // while nobody has asked for cancellation. It changes the step and the status, and nothing else.
  lemma OnlyTheHolderWrites(e: Execution, claim: Claim, k: nat, state: StepState, status: Status, now: int)
    requires k < |e.steps|
    ensures var moved := StepMoved(e, claim, k, state, status, now);
      && (moved.Success? <==>
            && HoldsLease(e, claim, now) && !e.cancelRequested
            && state in NextStates(e.steps[k]) && status in NextStatuses(e.status))
      && (moved.Success? ==> moved.value == e.(steps := e.steps[k := state], status := status))
      && (moved == Failure(LeaseError) <==>
            state in NextStates(e.steps[k]) && !e.cancelRequested && !HoldsLease(e, claim, now))
      && (moved.Failure? ==> moved.error in {LeaseError, StateError})
  {
    GuardIsTheLease(e, claim, now);
    hide NextStates, NextStatuses, HoldsLease, Guarded;
  }

  // So does a write of the status alone; an acknowledged cancellation is the one that goes through even when
  // cancelled. Yielding also ends the lease.
  lemma OnlyTheHolderMoves(e: Execution, claim: Claim, status: Status, even: bool, now: int)
    ensures var moved := StatusMoved(e, claim, status, even, now);
      && (moved.Success? <==>
            HoldsLease(e, claim, now) && (even || !e.cancelRequested) && status in NextStatuses(e.status))
      && (moved.Success? ==> moved.value == e.(status := status))
    ensures var yielded := Yielded(e, claim, now);
      && (yielded.Success? <==> HoldsLease(e, claim, now) && !e.cancelRequested && Pending in NextStatuses(e.status))
      && (yielded.Success? ==>
            yielded.value == e.(status := Pending, lease := Some(Lease(claim.owner, claim.fence, now))))
  {
    GuardIsTheLease(e, claim, now);
    hide NextStatuses, HoldsLease;
  }

  // Who may be claimed: work that is ready and due, or running under no live lease, before its deadline;
  // a cancelled execution only to acknowledge that, which it waits for while running.
  lemma ClaimableWhen(e: Execution, now: int)
    ensures Claimable(e, now) <==>
      match e.status
      case Pending => e.due && e.alive && !e.cancelRequested
      case Retrying => e.due && e.alive && !e.cancelRequested
      case Running => e.alive && forall lease :: e.lease == Some(lease) ==> lease.expires <= now
      case _ => false
  {
  }

  // A claim gives its owner a live lease under a token higher than any before, and touches no step.
  lemma ClaimsAreFresh(e: Execution, owner: string, now: int, ttl: int)
    ensures var after := Claimed(e, owner, now, ttl);
      && after.lease.Some? && after.lease.value.owner == owner && after.lease.value.expires == now + ttl
      && after.lease.value.fence > (if e.lease.Some? then e.lease.value.fence else 0)
      && after.status == Running && after.steps == e.steps && after.cancelRequested == e.cancelRequested
      && after.alive == e.alive && after.compatible == e.compatible
  {
  }

  // Under a token that is not the highest any more, nothing can be written at any time, whatever its owner
  // still believes.
  lemma OvertakenCannotWrite(e: Execution, claim: Claim, k: nat, state: StepState, status: Status, now: int)
    requires k < |e.steps| && e.lease.Some? && e.lease.value.fence > claim.fence
    ensures StepMoved(e, claim, k, state, status, now).Failure? && AttemptResolved(e, claim, k, state, now).Failure?
    ensures Yielded(e, claim, now).Failure? && forall even :: StatusMoved(e, claim, status, even, now).Failure?
  {
    hide NextStates, NextStatuses;
  }

  // The steps a worker left in the middle of an attempt, in order.
  function RunningSteps(steps: seq<StepState>): (r: seq<nat>)
    ensures forall i :: 0 <= i < |r| ==> r[i] < |steps| && steps[r[i]] == StepRunning
    ensures forall i, j :: 0 <= i < j < |r| ==> r[i] < r[j]
    ensures forall k :: 0 <= k < |steps| && steps[k] == StepRunning ==> k in r
  {
    if steps == [] then []
    else
      var n := |steps| - 1;
      RunningSteps(steps[..n]) + if steps[n] == StepRunning then [n] else []
  }

  // --- What may be decided about an interrupted attempt ---

  // A reconciler reports one of four things, or breaks: it raises, or answers something else.
  datatype Verdict = ItSucceeded | NeverHappened | ItFailed | CannotTell | Breaks

  datatype Policy = Idempotent | Reconciled(reconcile: (nat, nat) -> Verdict) | Undeclared

  type Policies = map<nat, Policy>

  function PolicyOf(policies: Policies, k: nat): Policy {
    if k in policies then policies[k] else Undeclared
  }

  // The state an interrupted attempt is given, or none when its reconciler breaks.
  function Decided(policies: Policies, id: nat, k: nat): Option<StepState> {
    match PolicyOf(policies, k)
    case Idempotent => Some(StepPending)
    case Undeclared => Some(OutcomeUnknown)
    case Reconciled(reconcile) =>
      match reconcile(id, k)
      case ItSucceeded => Some(Succeeded)
      case NeverHappened => Some(StepPending)
      case ItFailed => Some(StepFailed)
      case CannotTell => Some(OutcomeUnknown)
      case Breaks => None
  }

  // The step's reconciler reports this verdict about its interrupted attempt.
  predicate Reports(policies: Policies, id: nat, k: nat, verdict: Verdict) {
    k in policies && policies[k].Reconciled? && policies[k].reconcile(id, k) == verdict
  }

  // What may become of a step under its policy: an interrupted one is repeated only if it may be or never
  // happened, is said to have succeeded or failed only if its reconciler says so, and is given up as
  // unknown only where nobody can tell. Any other step is left alone.
  predicate StepJust(policies: Policies, id: nat, k: nat, before: StepState, after: StepState) {
    || after == before
    || (before == StepRunning &&
        match after
        case StepPending => (k in policies && policies[k].Idempotent?) || Reports(policies, id, k, NeverHappened)
        case Succeeded => Reports(policies, id, k, ItSucceeded)
        case StepFailed => Reports(policies, id, k, ItFailed)
        case OutcomeUnknown => k !in policies || policies[k].Undeclared? || Reports(policies, id, k, CannotTell)
        case _ => false)
  }

  // What is decided of an attempt follows its policy, and nothing is exactly if its reconciler breaks.
  lemma DecidedIsJust(policies: Policies, id: nat, k: nat)
    ensures Decided(policies, id, k).None? <==> Reports(policies, id, k, Breaks)
    ensures Decided(policies, id, k).Some? ==>
      var state := Decided(policies, id, k).value;
      state != StepRunning && StepJust(policies, id, k, StepRunning, state)
    ensures Reports(policies, id, k, ItSucceeded) ==> Decided(policies, id, k) == Some(Succeeded)
  {
  }

  // Between two journals, nothing was guessed.
  predicate NeverGuessed(policies: Policies, id: nat, before: Execution, after: Execution) {
    && |after.steps| == |before.steps|
    && forall k :: 0 <= k < |before.steps| ==> StepJust(policies, id, k, before.steps[k], after.steps[k])
  }

  ghost predicate NothingGuessed(policies: Policies, before: seq<Execution>, after: seq<Execution>) {
    |after| == |before| && forall id :: 0 <= id < |before| ==> NeverGuessed(policies, id, before[id], after[id])
  }

  lemma NothingGuessedTwice(policies: Policies, a: seq<Execution>, b: seq<Execution>, c: seq<Execution>)
    requires NothingGuessed(policies, a, b) && NothingGuessed(policies, b, c)
    ensures NothingGuessed(policies, a, c)
  {
    forall id | 0 <= id < |a| ensures NeverGuessed(policies, id, a[id], c[id]) {
      assert NeverGuessed(policies, id, a[id], b[id]) && NeverGuessed(policies, id, b[id], c[id]);
    }
  }

  // --- One execution ---

  datatype Action = Resume | Park | Cancel

  datatype Decision = Decision(action: Action, state: StepState)

  // An execution as a claim leaves it: running, and under the claim's live lease.
  predicate Fresh(e: Execution, claim: Claim, now: int) {
    e.status == Running && Guarded(e, claim, now)
  }

  function AttemptResolved(e: Execution, claim: Claim, k: nat, state: StepState, now: int): Result<Execution>
    requires k < |e.steps|
  {
    if state == OutcomeUnknown then MarkedUnknown(e, claim, k, now) else Resolved(e, claim, k, state, now)
  }

  // What deciding the one interrupted step of a claimed execution leaves.
  function WithDecision(e: Execution, k: nat, state: StepState, now: int): Execution
    requires k < |e.steps|
  {
    var decided := e.(steps := e.steps[k := state]);
    if state == OutcomeUnknown then decided.(status := Waiting) else Released(decided.(status := Pending), now)
  }

  // A decision about a running step of a fresh claim is legal, and it is the last one the claim can make.
  lemma {:induction false} DecidingOnce(policies: Policies, e: Execution, claim: Claim, k: nat, state: StepState,
      now: int)
    requires Fresh(e, claim, now) && !e.cancelRequested && k < |e.steps| && e.steps[k] == StepRunning
    requires Decided(policies, claim.id, k) == Some(state)
    ensures AttemptResolved(e, claim, k, state, now) == Success(WithDecision(e, k, state, now))
    ensures NeverGuessed(policies, claim.id, e, WithDecision(e, k, state, now))
    ensures var after := WithDecision(e, k, state, now);
      forall j: nat, other :: j < |e.steps| ==>
        AttemptResolved(after, claim, j, other, now).Failure? &&
          AttemptResolved(after, claim, j, other, now).error in {StateError, LeaseError}
  {
  }

  predicate Same(before: seq<Execution>, after: seq<Execution>, id: nat) {
    |after| == |before| && id < |before| && after == before[id := after[id]]
  }

  // What becomes of the attempts a worker left: with one of them, its decision is recorded or none
  // is; with more, the pass fails, having recorded at most the first.
  predicate AttemptsRecovered(policies: Policies, claim: Claim, before: Execution, after: Execution,
      r: Result<StepState>, now: int) {
    var running := RunningSteps(before.steps);
    && running != [] && NeverGuessed(policies, claim.id, before, after)
    && var decided := Decided(policies, claim.id, running[0]);
       if r == Failure(Crashed) then |running| == 1 ==> after == before
       else if decided.None? then r == Failure(ReconcilerError) && after == before
       else if |running| == 1 then r == Success(decided.value) &&
         after == WithDecision(before, running[0], decided.value, now)
       else r.Failure? && r != Failure(VersionError) && after == WithDecision(before, running[0], decided.value, now)
  }

  // How a claim's first attempt is decided, what each way of ending then amounts to, and that no
  // second attempt can be.
  lemma FirstAttempt(policies: Policies, claim: Claim, before: Execution, running: seq<nat>, now: int)
    requires Fresh(before, claim, now) && !before.cancelRequested && running == RunningSteps(before.steps) &&
      running != []
    ensures var decided := Decided(policies, claim.id, running[0]);
      if decided.None? then
        AttemptsRecovered(policies, claim, before, before, Failure(ReconcilerError), now)
      else
        var after := WithDecision(before, running[0], decided.value, now);
        && AttemptsRecovered(policies, claim, before, before, Failure(Crashed), now)
        && AttemptResolved(before, claim, running[0], decided.value, now) == Success(after)
        && |after.steps| == |before.steps|
        && (|running| == 1 ==> AttemptsRecovered(policies, claim, before, after, Success(decided.value), now))
        && (|running| > 1 ==> forall error :: error != VersionError ==>
          AttemptsRecovered(policies, claim, before, after, Failure(error), now))
        && forall j: nat, other :: j < |before.steps| ==>
             AttemptResolved(after, claim, j, other, now).Failure?
             && AttemptResolved(after, claim, j, other, now).error in {StateError, LeaseError}
  {
    var decided := Decided(policies, claim.id, running[0]);
    if decided.Some? {
      DecidingOnce(policies, before, claim, running[0], decided.value, now);
    }
    hide Decided;
  }

  // What becomes of one claimed execution.
  predicate OneRecovered(policies: Policies, claim: Claim, before: Execution, after: Execution, r: Result<Decision>,
      now: int) {
    var running := RunningSteps(before.steps);
    && NeverGuessed(policies, claim.id, before, after)
    && (r.Failure? && |running| <= 1 ==> after == before)
    && if before.cancelRequested then
         r == Failure(Crashed) || (r == Success(Decision(Cancel, StepFailed)) && after == before.(status := Cancelled))
       else if running == [] then
         r == Failure(Crashed) || (r == Success(Decision(Resume, StepPending)) &&
           after == Released(before.(status := Pending), now))
       else if !before.compatible then r == Failure(VersionError) && after == before
       else if r.Success? then
         && r.value.action == (if r.value.state == OutcomeUnknown then Park else Resume)
         && |running| == 1 && AttemptsRecovered(policies, claim, before, after, Success(r.value.state), now)
       else AttemptsRecovered(policies, claim, before, after, Failure(r.error), now)
  }

  // What recovery can decide: an execution cancelled earlier, one with nothing interrupted, and one
  // of a known definition with a single interrupted attempt, whose reconciler does not break.
  predicate Recoverable(policies: Policies, e: Execution, id: nat) {
    var running := RunningSteps(e.steps);
    || e.cancelRequested || running == []
    || (e.compatible && |running| == 1 && !Reports(policies, id, running[0], Breaks))
  }

  // --- The report ---

  datatype Note = Incompatible | Unknown | CancelledEarlier | ResolvedTo(state: StepState)

  // What a note says happened to an execution, told from before the pass claimed it.
  predicate Explains(note: Note, policies: Policies, before: Execution, after: Execution, id: nat, owner: string,
      now: int, ttl: int) {
    var claimed := Claimed(before, owner, now, ttl);
    var running := RunningSteps(before.steps);
    match note
    case CancelledEarlier => before.cancelRequested && after == claimed.(status := Cancelled)
    case Incompatible => !before.cancelRequested && running != [] && !before.compatible &&
      after == claimed.(status := Failed)
    case Unknown =>
      && !before.cancelRequested && before.compatible && |running| == 1
      && Decided(policies, id, running[0]) == Some(OutcomeUnknown)
      && after == WithDecision(claimed, running[0], OutcomeUnknown, now)
    case ResolvedTo(state) =>
      && !before.cancelRequested && state != OutcomeUnknown
      && if running == [] then state == StepPending && after == Released(claimed.(status := Pending), now)
         else before.compatible && |running| == 1 && Decided(policies, id, running[0]) == Some(state)
              && after == WithDecision(claimed, running[0], state, now)
  }

  // What the passes mean by an expired lease.
  lemma ExpiredWhen(e: Execution, now: int)
    ensures Expired(e, now) <==> e.status == Running && exists lease :: e.lease == Some(lease) && lease.expires <= now
  {
    if e.lease.Some? {
      assert e.lease == Some(e.lease.value);
    }
  }

  // Executions whose lease expired, the ones that expired first at the front.
  ghost predicate ExpiredList(executions: seq<Execution>, now: int, ids: seq<nat>) {
    && (forall i :: 0 <= i < |ids| ==> ids[i] < |executions| && Expired(executions[ids[i]], now))
    && (forall i, j :: 0 <= i < j < |ids| ==>
          ids[i] != ids[j] && executions[ids[i]].lease.value.expires <= executions[ids[j]].lease.value.expires)
    && (forall id :: 0 <= id < |executions| && Expired(executions[id], now) ==> id in ids)
  }

  // The first `limit` of a list; a negative limit counts from its end.
  function Head(ids: seq<nat>, limit: int): (r: seq<nat>)
    ensures r <= ids
    ensures limit >= |ids| ==> r == ids
    ensures 0 <= limit < |ids| ==> |r| == limit
    ensures -|ids| <= limit < 0 ==> |ids| - |r| == -limit
    ensures limit < -|ids| ==> r == []
  {
    if limit < 0 then if |ids| + limit < 0 then [] else ids[..|ids| + limit]
    else if limit < |ids| then ids[..limit] else ids
  }

  // Claiming takes this execution at its turn: nothing older is claimable but what was decided before it.
  predicate InTurn(executions: seq<Execution>, now: int, ids: seq<nat>, i: nat)
    requires i < |ids|
  {
    && ids[i] < |executions| && Claimable(executions[ids[i]], now)
    && forall older :: 0 <= older < ids[i] && Claimable(executions[older], now) ==> older in ids[..i]
  }

  // Deciding the execution puts it back among those to claim, at the front.
  predicate Resumes(policies: Policies, e: Execution, id: nat) {
    var running := RunningSteps(e.steps);
    && !e.cancelRequested
    && (running == [] || (e.compatible && Decided(policies, id, running[0]) != Some(OutcomeUnknown)))
  }

  // Where a pass over the list has to stop, told from the journal it begins on: at an execution that
  // is not claimed in its turn, or right after one it resumes.
  predicate Halts(policies: Policies, executions: seq<Execution>, now: int, ids: seq<nat>, i: nat)
    requires i < |ids|
  {
    || !InTurn(executions, now, ids, i)
    || (i > 0 && ids[i - 1] < |executions| && Resumes(policies, executions[ids[i - 1]], ids[i - 1]))
  }

  // A pass that decides `count` executions has gone as far as it can, and no further.
  ghost predicate GoesAsFar(policies: Policies, executions: seq<Execution>, now: int, ids: seq<nat>, count: nat) {
    && count <= |ids|
    && (forall i :: 0 <= i < count ==> !Halts(policies, executions, now, ids, i))
    && (count < |ids| ==> Halts(policies, executions, now, ids, count))
  }

  datatype Report = Report(expired: seq<nat>, resumed: seq<nat>, parked: seq<nat>, stopped: seq<nat>,
    decisions: map<nat, Note>)

  // Every decided execution is listed once, under the heading its note belongs to.
  ghost predicate Filed(report: Report, count: nat) {
    && count <= |report.expired|
    && (forall id :: id in report.decisions <==> id in report.expired[..count])
    && (forall id :: id in report.resumed <==> id in report.decisions && report.decisions[id].ResolvedTo?)
    && (forall id :: id in report.parked <==> id in report.decisions && report.decisions[id] == Unknown)
    && (forall id :: id in report.stopped <==>
      id in report.decisions && report.decisions[id] in {Incompatible, CancelledEarlier})
    && |report.resumed| + |report.parked| + |report.stopped| == count
  }

  // The oldest execution there is to claim; executions are kept in the order they were submitted.
  predicate Oldest(executions: seq<Execution>, now: int, id: nat) {
    id < |executions| && Claimable(executions[id], now) && forall older :: 0 <= older < id ==>
      !Claimable(executions[older], now)
  }

  class JournalStore {
    var executions: seq<Execution>
    // How many more transactions go through before the process or its database stops.
    var writes: nat

    constructor (executions: seq<Execution>, writes: nat)
      ensures this.executions == executions && this.writes == writes
    {
      this.executions, this.writes := executions, writes;
    }

    // One transaction: the whole change or none of it.
    method Write(id: nat, change: Result<Execution>) returns (r: Result<()>)
      requires id < |executions|
      modifies this
      ensures r.Failure? ==> executions == old(executions)
      ensures r == Failure(Crashed) <==> old(writes) == 0 || change == Failure(Crashed)
      ensures old(writes) > 0 && change.Failure? ==> r == Failure(change.error)
      ensures r.Success? ==> change.Success? && executions == old(executions)[id := change.value]
      ensures old(writes) > 0 && change.Success? ==> r.Success?
      ensures writes == if old(writes) == 0 then 0 else old(writes) - 1
    {
      if writes == 0 {
        return Failure(Crashed);
      }
      writes := writes - 1;
      if change.Failure? {
        return Failure(change.error);
      }
      executions := executions[id := change.value];
      r := Success(());
    }

    // Claims the oldest execution there is to claim, under a higher fencing token than any before.
    method ClaimNext(owner: string, now: int, ttl: int) returns (r: Result<Option<Claim>>)
      modifies this
      ensures r.Failure? ==> r == Failure(Crashed) && old(writes) == 0 && executions == old(executions)
      ensures r == Success(None) ==> executions == old(executions) && forall id :: 0 <= id < |executions| ==>
        !Claimable(executions[id], now)
      ensures r.Success? && r.value.Some? ==>
        && Oldest(old(executions), now, r.value.value.id)
        && executions == old(executions)[r.value.value.id :=
          Claimed(old(executions)[r.value.value.id], owner, now, ttl)]
        && r.value.value == Claim(r.value.value.id, owner, executions[r.value.value.id].lease.value.fence)
      ensures writes >= old(writes) - 1
      ensures r.Success? <==> old(writes) > 0
    {
      var id := 0;
      while id < |executions| && !Claimable(executions[id], now)
        invariant id <= |executions|
        invariant forall older :: 0 <= older < id ==> !Claimable(executions[older], now)
      {
        id := id + 1;
      }
      if id == |executions| {
        if writes == 0 {
          return Failure(Crashed);
        }
        return Success(None);
      }
      var written := Write(id, Success(Claimed(executions[id], owner, now, ttl)));
      if written.Failure? {
        return Failure(written.error);
      }
      r := Success(Some(Claim(id, owner, executions[id].lease.value.fence)));
    }

    // Decides one interrupted attempt and records the decision.
    method ResolveInterruptedAttempt(claim: Claim, policies: Policies, k: nat, now: int) returns (r: Result<StepState>)
      requires claim.id < |executions| && k < |executions[claim.id].steps|
      modifies this
      ensures r.Failure? ==> executions == old(executions)
      ensures Decided(policies, claim.id, k).None? ==> r == Failure(ReconcilerError) && writes == old(writes)
      ensures r.Success? ==>
        Decided(policies, claim.id, k) == Some(r.value) && StepJust(policies, claim.id, k, StepRunning, r.value)
      ensures Decided(policies, claim.id, k).Some? ==>
        var change := AttemptResolved(old(executions)[claim.id], claim, k, Decided(policies, claim.id, k).value, now);
        && (r.Success? <==> old(writes) > 0 && change.Success?)
        && (r.Success? ==> executions == old(executions)[claim.id := change.value])
        && (r.Failure? ==> r.error == if old(writes) == 0 then Crashed else change.error)
      ensures writes >= old(writes) - 1
    {
      var decided := Decided(policies, claim.id, k);
      DecidedIsJust(policies, claim.id, k);
      if decided.None? {
        return Failure(ReconcilerError);
      }
      var e := executions[claim.id];
      var written := Write(claim.id, AttemptResolved(e, claim, k, decided.value, now));
      AttemptsNeverCrash(e, claim, k, decided.value, now);
      if written.Failure? {
        return Failure(written.error);
      }
      r := Success(decided.value);
    }

    // Decides the attempts a claimed execution's worker left. The first decision gives the claim up,
    // so a second one cannot be recorded.
    method ResolveAttempts(claim: Claim, policies: Policies, running: seq<nat>, now: int) returns (r: Result<StepState>)
      requires claim.id < |executions| && Fresh(executions[claim.id], claim, now) &&
        !executions[claim.id].cancelRequested
      requires running == RunningSteps(executions[claim.id].steps) && running != []
      modifies this
      ensures Same(old(executions), executions, claim.id)
      ensures AttemptsRecovered(policies, claim, old(executions)[claim.id], executions[claim.id], r, now)
      ensures r == Failure(Crashed) ==> old(writes) <= 1
      ensures writes + 2 >= old(writes)
    {
      ghost var before := executions[claim.id];
      FirstAttempt(policies, claim, before, running, now);
      hide AttemptsRecovered, NeverGuessed, Decided, AttemptResolved, WithDecision, Fresh, Guarded, RunningSteps,
        PolicyOf;
      var state := StepPending;
      var i := 0;
      while i < |running|
        invariant i <= 1 && i <= |running|
        invariant Same(old(executions), executions, claim.id) && writes + i >= old(writes)
        invariant i == 0 ==> executions == old(executions)
        invariant i == 1 ==>
          && Decided(policies, claim.id, running[0]) == Some(state)
          && executions[claim.id] == WithDecision(before, running[0], state, now)
      {
        var resolved := ResolveInterruptedAttempt(claim, policies, running[i], now);
        if resolved.Failure? {
          return Failure(resolved.error);
        }
        state := resolved.value;
        i := i + 1;
      }
      r := Success(state);
    }

    // Decides everything about one claimed execution.
    method RecoverOne(claim: Claim, policies: Policies, now: int) returns (r: Result<Decision>)
      requires claim.id < |executions| && Fresh(executions[claim.id], claim, now)
      modifies this
      ensures Same(old(executions), executions, claim.id)
      ensures OneRecovered(policies, claim, old(executions)[claim.id], executions[claim.id], r, now)
      ensures r != Failure(Crashed) ==> (r.Success? <==> Recoverable(policies, old(executions)[claim.id], claim.id))
      ensures r == Failure(Crashed) ==> old(writes) <= 1
      ensures writes + 2 >= old(writes)
    {
      var e := executions[claim.id];
      SimpleEndings(policies, claim, e, now);
      hide OneRecovered, AttemptsRecovered, NeverGuessed, RunningSteps, Guarded, StatusMoved, Yielded, Released,
        PolicyOf;
      if e.cancelRequested {
        var written := Write(claim.id, StatusMoved(e, claim, Cancelled, true, now));
        if written.Failure? {
          return Failure(written.error);
        }
        return Success(Decision(Cancel, StepFailed));
      }
      var running := RunningSteps(e.steps);
      if running == [] {
        var written := Write(claim.id, Yielded(e, claim, now));
        if written.Failure? {
          return Failure(written.error);
        }
        return Success(Decision(Resume, StepPending));
      }
      if !e.compatible {
        return Failure(VersionError);
      }
      var state := ResolveAttempts(claim, policies, running, now);
      r := if state.Failure? then Failure(state.error)
        else Success(Decision(if state.value == OutcomeUnknown then Park else Resume, state.value));
      AttemptsMakeOne(policies, claim, e, executions[claim.id], state, r, now);
    }

    // Fails an execution whose definition the worker does not have.
    method FailExecution(claim: Claim, now: int) returns (r: Result<()>)
      requires claim.id < |executions| && Fresh(executions[claim.id], claim, now) &&
        !executions[claim.id].cancelRequested
      modifies this
      ensures r.Failure? ==> r == Failure(Crashed) && old(writes) == 0 && executions == old(executions)
      ensures r.Success? ==> executions == old(executions)[claim.id := old(executions)[claim.id].(status := Failed)]
      ensures writes + 1 >= old(writes)
    {
      r := Write(claim.id, StatusMoved(executions[claim.id], claim, Failed, false, now));
    }

    // Claims one expired execution and decides it, or finds that something else comes first.
    method Examine(id: nat, policies: Policies, owner: string, now: int, ttl: int) returns (r: Result<Option<Note>>)
      requires ttl > 0 && id < |executions|
      modifies this
      ensures |executions| == |old(executions)| && NothingGuessed(policies, old(executions), executions)
      ensures Examined(policies, old(executions), executions, id, owner, now, ttl, r)
      ensures r == Failure(Crashed) ==> old(writes) <= 3
      ensures writes + 4 >= old(writes)
    {
      hide PolicyOf, Decided, WithDecision, RunningSteps, Claimable, OneRecovered, Explains, Broken, Recoverable;
      ghost var before := executions;
      var next := ClaimNext(owner, now, ttl);
      if next.Failure? {
        return Failure(next.error);
      }
      if next.value.None? || next.value.value.id != id {
        return Success(None);
      }
      var claim := next.value.value;
      var decision := RecoverOne(claim, policies, now);
      NotedAs(policies, before[id], executions[id], id, owner, now, ttl, decision);
      if decision == Failure(VersionError) {
        var failed := FailExecution(claim, now);
        if failed.Failure? {
          return Failure(failed.error);
        }
        r := Success(Some(Incompatible));
      } else if decision.Failure? {
        r := Failure(decision.error);
      } else {
        r := Success(Some(NoteOf(decision.value)));
      }
    }

    // One more decision of a pass that began on the journal `first`: it fails, ends the pass, or goes on.
    method DecideNext(ghost first: seq<Execution>, report: Report, done: nat, policies: Policies, owner: string,
        now: int, ttl: int)
      returns (r: Result<Option<Report>>)
      requires ttl > 0 && done < |report.expired| && report.expired[done] < |executions| == |first|
      requires Distinct(report.expired) && Underway(policies, first, executions, report, done, owner, now, ttl)
      modifies this
      ensures |executions| == |old(executions)| && NothingGuessed(policies, old(executions), executions)
      ensures r.Failure? ==>
        && (r != Failure(Crashed) ==> FailsAt(policies, first, now, report.expired, done))
        && Examined(policies, old(executions), executions, report.expired[done], owner, now, ttl, Failure(r.error))
      ensures r == Success(None) ==>
        Reported(policies, first, old(executions), executions, report, done, owner, now, ttl)
      ensures r.Success? && r.value.Some? ==>
        r.value.value.expired == report.expired &&
          Underway(policies, first, executions, r.value.value, done + 1, owner, now, ttl)
      ensures r == Failure(Crashed) ==> old(writes) <= 3
      ensures writes + 4 >= old(writes)
    {
      hide PolicyOf, Decided, RunningSteps, Explains, Expired, Claimable, FiledUnder, Distinct, Filed, Settles,
        Examined, NothingGuessed, Oldest;
      hide Underway, Reported, FailsAt;
      var id := report.expired[done];
      var examined := Examine(id, policies, owner, now, ttl);
      if examined.Failure? {
        ExaminedFails(policies, first, old(executions), executions, report, done, owner, now, ttl, examined.error);
        return Failure(examined.error);
      }
      if examined.value.None? {
        NothingExamined(policies, first, old(executions), executions, report, done, owner, now, ttl);
        return Success(None);
      }
      PassGoesOn(policies, first, old(executions), executions, report, done, examined.value.value, owner, now, ttl);
      r := Success(Some(FiledUnder(report, done, id, examined.value.value)));
    }

    // One pass over the executions whose lease expired. It decides a prefix of them, each as its note
    // says, and stops where it may no longer act on what it read, or fails at a broken execution.
    // `settled` is the journal as the decisions left it, and `decided` what they are.
    method Recover(expired: seq<nat>, policies: Policies, owner: string, now: int, ttl: int, limit: int)
      returns (r: Result<Report>, ghost decided: Report, ghost count: nat, ghost settled: seq<Execution>)
      requires ttl > 0 && ExpiredList(executions, now, expired)
      modifies this
      ensures NothingGuessed(policies, old(executions), executions)
      ensures decided.expired == Head(expired, limit)
      ensures PassEnded(policies, old(executions), settled, executions, r, decided, count, owner, now, ttl)
      ensures r.Success? ==> r.value == decided
      ensures r == Failure(Crashed) ==> old(writes) <= 4 * count + 3
    {
      hide ExpiredList, Expired, Underway, Reported, FailsAt, Head, Distinct, Within, Examined;
      hide NothingGuessed, NeverGuessed, PolicyOf;
      var ids := Head(expired, limit);
      var report := Report(ids, [], [], [], map[]);
      PassBegins(policies, executions, now, expired, ids, owner, ttl);
      ghost var first := executions;
      var done := 0;
      decided, count, settled := report, 0, executions;
      while done < |ids|
        invariant count == done <= |ids| && report.expired == ids && settled == executions && decided == report
        invariant |executions| == |first| && NothingGuessed(policies, first, executions)
        invariant Underway(policies, first, executions, report, count, owner, now, ttl)
        invariant writes + 4 * done >= old(writes)
      {
        AllWithin(ids, |first|, done);
        var next := DecideNext(first, report, done, policies, owner, now, ttl);
        NothingGuessedTwice(policies, first, settled, executions);
        if next.Failure? {
          return Failure(next.error), decided, count, settled;
        }
        if next.value.None? {
          NothingBrokenDecided(policies, first, settled, executions, report, count, owner, now, ttl);
          return Success(report), decided, count, settled;
        }
        report := next.value.value;
        done := done + 1;
        decided, count, settled := report, done, executions;
      }
      PassEnds(policies, first, executions, report, count, owner, now, ttl);
      NothingBrokenDecided(policies, first, executions, executions, report, count, owner, now, ttl);
      r := Success(report);
    }
  }

  // How a pass ends. If it is not cut short, it fails exactly if it comes to a broken execution. Where it
  // fails, the executions before are decided, and no other but the next one has changed.
  ghost predicate PassEnded(policies: Policies, before: seq<Execution>, settled: seq<Execution>, after: seq<Execution>,
      r: Result<Report>, decided: Report, count: nat, owner: string, now: int, ttl: int) {
    match r
    case Success(report) =>
      && Reported(policies, before, settled, after, report, count, owner, now, ttl)
      && forall i: nat :: !FailsAt(policies, before, now, report.expired, i)
    case Failure(error) =>
      && Underway(policies, before, settled, decided, count, owner, now, ttl)
      && (error != Crashed ==> FailsAt(policies, before, now, decided.expired, count))
      && count < |decided.expired| && decided.expired[count] < |settled|
      && Examined(policies, settled, after, decided.expired[count], owner, now, ttl, Failure(error))
  }

  // Each decided execution is as its note says, and every other one as it was.
  ghost predicate Settles(policies: Policies, before: seq<Execution>, settled: seq<Execution>,
      decisions: map<nat, Note>, owner: string, now: int, ttl: int) {
    && |settled| == |before|
    && forall id :: 0 <= id < |before| ==>
         if id in decisions then Explains(decisions[id], policies, before[id], settled[id], id, owner, now, ttl)
         else settled[id] == before[id]
  }

  ghost predicate LeavesAtMostOneClaim(settled: seq<Execution>, after: seq<Execution>, owner: string, now: int,
      ttl: int) {
    || after == settled
    || exists id: nat ::
         Oldest(settled, now, id) && after == settled[id := Claimed(settled[id], owner, now, ttl)]
  }

  // An execution the pass resumes is at once the oldest one to claim again. So it is the last one
  // decided, and if the list goes on, the pass claims it a second time and stops there.
  ghost predicate ResumesOnlyTheLast(report: Report, count: nat, settled: seq<Execution>, after: seq<Execution>,
      owner: string, now: int, ttl: int)
    requires count <= |report.expired|
  {
    && |report.resumed| <= 1
    && (report.resumed != [] ==>
          var id := report.resumed[0];
          && count > 0 && report.expired[count - 1] == id && id < |settled|
          && (count < |report.expired| ==> after == settled[id := Claimed(settled[id], owner, now, ttl)]))
  }

  // What a finished pass reports, and leaves.
  ghost predicate Reported(policies: Policies, before: seq<Execution>, settled: seq<Execution>, after: seq<Execution>,
      report: Report, count: nat, owner: string, now: int, ttl: int) {
    && Filed(report, count)
    && Settles(policies, before, settled, report.decisions, owner, now, ttl)
    && LeavesAtMostOneClaim(settled, after, owner, now, ttl)
    && ResumesOnlyTheLast(report, count, settled, after, owner, now, ttl)
    && GoesAsFar(policies, before, now, report.expired, count)
    && (count < |report.expired| ==> !Oldest(settled, now, report.expired[count]))
  }

  predicate Within(ids: seq<nat>, count: nat) {
    forall i :: 0 <= i < |ids| ==> ids[i] < count
  }

  lemma AllWithin(ids: seq<nat>, count: nat, k: nat)
    requires Within(ids, count) && k < |ids|
    ensures ids[k] < count
  {
  }

  predicate Distinct(ids: seq<nat>) {
    forall i, j :: 0 <= i < j < |ids| ==> ids[i] != ids[j]
  }

  // A finished pass has decided its whole list exactly if nowhere in it there was cause to stop.
  lemma DecidesAllExactly(policies: Policies, before: seq<Execution>, settled: seq<Execution>, after: seq<Execution>,
      report: Report, count: nat, owner: string, now: int, ttl: int)
    requires Reported(policies, before, settled, after, report, count, owner, now, ttl)
    ensures count == |report.expired| <==>
      forall i :: 0 <= i < |report.expired| ==> !Halts(policies, before, now, report.expired, i)
  {
    hide Halts, Filed, Settles;
  }

  lemma PassBegins(policies: Policies, executions: seq<Execution>, now: int, expired: seq<nat>, ids: seq<nat>,
      owner: string, ttl: int)
    requires ExpiredList(executions, now, expired) && ids <= expired
    ensures Within(ids, |executions|) && Distinct(ids)
    ensures NothingGuessed(policies, executions, executions)
    ensures Underway(policies, executions, executions, Report(ids, [], [], [], map[]), 0, owner, now, ttl)
  {
    hide PolicyOf, Expired;
  }

  // An execution whose recovery fails: of a known definition, with more than one interrupted attempt
  // or with one whose reconciler breaks.
  predicate Broken(policies: Policies, e: Execution, id: nat) {
    e.compatible && !Recoverable(policies, e, id)
  }

  // Where a pass fails that is not cut short, told from the journal it begins on: at the first broken
  // execution it comes to.
  ghost predicate FailsAt(policies: Policies, executions: seq<Execution>, now: int, ids: seq<nat>, i: nat) {
    && i < |ids| && ids[i] < |executions|
    && (forall j :: 0 <= j <= i ==> !Halts(policies, executions, now, ids, j))
    && Broken(policies, executions[ids[i]], ids[i])
  }

  lemma ExaminedFails(policies: Policies, first: seq<Execution>, before: seq<Execution>, after: seq<Execution>,
      report: Report, count: nat, owner: string, now: int, ttl: int, error: Error)
    requires Underway(policies, first, before, report, count, owner, now, ttl) && count < |report.expired|
    requires Distinct(report.expired) && report.expired[count] < |first| == |before|
    requires Examined(policies, before, after, report.expired[count], owner, now, ttl, Failure(error))
    ensures error == Crashed || FailsAt(policies, first, now, report.expired, count)
  {
    hide Explains, Claimable, Halts, Broken, OneRecovered;
    NextIsOldest(policies, first, before, report, count, owner, now, ttl);
    OnlyNewOnesDecided(report, count, report.expired[count]);
    hide Oldest, Filed;
  }

  // A pass that succeeds has come to no broken execution.
  lemma NothingBrokenDecided(policies: Policies, before: seq<Execution>, settled: seq<Execution>, after: seq<Execution>,
      report: Report, count: nat, owner: string, now: int, ttl: int)
    requires Reported(policies, before, settled, after, report, count, owner, now, ttl)
    ensures forall i: nat :: !FailsAt(policies, before, now, report.expired, i)
  {
    hide Halts, LeavesAtMostOneClaim, ResumesOnlyTheLast, Oldest;
    forall i: nat ensures !FailsAt(policies, before, now, report.expired, i) {
      if i < count && report.expired[i] < |before| {
        assert report.expired[i] in report.expired[..count];
        var id := report.expired[i];
        DecidedIsNotBroken(report.decisions[id], policies, before[id], settled[id], id, owner, now, ttl);
      }
    }
  }

  lemma DecidedIsNotBroken(note: Note, policies: Policies, before: Execution, after: Execution, id: nat, owner: string,
      now: int, ttl: int)
    requires Explains(note, policies, before, after, id, owner, now, ttl)
    ensures !Broken(policies, before, id)
  {
    hide Decided, RunningSteps, Reports, StepJust;
    if RunningSteps(before.steps) != [] {
      DecidedIsJust(policies, id, RunningSteps(before.steps)[0]);
    }
  }

  // The pass so far: what it decided, and that a resumed execution is the last one and comes next.
  ghost predicate Underway(policies: Policies, first: seq<Execution>, executions: seq<Execution>, report: Report,
      count: nat, owner: string, now: int, ttl: int) {
    && Filed(report, count)
    && Settles(policies, first, executions, report.decisions, owner, now, ttl)
    && |report.resumed| <= 1
    && (report.resumed != [] ==>
          count > 0 && report.resumed[0] == report.expired[count - 1] &&
            Oldest(executions, now, report.expired[count - 1]))
    && forall i :: 0 <= i < count ==> !Halts(policies, first, now, report.expired, i)
  }

  // A note of a resumed execution says that its decision puts it back to be claimed; any other note
  // takes it out of reach.
  lemma NotesTellWhoResumes(note: Note, policies: Policies, before: Execution, after: Execution, id: nat, owner: string,
      now: int, ttl: int)
    requires Explains(note, policies, before, after, id, owner, now, ttl) && Claimable(before, now)
    ensures note.ResolvedTo? <==> Resumes(policies, before, id)
    ensures note.ResolvedTo? <==> Claimable(after, now)
  {
    hide Decided, RunningSteps;
  }

  // What has been decided so far leaves the next execution the oldest one exactly if the pass need
  // not halt at it.
  lemma NextIsOldest(policies: Policies, first: seq<Execution>, executions: seq<Execution>, report: Report, count: nat,
      owner: string, now: int, ttl: int)
    requires Underway(policies, first, executions, report, count, owner, now, ttl) && count < |report.expired|
    requires Distinct(report.expired) && report.expired[count] < |first|
    ensures Oldest(executions, now, report.expired[count]) <==> !Halts(policies, first, now, report.expired, count)
  {
    var ids: seq<nat>, id: nat := report.expired, report.expired[count];
    OnlyNewOnesDecided(report, count, id);
    forall i | 0 <= i < count
      ensures ids[i] < |first| && ids[i] in report.decisions
      ensures Claimable(executions[ids[i]], now) <==> Resumes(policies, first[ids[i]], ids[i])
      ensures report.decisions[ids[i]].ResolvedTo? <==> Resumes(policies, first[ids[i]], ids[i])
    {
      assert !Halts(policies, first, now, ids, i) && ids[i] in ids[..count];
      NotesTellWhoResumes(report.decisions[ids[i]], policies, first[ids[i]], executions[ids[i]], ids[i], owner,
        now, ttl);
    }
    hide Explains, Claimable, Resumes;
    if count > 0 && Resumes(policies, first[ids[count - 1]], ids[count - 1]) {
      assert ids[count - 1] in report.resumed;
      assert Oldest(executions, now, ids[count - 1]);
    } else {
      assert report.resumed == [];
      forall older | 0 <= older < id ensures Claimable(executions[older], now) <==>
        Claimable(first[older], now) && older !in ids[..count] {
        if older in ids[..count] {
          var i :| 0 <= i < count && ids[i] == older;
          assert ids[i] !in report.resumed;
        }
      }
    }
  }

  lemma PassEnds(policies: Policies, first: seq<Execution>, executions: seq<Execution>, report: Report, count: nat,
      owner: string, now: int, ttl: int)
    requires Underway(policies, first, executions, report, count, owner, now, ttl) && count == |report.expired|
    ensures Reported(policies, first, executions, executions, report, count, owner, now, ttl)
  {
    hide Claimable, Settles, Filed, Halts;
  }

  lemma NothingResumedYet(policies: Policies, first: seq<Execution>, executions: seq<Execution>, report: Report,
      count: nat, owner: string, now: int, ttl: int)
    requires Underway(policies, first, executions, report, count, owner, now, ttl) && count < |report.expired|
    requires Distinct(report.expired) && Oldest(executions, now, report.expired[count])
    ensures report.resumed == []
  {
    hide Claimable, Settles, Filed, Halts;
  }

  // One more decision keeps the pass underway.
  lemma PassGoesOn(policies: Policies, first: seq<Execution>, before: seq<Execution>, after: seq<Execution>,
      report: Report, count: nat, note: Note, owner: string, now: int, ttl: int)
    requires Underway(policies, first, before, report, count, owner, now, ttl) && count < |report.expired|
    requires Distinct(report.expired) && report.expired[count] < |first| == |before|
    requires Examined(policies, before, after, report.expired[count], owner, now, ttl, Success(Some(note)))
    ensures report.expired[count] !in report.expired[..count]
    ensures Underway(policies, first, after, FiledUnder(report, count, report.expired[count], note), count + 1,
      owner, now, ttl)
  {
    hide Explains, Claimable, Settles, Examined, Same, Halts, Oldest;
    var id := report.expired[count];
    NoteExamined(policies, before, after, id, note, owner, now, ttl);
    NextIsOldest(policies, first, before, report, count, owner, now, ttl);
    OnlyNewOnesDecided(report, count, id);
    SettlesOneMore(policies, first, before, after, report.decisions, id, note, owner, now, ttl);
    NothingResumedYet(policies, first, before, report, count, owner, now, ttl);
    hide Filed, Distinct;
    var filed := FiledUnder(report, count, id, note);
    assert filed.resumed == if note.ResolvedTo? then [id] else [];
    assert forall i :: 0 <= i < count + 1 ==> !Halts(policies, first, now, filed.expired, i);
  }

  // Where an examination decides, nothing else came first, and a resumed execution comes first again.
  lemma NoteExamined(policies: Policies, before: seq<Execution>, after: seq<Execution>, id: nat, note: Note,
      owner: string, now: int, ttl: int)
    requires id < |before| && Examined(policies, before, after, id, owner, now, ttl, Success(Some(note)))
    ensures Oldest(before, now, id) && Same(before, after, id)
    ensures Explains(note, policies, before[id], after[id], id, owner, now, ttl)
    ensures note.ResolvedTo? ==> Oldest(after, now, id)
  {
    if note.ResolvedTo? {
      ResumedComesNext(policies, before, after, id, note, owner, now, ttl);
    }
    hide Explains, Claimable;
  }

  // A report with one more decision, filed where it belongs.
  function FiledUnder(report: Report, ghost count: nat, id: nat, note: Note): (r: Report)
    requires count < |report.expired| && report.expired[count] == id
    ensures Filed(report, count) && id !in report.expired[..count] ==> Filed(r, count + 1)
    ensures r.expired == report.expired && r.decisions == report.decisions[id := note]
    ensures r.resumed == if note.ResolvedTo? then report.resumed + [id] else report.resumed
  {
    assert report.expired[..count + 1] == report.expired[..count] + [id];
    var noted := report.(decisions := report.decisions[id := note]);
    match note
    case ResolvedTo(_) => noted.(resumed := report.resumed + [id])
    case Unknown => noted.(parked := report.parked + [id])
    case _ => noted.(stopped := report.stopped + [id])
  }

  lemma OnlyNewOnesDecided(report: Report, count: nat, id: nat)
    requires Filed(report, count) && count < |report.expired| && report.expired[count] == id
    requires Distinct(report.expired)
    ensures id !in report.expired[..count] && id !in report.decisions
  {
  }

  lemma SettlesOneMore(policies: Policies, before: seq<Execution>, middle: seq<Execution>, after: seq<Execution>,
      decisions: map<nat, Note>, id: nat, note: Note, owner: string, now: int, ttl: int)
    requires Settles(policies, before, middle, decisions, owner, now, ttl) && id !in decisions
    requires Same(middle, after, id) && Explains(note, policies, middle[id], after[id], id, owner, now, ttl)
    ensures Settles(policies, before, after, decisions[id := note], owner, now, ttl)
  {
    hide Explains;
    forall other | 0 <= other < |before|
      ensures if other in decisions[id := note]
        then Explains(decisions[id := note][other], policies, before[other], after[other], other, owner, now, ttl)
        else after[other] == before[other]
    {
      assert other != id ==> after[other] == middle[other];
    }
  }

  // Where an examination finds nothing of its own to decide, the pass ends as it promises to.
  lemma NothingExamined(policies: Policies, first: seq<Execution>, before: seq<Execution>, after: seq<Execution>,
      report: Report, count: nat, owner: string, now: int, ttl: int)
    requires Underway(policies, first, before, report, count, owner, now, ttl) && count < |report.expired|
    requires Distinct(report.expired) && report.expired[count] < |first| == |before|
    requires Examined(policies, before, after, report.expired[count], owner, now, ttl, Success(None))
    ensures Reported(policies, first, before, after, report, count, owner, now, ttl)
  {
    NextIsOldest(policies, first, before, report, count, owner, now, ttl);
    hide Claimable, Settles, Filed, Halts;
  }

  // A resumed execution, which was the oldest to claim, is the oldest to claim once more.
  lemma {:induction false} ResumedComesNext(policies: Policies, before: seq<Execution>, after: seq<Execution>, id: nat,
      note: Note, owner: string, now: int, ttl: int)
    requires Oldest(before, now, id) && Same(before, after, id) && note.ResolvedTo?
    requires Explains(note, policies, before[id], after[id], id, owner, now, ttl)
    ensures Oldest(after, now, id)
  {
    hide RunningSteps, Decided;
    assert Claimable(after[id], now);
    hide Claimable, Explains;
    forall older | 0 <= older < id ensures !Claimable(after[older], now) {
      assert after[older] == before[older];
    }
  }

  function NoteOf(decision: Decision): Note {
    match decision.action
    case Park => Unknown
    case Cancel => CancelledEarlier
    case Resume => ResolvedTo(decision.state)
  }

  // What recovering a claimed execution makes of the pass: its note, a definition that is not there,
  // or a failure that only a broken execution causes.
  lemma NotedAs(policies: Policies, before: Execution, after: Execution, id: nat, owner: string, now: int, ttl: int,
      decision: Result<Decision>)
    requires OneRecovered(policies, ClaimOf(before, id, owner), Claimed(before, owner, now, ttl), after, decision, now)
    ensures NeverGuessed(policies, id, before, after)
    ensures decision.Success? ==> Explains(NoteOf(decision.value), policies, before, after, id, owner, now, ttl)
    ensures decision == Failure(VersionError) ==>
      && Explains(Incompatible, policies, before, after.(status := Failed), id, owner, now, ttl)
      && !after.cancelRequested && after == Claimed(before, owner, now, ttl)
    ensures decision.Failure? && decision.error != Crashed && decision.error != VersionError ==>
      Broken(policies, before, id)
  {
    hide Decided, RunningSteps, WithDecision, PolicyOf, Reports, StepJust;
    if RunningSteps(before.steps) != [] {
      DecidedIsJust(policies, id, RunningSteps(before.steps)[0]);
    }
  }

  // The claim that taking the execution gives.
  function ClaimOf(e: Execution, id: nat, owner: string): Claim {
    Claim(id, owner, Claimed(e, owner, 0, 0).lease.value.fence)
  }

  // What examining the execution `id` does: nothing but an abandoned claim when another comes first,
  // and otherwise what the note says, to that execution alone.
  ghost predicate Examined(policies: Policies, before: seq<Execution>, after: seq<Execution>, id: nat, owner: string,
      now: int, ttl: int, r: Result<Option<Note>>)
    requires id < |before|
  {
    match r
    case Success(noted) =>
      (match noted
       case None =>
         || (after == before && forall any: nat :: any < |before| ==> !Claimable(before[any], now))
         || exists other: nat ::
              && other != id && Oldest(before, now, other)
              && after == before[other := Claimed(before[other], owner, now, ttl)]
       case Some(note) =>
         && Oldest(before, now, id) && Same(before, after, id)
         && Explains(note, policies, before[id], after[id], id, owner, now, ttl))
    case Failure(error) =>
      && (after == before || (Oldest(before, now, id) && Same(before, after, id)))
      && (error != Crashed ==>
            && Oldest(before, now, id) && Broken(policies, before[id], id)
            && OneRecovered(policies, ClaimOf(before[id], id, owner), Claimed(before[id], owner, now, ttl), after[id],
              Failure(error), now))
  }

  // The endings that decide no attempt: cancelled earlier, nothing interrupted, no such definition.
  lemma SimpleEndings(policies: Policies, claim: Claim, e: Execution, now: int)
    requires Fresh(e, claim, now)
    ensures e.cancelRequested ==>
      && StatusMoved(e, claim, Cancelled, true, now) == Success(e.(status := Cancelled))
      && OneRecovered(policies, claim, e, e.(status := Cancelled), Success(Decision(Cancel, StepFailed)), now)
    ensures !e.cancelRequested && RunningSteps(e.steps) == [] ==>
      && Yielded(e, claim, now) == Success(Released(e.(status := Pending), now))
      && OneRecovered(policies, claim, e, Released(e.(status := Pending), now),
        Success(Decision(Resume, StepPending)), now)
    ensures e.cancelRequested || RunningSteps(e.steps) == [] ==>
      OneRecovered(policies, claim, e, e, Failure(Crashed), now)
    ensures !e.cancelRequested && RunningSteps(e.steps) != [] && !e.compatible ==>
      OneRecovered(policies, claim, e, e, Failure(VersionError), now)
  {
    hide PolicyOf, AttemptsRecovered, RunningSteps;
  }

  lemma AttemptsMakeOne(policies: Policies, claim: Claim, before: Execution, after: Execution, state: Result<StepState>,
      r: Result<Decision>, now: int)
    requires !before.cancelRequested && RunningSteps(before.steps) != [] && before.compatible
    requires AttemptsRecovered(policies, claim, before, after, state, now)
    requires r == if state.Failure? then Failure(state.error)
      else Success(Decision(if state.value == OutcomeUnknown then Park else Resume, state.value))
    ensures OneRecovered(policies, claim, before, after, r, now)
    ensures r != Failure(Crashed) ==> (r.Success? <==> Recoverable(policies, before, claim.id))
  {
    hide Decided, WithDecision, RunningSteps, PolicyOf, NeverGuessed, Reports, StepJust;
    DecidedIsJust(policies, claim.id, RunningSteps(before.steps)[0]);
  }

  lemma AttemptsNeverCrash(e: Execution, claim: Claim, k: nat, state: StepState, now: int)
    requires k < |e.steps|
    ensures AttemptResolved(e, claim, k, state, now) != Failure(Crashed)
  {
  }

  // Two attempts at once are half recorded: the first is given up as unknown and the execution is
  // parked, and the second stays running in it.
  method TwoInterruptedAttempts() returns (r: Result<Decision>, left: Execution)
    ensures r.Failure? && r != Failure(Crashed)
    ensures left.status == Waiting && left.steps == [OutcomeUnknown, StepRunning]
  {
    var lease := Lease("recovery", 2, 30);
    var e := Execution(Running, [StepRunning, StepRunning], Some(lease), false, true, true, true);
    var claim := Claim(0, "recovery", 2);
    TwoAreInterrupted(e.steps);
    var store := new JournalStore([e], 5);
    r := store.RecoverOne(claim, map[], 10);
    left := store.executions[0];
  }

  lemma TwoAreInterrupted(steps: seq<StepState>)
    requires steps == [StepRunning, StepRunning]
    ensures RunningSteps(steps) == [0, 1]
  {
    OneMoreRunning([]);
    OneMoreRunning([StepRunning]);
    assert [] + [StepRunning] == [StepRunning] && [StepRunning] + [StepRunning] == steps;
    assert RunningSteps([]) == [];
    hide RunningSteps;
  }

  lemma OneMoreRunning(steps: seq<StepState>)
    ensures RunningSteps(steps + [StepRunning]) == RunningSteps(steps) + [|steps|]
  {
    assert (steps + [StepRunning])[..|steps|] == steps;
  }

  // --- Crash and recovery rounds ---

  // When a lease expires; what no lease has is of no interest.
  function Expiry(executions: seq<Execution>, id: nat): int {
    if id < |executions| && executions[id].lease.Some? then executions[id].lease.value.expires else 0
  }

  predicate Ordered(executions: seq<Execution>, ids: seq<nat>) {
    forall i, j :: 0 <= i < j < |ids| ==> Expiry(executions, ids[i]) <= Expiry(executions, ids[j])
  }

  // The place of one more expired execution: after those whose leases expired no later.
  function Place(executions: seq<Execution>, ids: seq<nat>, id: nat): (k: nat)
    ensures k <= |ids|
    ensures forall i :: 0 <= i < k ==> Expiry(executions, ids[i]) <= Expiry(executions, id)
    ensures k < |ids| ==> Expiry(executions, id) < Expiry(executions, ids[k])
  {
    if ids == [] || Expiry(executions, id) < Expiry(executions, ids[0]) then 0 else 1 + Place(executions, ids[1..], id)
  }

  function Placed(ids: seq<nat>, k: nat, id: nat): (r: seq<nat>)
    requires k <= |ids|
    ensures |r| == |ids| + 1
    ensures forall i :: 0 <= i < |r| ==> r[i] == if i < k then ids[i] else if i == k then id else ids[i - 1]
  {
    ids[..k] + [id] + ids[k..]
  }

  lemma PlacedInOrder(executions: seq<Execution>, ids: seq<nat>, id: nat, k: nat)
    requires k == Place(executions, ids, id) && Ordered(executions, ids)
    ensures Ordered(executions, Placed(ids, k, id))
  {
    hide Expiry, Place;
    var r := Placed(ids, k, id);
    forall i, j | 0 <= i < j < |r| ensures Expiry(executions, r[i]) <= Expiry(executions, r[j]) {
      var a, b := if i < k then i else i - 1, if j < k then j else j - 1;
      if i == k {
        assert r[j] == ids[b] && (k < b ==> Expiry(executions, ids[k]) <= Expiry(executions, ids[b]));
      } else if j == k {
        assert r[i] == ids[a];
      } else {
        assert r[i] == ids[a] && r[j] == ids[b] && Expiry(executions, ids[a]) <= Expiry(executions, ids[b]);
      }
    }
  }

  lemma PlacedOnce(ids: seq<nat>, k: nat, id: nat)
    requires k <= |ids| && Distinct(ids) && id !in ids
    ensures Distinct(Placed(ids, k, id))
    ensures forall x :: x in Placed(ids, k, id) <==> x in ids || x == id
  {
    assert ids == ids[..k] + ids[k..];
  }

  method ExpiredLeases(executions: seq<Execution>, now: int) returns (ids: seq<nat>)
    ensures ExpiredList(executions, now, ids)
  {
    hide Place, Distinct, Ordered, ExpiredList;
    ids := [];
    NoneListed(executions, now);
    for id := 0 to |executions|
      invariant Listed(executions, now, ids, id)
    {
      if Expired(executions[id], now) {
        var k := Place(executions, ids, id);
        PlacedInOrder(executions, ids, id, k);
        PlacedOnce(ids, k, id);
        ids := Placed(ids, k, id);
      }
    }
    AllListed(executions, now, ids);
  }

  // The expired ones among the first executions, each once, in order of expiry.
  ghost predicate Listed(executions: seq<Execution>, now: int, ids: seq<nat>, count: nat) {
    && Distinct(ids) && Ordered(executions, ids)
    && forall id: nat :: id in ids <==> id < count && id < |executions| && Expired(executions[id], now)
  }

  lemma NoneListed(executions: seq<Execution>, now: int)
    ensures Listed(executions, now, [], 0)
  {
  }

  lemma AllListed(executions: seq<Execution>, now: int, ids: seq<nat>)
    requires Listed(executions, now, ids, |executions|)
    ensures ExpiredList(executions, now, ids)
  {
    forall i | 0 <= i < |ids| ensures ids[i] < |executions| && Expired(executions[ids[i]], now) {
      assert ids[i] in ids;
    }
    forall i, j | 0 <= i < j < |ids| ensures Expiry(executions, ids[i]) <= Expiry(executions, ids[j]) {}
  }

  // A round: the clock and the owner it runs under, and how many writes go through before it is cut short.
  datatype Round = Round(writes: nat, now: int, owner: string, ttl: int, limit: int)

  // A pass that takes one journal to another, under the round's clock and within its writes.
  ghost predicate Passes(policies: Policies, before: seq<Execution>, after: seq<Execution>, round: Round) {
    exists r, decided, count: nat, settled ::
      PassMade(policies, before, after, round, r, decided, count, settled)
  }

  ghost predicate PassMade(policies: Policies, before: seq<Execution>, after: seq<Execution>, round: Round,
      r: Result<Report>, decided: Report, count: nat, settled: seq<Execution>) {
    && PassEnded(policies, before, settled, after, r, decided, count, round.owner, round.now, round.ttl)
    && (r.Success? ==> r.value == decided)
    && (r == Failure(Crashed) ==> round.writes <= 4 * count + 3)
    && exists expired :: ExpiredList(before, round.now, expired) && decided.expired == Head(expired, round.limit)
  }

  // Any number of recovery passes over one journal, each going on from what the one before left, and
  // each cut short where its writes run out. In the end nothing has been guessed.
  method RecoverAgain(first: seq<Execution>, policies: Policies, rounds: seq<Round>)
    returns (last: seq<Execution>, ghost journals: seq<seq<Execution>>)
    requires forall k :: 0 <= k < |rounds| ==> rounds[k].ttl > 0
    ensures |journals| == |rounds| + 1 && journals[0] == first && journals[|rounds|] == last
    ensures forall k :: 0 <= k < |rounds| ==> Passes(policies, journals[k], journals[k + 1], rounds[k])
    ensures NothingGuessed(policies, first, last)
  {
    hide NothingGuessed, ExpiredList, PassEnded, Head;
    last, journals := first, [first];
    NothingGuessedYet(policies, first);
    for k := 0 to |rounds|
      invariant |journals| == k + 1 && journals[0] == first && journals[k] == last
      invariant forall j :: 0 <= j < k ==> Passes(policies, journals[j], journals[j + 1], rounds[j])
      invariant NothingGuessed(policies, first, last)
    {
      var next := RecoverOnce(last, policies, rounds[k]);
      NothingGuessedTwice(policies, first, last, next);
      last, journals := next, journals + [next];
    }
  }

  method RecoverOnce(before: seq<Execution>, policies: Policies, round: Round) returns (after: seq<Execution>)
    requires round.ttl > 0
    ensures Passes(policies, before, after, round) && NothingGuessed(policies, before, after)
  {
    hide NothingGuessed, ExpiredList, PassEnded, Head;
    var store := new JournalStore(before, round.writes);
    var expired := ExpiredLeases(before, round.now);
    var r;
    ghost var decided, count, settled;
    r, decided, count, settled := store.Recover(expired, policies, round.owner, round.now, round.ttl, round.limit);
    after := store.executions;
    assert PassMade(policies, before, after, round, r, decided, count, settled);
  }

  lemma NothingGuessedYet(policies: Policies, executions: seq<Execution>)
    ensures NothingGuessed(policies, executions, executions)
  {
    hide PolicyOf;
  }
}
