// The application's lifetime: start, request contexts, draining, and the closing of what it owns.
// Every await of start, stop and RequestContext.close is a point where other tasks may step.
module Lifecycle {
  import opened Providers
  import opened Ownership

  type TaskId = nat

  datatype Phase = New | Validated | Starting | Ready | Stopping | Stopped | Failed

  // Where the one coroutine holding the lifecycle lock is suspended.
  datatype Suspended = Idle | StartResolving | StartClosing | StopWaiting | StopPlugins | StopClosing

  datatype ContextState = Open | Closing(exiting: bool) | Done

  // One tracked (provider, instance) pair: its place in the order of tracking, how many closes had
  // been made by then, and whether its owner's closing was already over.
  datatype Resource = Resource(owner: Owner, serial: nat, closesBefore: nat, late: bool)

  // `tracked`, `overtaken` and `expired` only record what happened: every resource ever tracked, the
  // contexts left while somebody else was closing them, and whether a stop ran into its timeout.
  datatype State = State(
    phase: Phase,
    suspended: Suspended,
    timeout: bool,
    contexts: map<RequestId, ContextState>,
    active: set<RequestId>,
    noActive: bool,
    resolving: map<TaskId, Option<RequestId>>,
    owned: map<Owner, seq<Resource>>,
    closed: seq<Resource>,
    tracked: seq<Resource>,
    overtaken: set<RequestId>,
    expired: bool)

  datatype Step =
    | Register
    | Validate
    | StartBegin
    | StartTrack
    | StartDone
    | StartFails
    | StartClosesOne
    | StartFailed
    | Enter(request: RequestId)
    | AppResolve(task: TaskId, context: Option<RequestId>)
    | ContextResolve(task: TaskId, request: RequestId)
    | Track(task: TaskId, owner: Owner)
    | ResolveEnds(task: TaskId)
    | CloseExplicitly(request: RequestId)
    | ExitBlock(request: RequestId)
    | ContextClosesOne(request: RequestId)
    | ContextClosed(request: RequestId)
    | StopBegin
    | StopDrained
    | StopExpires
    | StopPluginsDone
    | StopAborts
    | StopClosesOne
    | StopDone

  function Init(timeout: bool): State {
    State(New, Idle, timeout, map[], {}, true, map[], map[], [], [], {}, false)
  }

  function Owned(s: State, owner: Owner): seq<Resource> {
    if owner in s.owned then s.owned[owner] else []
  }

  // The owner's closing loop has run to its end.
  predicate Over(s: State, owner: Owner) {
    match owner
    case AppOwner => s.phase.Stopped? || s.phase.Failed?
    case RequestOwner(r) => r in s.contexts && s.contexts[r].Done?
  }

  predicate Enabled(s: State, step: Step) {
    match step
    case Register => s.suspended.Idle? && (s.phase.New? || s.phase.Validated?)
    case Validate => s.suspended.Idle? && (s.phase.New? || s.phase.Validated?)
    case StartBegin => s.suspended.Idle? && (s.phase.New? || s.phase.Validated?)
    case StartTrack => s.suspended.StartResolving?
    case StartDone => s.suspended.StartResolving?
    case StartFails => s.suspended.StartResolving?
    case StartClosesOne => s.suspended.StartClosing? && Owned(s, AppOwner) != []
    case StartFailed => s.suspended.StartClosing? && Owned(s, AppOwner) == []
    case Enter(r) => s.phase.Ready? && r !in s.contexts
    case AppResolve(t, context) => s.phase.Ready? && t !in s.resolving &&
      (context.Some? ==> context.value in s.contexts)
    case ContextResolve(t, r) => t !in s.resolving && r in s.contexts && s.contexts[r].Open?
    case Track(t, owner) => t in s.resolving && (owner.RequestOwner? ==> s.resolving[t] == Some(owner.request))
    case ResolveEnds(t) => t in s.resolving
    case CloseExplicitly(r) => r in s.contexts && s.contexts[r].Open?
    case ExitBlock(r) => r in s.active && !(r in s.contexts && s.contexts[r] == Closing(true))
    case ContextClosesOne(r) => r in s.contexts && s.contexts[r].Closing? && Owned(s, RequestOwner(r)) != []
    case ContextClosed(r) => r in s.contexts && s.contexts[r].Closing? && Owned(s, RequestOwner(r)) == []
    case StopBegin => s.suspended.Idle? && !s.phase.Stopping? && !s.phase.Stopped?
    case StopDrained => s.suspended.StopWaiting? && s.noActive
    case StopExpires => s.suspended.StopWaiting? && s.timeout
    case StopPluginsDone => s.suspended.StopPlugins?
    case StopAborts => s.suspended.StopWaiting? || s.suspended.StopPlugins?
    case StopClosesOne => s.suspended.StopClosing? && Owned(s, AppOwner) != []
    case StopDone => s.suspended.StopClosing? && Owned(s, AppOwner) == []
  }

  function NextResource(s: State, owner: Owner): Resource {
    Resource(owner, |s.tracked|, |s.closed|, Over(s, owner))
  }

  function AddResource(s: State, owner: Owner): State {
    s.(owned := s.owned[owner := Owned(s, owner) + [NextResource(s, owner)]],
       tracked := s.tracked + [NextResource(s, owner)])
  }

  // One turn of `_close_owned`: the last entry is popped, then its close is attempted.
  function CloseLast(s: State, owner: Owner): State
    requires Owned(s, owner) != []
  {
    var entries := Owned(s, owner);
    s.(owned := s.owned[owner := entries[..|entries| - 1]], closed := s.closed + [entries[|entries| - 1]])
  }

  function Leave(s: State, r: RequestId): State {
    s.(active := s.active - {r}, noActive := if s.active - {r} == {} then true else s.noActive)
  }

  function Apply(s: State, step: Step): State
    requires Enabled(s, step)
  {
    match step
    case Register => s.(phase := New)
    case Validate => s.(phase := Validated)
    case StartBegin => s.(phase := Starting, suspended := StartResolving)
    case StartTrack => AddResource(s, AppOwner)
    case StartDone => s.(phase := Ready, suspended := Idle)
    case StartFails => s.(suspended := StartClosing)
    case StartClosesOne => CloseLast(s, AppOwner)
    case StartFailed => s.(phase := Failed, suspended := Idle)
    case Enter(r) => s.(contexts := s.contexts[r := Open], active := s.active + {r}, noActive := false)
    case AppResolve(t, context) => s.(resolving := s.resolving[t := context])
    case ContextResolve(t, r) => s.(resolving := s.resolving[t := Some(r)])
    case Track(_, owner) => AddResource(s, owner)
    case ResolveEnds(t) => s.(resolving := s.resolving - {t})
    case CloseExplicitly(r) => s.(contexts := s.contexts[r := Closing(false)])
    case ExitBlock(r) =>
      if r in s.contexts && s.contexts[r].Open? then
        s.(contexts := s.contexts[r := Closing(true)])
      else
        // The flag is already set, so close() returns at once, whether or not that close is over.
        Leave(s.(overtaken := if r in s.contexts && s.contexts[r].Done? then s.overtaken else s.overtaken + {r}), r)
    case ContextClosesOne(r) => CloseLast(s, RequestOwner(r))
    case ContextClosed(r) =>
      var done := s.(contexts := s.contexts[r := Done]);
      if s.contexts[r].exiting then Leave(done, r) else done
    case StopBegin =>
      if s.phase.Ready? then s.(phase := Stopping, suspended := StopWaiting) else s.(phase := Stopped)
    case StopDrained => s.(suspended := StopPlugins)
    case StopExpires => s.(suspended := StopPlugins, expired := true)
    case StopPluginsDone => s.(suspended := StopClosing)
    case StopAborts => s.(suspended := Idle)
    case StopClosesOne => CloseLast(s, AppOwner)
    case StopDone => s.(phase := Stopped, suspended := Idle)
  }

  // --- Runs ---

  ghost predicate Taken(states: seq<State>, steps: seq<Step>, i: nat)
    requires |states| == |steps| + 1 && i < |steps|
  {
    Enabled(states[i], steps[i]) && states[i + 1] == Apply(states[i], steps[i])
  }

  ghost predicate IsRun(timeout: bool, states: seq<State>, steps: seq<Step>) {
    && |states| == |steps| + 1 && states[0] == Init(timeout)
    && forall i :: 0 <= i < |steps| ==> Taken(states, steps, i)
  }

  // --- Invariants ---

  ghost predicate Held(s: State, r: Resource) {
    r in Owned(s, r.owner)
  }

  ghost predicate Known(s: State, r: Resource) {
    r.serial < |s.tracked| && s.tracked[r.serial] == r && r.closesBefore <= |s.closed|
  }

  // A list holds its own owner's resources, in the order they were tracked.
  ghost predicate ListOk(s: State, owner: Owner) {
    var entries := Owned(s, owner);
    && (forall k :: 0 <= k < |entries| ==> entries[k].owner == owner && Known(s, entries[k]))
    && (forall j, k :: 0 <= j < k < |entries| ==> entries[j].serial < entries[k].serial)
  }

  // Every resource ever tracked is in exactly one place: one list, or once in the log of closes.
  ghost predicate Conserved(s: State) {
    && (forall owner :: ListOk(s, owner))
    && (forall k :: 0 <= k < |s.closed| ==> Known(s, s.closed[k]) && !Held(s, s.closed[k]))
    && (forall j, k :: 0 <= j < k < |s.closed| ==> s.closed[j] != s.closed[k])
    && (forall n :: 0 <= n < |s.tracked| ==> s.tracked[n] in s.closed || Held(s, s.tracked[n]))
  }

  predicate Follows(recent: Resource, early: Resource) {
    early.owner == recent.owner && early.serial < recent.serial
  }

  // Nothing is closed while a resource its owner tracked later is still waiting to be closed.
  ghost predicate Stacked(s: State) {
    && (forall i, j | 0 <= i < j < |s.closed| && Follows(s.closed[j], s.closed[i]) :: s.closed[j].closesBefore > i)
    && (forall i, r | 0 <= i < |s.closed| && Held(s, r) && Follows(r, s.closed[i]) :: r.closesBefore > i)
  }

  // A closing loop leaves nothing behind but what was tracked after it ended.
  ghost predicate LateOnly(s: State) {
    && (forall r :: Held(s, r) ==> r.late == Over(s, r.owner))
    && (forall k :: 0 <= k < |s.closed| ==> !s.closed[k].late)
  }

  ghost predicate Phased(s: State) {
    && (s.suspended.StartResolving? || s.suspended.StartClosing? <==> s.phase.Starting?)
    && (s.suspended.StopWaiting? || s.suspended.StopPlugins? || s.suspended.StopClosing? ==> s.phase.Stopping?)
    && (s.phase.New? || s.phase.Validated? || s.phase.Starting? || s.phase.Failed? ==>
      s.contexts == map[] && s.resolving == map[])
    && (s.phase.New? || s.phase.Validated? ==> Owned(s, AppOwner) == [])
  }

  ghost predicate ContextsOk(s: State) {
    && (s.noActive <==> s.active == {})
    && (forall r :: r in s.active ==> r in s.contexts)
    && (forall r :: r in s.contexts && r !in s.active ==>
      s.contexts[r].Done? || (r in s.overtaken && s.contexts[r] != Open))
    && (forall r :: r in s.contexts && s.contexts[r] == Closing(true) ==> r in s.active)
    && (forall r :: r in s.overtaken ==> r in s.contexts)
  }

  ghost predicate ListsOk(s: State) {
    && (forall t :: t in s.resolving && s.resolving[t].Some? ==> s.resolving[t].value in s.contexts)
    && (forall r :: r !in s.contexts ==> Owned(s, RequestOwner(r)) == [])
  }

  ghost predicate PastDrain(s: State) {
    s.suspended.StopPlugins? || s.suspended.StopClosing? ==> s.expired || s.active == {}
  }

  ghost predicate Drained(s: State) {
    ContextsOk(s) && ListsOk(s) && PastDrain(s)
  }

  ghost predicate Accounts(s: State) {
    Conserved(s) && Stacked(s) && LateOnly(s)
  }

  ghost predicate Inv(s: State) {
    Accounts(s) && Phased(s) && Drained(s)
  }

  // --- Every step keeps the invariants ---

  // Steps that neither track nor close anything.
  predicate Accounting(step: Step) {
    step.StartTrack? || step.Track? || step.StartClosesOne? || step.ContextClosesOne? || step.StopClosesOne?
  }

  lemma SameAccounts(s: State, s': State)
    requires Conserved(s) && Stacked(s)
    requires s'.owned == s.owned && s'.closed == s.closed && s'.tracked == s.tracked
    ensures Conserved(s') && Stacked(s')
    ensures forall r :: Held(s', r) <==> Held(s, r)
  {
    forall owner ensures ListOk(s', owner) && Owned(s', owner) == Owned(s, owner) {
      assert ListOk(s, owner);
    }
    assert forall r :: Held(s', r) <==> Held(s, r);
    forall n | 0 <= n < |s'.tracked| ensures s'.tracked[n] in s'.closed || Held(s', s'.tracked[n]) {
      assert s.tracked[n] in s.closed || Held(s, s.tracked[n]);
    }
  }

  // What each step leaves alone.
  lemma Untouched(s: State, step: Step)
    requires Enabled(s, step)
    ensures var s' := Apply(s, step);
            && s'.timeout == s.timeout && (s'.expired ==> s.expired || s.timeout)
            && (!Accounting(step) ==> s'.owned == s.owned && s'.closed == s.closed && s'.tracked == s.tracked)
  {
    match step
    case Register =>
    case Validate =>
    case StartBegin =>
    case StartTrack =>
    case StartDone =>
    case StartFails =>
    case StartClosesOne =>
    case StartFailed =>
    case Enter(_) =>
    case AppResolve(_, _) =>
    case ContextResolve(_, _) =>
    case Track(_, _) =>
    case ResolveEnds(_) =>
    case CloseExplicitly(_) =>
    case ExitBlock(_) =>
    case ContextClosesOne(_) =>
    case ContextClosed(_) =>
    case StopBegin =>
    case StopDrained =>
    case StopExpires =>
    case StopPluginsDone =>
    case StopAborts =>
    case StopClosesOne =>
    case StopDone =>
  }

  lemma UntouchedContexts(s: State, step: Step)
    requires Enabled(s, step)
    ensures var s' := Apply(s, step);
            && (!Calling(step) ==> s'.resolving == s.resolving)
            && (!Contextual(step) ==>
              s'.contexts == s.contexts && s'.active == s.active && s'.noActive == s.noActive &&
                s'.overtaken == s.overtaken)
  {
    match step
    case Register =>
    case Validate =>
    case StartBegin =>
    case StartTrack =>
    case StartDone =>
    case StartFails =>
    case StartClosesOne =>
    case StartFailed =>
    case Enter(_) =>
    case AppResolve(_, _) =>
    case ContextResolve(_, _) =>
    case Track(_, _) =>
    case ResolveEnds(_) =>
    case CloseExplicitly(_) =>
    case ExitBlock(_) =>
    case ContextClosesOne(_) =>
    case ContextClosed(_) =>
    case StopBegin =>
    case StopDrained =>
    case StopExpires =>
    case StopPluginsDone =>
    case StopAborts =>
    case StopClosesOne =>
    case StopDone =>
  }

  // Steps that begin or end a resolution.
  predicate Calling(step: Step) {
    step.AppResolve? || step.ContextResolve? || step.ResolveEnds?
  }

  // Steps that enter, leave or change a request context.
  predicate Contextual(step: Step) {
    step.Enter? || step.ExitBlock? || step.CloseExplicitly? || step.ContextClosed?
  }

  // Ending a closing loop is the only way an owner's closing gets over, and the list is empty then.
  lemma OverOnlyWhenEmpty(s: State, step: Step, owner: Owner)
    requires Phased(s) && Drained(s) && Enabled(s, step) && !Accounting(step)
    ensures Over(Apply(s, step), owner) == Over(s, owner) || Owned(s, owner) == []
  {
    if owner.RequestOwner? {
      UntouchedContexts(s, step);
    }
  }

  lemma OthersKeep(s: State, step: Step)
    requires Inv(s) && Enabled(s, step) && !Accounting(step)
    ensures Accounts(Apply(s, step))
  {
    var s' := Apply(s, step);
    Untouched(s, step);
    SameAccounts(s, s');
    forall r | Held(s', r) ensures r.late == Over(s', r.owner) {
      assert Held(s, r);
      OverOnlyWhenEmpty(s, step, r.owner);
    }
  }

  lemma TrackedIsHeld(s: State, owner: Owner)
    requires Conserved(s)
    ensures forall r :: Held(AddResource(s, owner), r) <==> Held(s, r) || r == NextResource(s, owner)
  {
  }

  lemma TrackConserves(s: State, owner: Owner)
    requires Conserved(s)
    ensures Conserved(AddResource(s, owner))
  {
    var s' := AddResource(s, owner);
    TrackedIsHeld(s, owner);
    assert !Held(s, NextResource(s, owner)) by { assert ListOk(s, owner); }
    forall o ensures ListOk(s', o) {
      assert ListOk(s, o);
    }
    forall n | 0 <= n < |s'.tracked| ensures s'.tracked[n] in s'.closed || Held(s', s'.tracked[n]) {
      assert n < |s.tracked| ==> s'.tracked[n] == s.tracked[n];
    }
  }

  lemma TrackKeeps(s: State, owner: Owner)
    requires Accounts(s)
    ensures Accounts(AddResource(s, owner))
  {
    TrackConserves(s, owner);
    TrackedIsHeld(s, owner);
    hide ListOk, Held;
  }

  lemma PoppedIsGone(s: State, owner: Owner)
    requires Conserved(s) && Owned(s, owner) != []
    ensures var s', last := CloseLast(s, owner), Owned(s, owner)[|Owned(s, owner)| - 1];
            && last.owner == owner && Held(s, last)
            && (forall r :: Held(s', r) <==> Held(s, r) && r != last)
            && (forall r :: Held(s', r) && r.owner == owner ==> r.serial < last.serial)
  {
    var s', entries := CloseLast(s, owner), Owned(s, owner);
    var last := entries[|entries| - 1];
    assert ListOk(s, owner);
    forall r ensures Held(s', r) <==> Held(s, r) && r != last {
      if r in entries {
        var k :| 0 <= k < |entries| && entries[k] == r;
        assert k < |entries| - 1 ==> Owned(s', owner)[k] == r;
      }
    }
  }

  lemma ListAfterClose(s: State, owner: Owner, o: Owner)
    requires ListOk(s, o) && Owned(s, owner) != []
    ensures ListOk(CloseLast(s, owner), o)
  {
    if o != owner {
      assert Owned(CloseLast(s, owner), o) == Owned(s, o);
    }
  }

  lemma CloseConserves(s: State, owner: Owner)
    requires Conserved(s) && Owned(s, owner) != []
    ensures Conserved(CloseLast(s, owner))
  {
    var s' := CloseLast(s, owner);
    PoppedIsGone(s, owner);
    assert Known(s, s'.closed[|s.closed|]) by { assert ListOk(s, owner); }
    hide ListOk, Owned;
    forall o ensures ListOk(s', o) {
      ListAfterClose(s, owner, o);
    }
    forall n | 0 <= n < |s'.tracked| ensures s'.tracked[n] in s'.closed || Held(s', s'.tracked[n]) {
      assert s.tracked[n] in s.closed || Held(s, s.tracked[n]);
    }
  }

  lemma CloseKeeps(s: State, owner: Owner)
    requires Accounts(s) && Owned(s, owner) != [] && !Over(s, owner)
    ensures Accounts(CloseLast(s, owner))
  {
    CloseConserves(s, owner);
    PoppedIsGone(s, owner);
    hide Conserved, ListOk, Held, Known;
    assert Stacked(CloseLast(s, owner));
  }

  lemma PhasesKeep(s: State, step: Step)
    requires Phased(s) && Enabled(s, step)
    ensures Phased(Apply(s, step))
  {
    match step
    case Register =>
    case Validate =>
    case StartBegin =>
    case StartTrack =>
    case StartDone =>
    case StartFails =>
    case StartClosesOne =>
    case StartFailed =>
    case Enter(_) =>
    case AppResolve(_, _) =>
    case ContextResolve(_, _) =>
    case Track(_, _) =>
    case ResolveEnds(_) =>
    case CloseExplicitly(_) =>
    case ExitBlock(_) =>
    case ContextClosesOne(_) =>
    case ContextClosed(_) =>
    case StopBegin =>
    case StopDrained =>
    case StopExpires =>
    case StopPluginsDone =>
    case StopAborts =>
    case StopClosesOne =>
    case StopDone =>
  }

  lemma ContextsKeep(s: State, step: Step)
    requires ContextsOk(s) && Enabled(s, step)
    ensures ContextsOk(Apply(s, step))
  {
    if Contextual(step) {
      match step
      case Enter(r) => EnterKeeps(s, r);
      case ExitBlock(r) => ExitKeeps(s, r);
      case CloseExplicitly(_) =>
      case ContextClosed(r) => ContextClosedKeeps(s, r);
    } else {
      UntouchedContexts(s, step);
      hide Apply, Enabled;
    }
  }

  lemma EnterKeeps(s: State, r: RequestId)
    requires ContextsOk(s) && Enabled(s, Enter(r))
    ensures ContextsOk(Apply(s, Enter(r)))
  {
    assert r in s.active + {r};
  }

  lemma ExitKeeps(s: State, r: RequestId)
    requires ContextsOk(s) && Enabled(s, ExitBlock(r))
    ensures ContextsOk(Apply(s, ExitBlock(r)))
  {
  }

  lemma ContextClosedKeeps(s: State, r: RequestId)
    requires ContextsOk(s) && Enabled(s, ContextClosed(r))
    ensures ContextsOk(Apply(s, ContextClosed(r)))
  {
  }

  lemma ListsKeep(s: State, step: Step)
    requires ListsOk(s) && ContextsOk(s) && Enabled(s, step)
    ensures ListsOk(Apply(s, step))
  {
    if Accounting(step) {
      match step
      case StartTrack =>
      case Track(_, _) =>
      case ContextClosesOne(_) =>
      case _ =>
    } else {
      Untouched(s, step);
      ResolversKnow(s, step);
      hide Apply, Enabled;
    }
  }

  lemma ContextsOnlyGrow(s: State, step: Step)
    requires Enabled(s, step) && Contextual(step)
    ensures forall r :: r in s.contexts ==> r in Apply(s, step).contexts
  {
    match step
    case Enter(_) =>
    case ExitBlock(_) =>
    case CloseExplicitly(_) =>
    case ContextClosed(_) =>
  }

  lemma ResolversKnow(s: State, step: Step)
    requires ListsOk(s) && Enabled(s, step)
    ensures var s' := Apply(s, step);
            && (forall r :: r in s.contexts ==> r in s'.contexts)
            && (forall t :: t in s'.resolving && s'.resolving[t].Some? ==> s'.resolving[t].value in s'.contexts)
  {
    UntouchedContexts(s, step);
    if Contextual(step) {
      ContextsOnlyGrow(s, step);
      hide Apply, Enabled;
    } else if Calling(step) {
      match step
      case AppResolve(_, _) =>
      case ContextResolve(_, _) =>
      case ResolveEnds(_) =>
    } else {
      hide Apply, Enabled;
    }
  }

  lemma PastDrainKeeps(s: State, step: Step)
    requires Phased(s) && ContextsOk(s) && PastDrain(s) && Enabled(s, step)
    ensures PastDrain(Apply(s, step))
  {
    UntouchedContexts(s, step);
  }

  lemma DrainKeeps(s: State, step: Step)
    requires Phased(s) && Drained(s) && Enabled(s, step)
    ensures Drained(Apply(s, step))
  {
    hide ContextsOk, ListsOk;
    ContextsKeep(s, step);
    ListsKeep(s, step);
    PastDrainKeeps(s, step);
  }

  lemma AccountsKeep(s: State, step: Step)
    requires Inv(s) && Enabled(s, step)
    ensures Accounts(Apply(s, step))
  {
    if Accounting(step) {
      match step
      case StartTrack => TrackKeeps(s, AppOwner);
      case Track(_, owner) => TrackKeeps(s, owner);
      case StartClosesOne => CloseKeeps(s, AppOwner);
      case StopClosesOne => CloseKeeps(s, AppOwner);
      case ContextClosesOne(r) => CloseKeeps(s, RequestOwner(r));
    } else {
      OthersKeep(s, step);
    }
  }

  lemma {:induction false} StepKeeps(s: State, step: Step)
    requires Inv(s) && Enabled(s, step)
    ensures Inv(Apply(s, step))
  {
    PhasesKeep(s, step);
    DrainKeeps(s, step);
    AccountsKeep(s, step);
  }

  lemma {:induction false} EveryStateIsGood(timeout: bool, states: seq<State>, steps: seq<Step>, i: nat)
    requires IsRun(timeout, states, steps) && i < |states|
    ensures Inv(states[i])
  {
    if i > 0 {
      EveryStateIsGood(timeout, states, steps, i - 1);
      assert Taken(states, steps, i - 1);
      StepKeeps(states[i - 1], steps[i - 1]);
    }
  }

  lemma CountsOnce<T>(xs: seq<T>, x: T)
    requires forall i, j :: 0 <= i < j < |xs| ==> xs[i] != xs[j]
    ensures multiset(xs)[x] == if x in xs then 1 else 0
  {
    if x in xs {
      var k :| 0 <= k < |xs| && xs[k] == x;
      assert xs == xs[..k] + [x] + xs[k + 1..];
      assert x !in xs[..k] && x !in xs[k + 1..];
    }
  }

  // --- The theorems ---

  // Each tracked resource is closed at most once, and once its owner's closing is over it has been
  // closed exactly once unless it was tracked after that.
  lemma ClosedExactlyOnce(timeout: bool, states: seq<State>, steps: seq<Step>, i: nat, n: nat)
    requires IsRun(timeout, states, steps) && i < |states| && n < |states[i].tracked|
    ensures var s, r := states[i], states[i].tracked[n];
            && multiset(s.closed)[r] == (if Held(s, r) then 0 else 1)
            && (Over(s, r.owner) ==> multiset(s.closed)[r] == (if r.late then 0 else 1))
  {
    EveryStateIsGood(timeout, states, steps, i);
    CountsOnce(states[i].closed, states[i].tracked[n]);
  }

  // Of two resources of one owner, the later one is closed first, provided it was tracked before the
  // earlier one was closed.
  lemma LastTrackedIsClosedFirst(timeout: bool, states: seq<State>, steps: seq<Step>, i: nat, early: nat, recent: nat)
    requires IsRun(timeout, states, steps) && i < |states|
    requires early < |states[i].closed| && recent < |states[i].closed|
    requires states[i].closed[early].owner == states[i].closed[recent].owner
    requires states[i].closed[early].serial < states[i].closed[recent].serial
    ensures recent < early <==> states[i].closed[recent].closesBefore <= early
  {
    EveryStateIsGood(timeout, states, steps, i);
    var s := states[i];
    assert Known(s, s.closed[recent]) && Known(s, s.closed[early]);
    ClosedAfterTracked(timeout, states, steps, i, recent);
  }

  lemma StepCloses(s: State, step: Step)
    requires Conserved(s) && Enabled(s, step)
    ensures var s' := Apply(s, step);
            s'.closed == s.closed || (s'.closed[..|s.closed|] == s.closed && |s'.closed| == |s.closed| + 1 &&
              s'.closed[|s.closed|].closesBefore <= |s.closed|)
  {
    if Accounting(step) {
      assert ListOk(s, AppOwner);
      if step.ContextClosesOne? {
        assert ListOk(s, RequestOwner(step.request));
      }
    } else {
      Untouched(s, step);
    }
  }

  lemma {:induction false} ClosedAfterTracked(timeout: bool, states: seq<State>, steps: seq<Step>, i: nat, k: nat)
    requires IsRun(timeout, states, steps) && i < |states| && k < |states[i].closed|
    ensures states[i].closed[k].closesBefore <= k
  {
    if i > 0 {
      hide Apply, Enabled, ListOk, Held, Known, Stacked, LateOnly, Phased, Drained;
      assert Taken(states, steps, i - 1);
      EveryStateIsGood(timeout, states, steps, i - 1);
      StepCloses(states[i - 1], steps[i - 1]);
      if k < |states[i - 1].closed| {
        assert states[i].closed[k] == states[i].closed[..|states[i - 1].closed|][k];
        ClosedAfterTracked(timeout, states, steps, i - 1, k);
      }
    }
  }

  // A context whose block was left while a close called elsewhere was running.
  ghost predicate LeftWhileClosing(states: seq<State>, steps: seq<Step>, j: nat, r: RequestId)
    requires j < |steps| < |states|
  {
    steps[j] == ExitBlock(r) && r in states[j].contexts && states[j].contexts[r] == Closing(false)
  }

  // The drain event is set exactly when no context is active, and when a stop that was not cut short
  // by its timeout closes an app-owned resource, no context is active and every context has finished
  // closing, save those whose blocks were left while another task was still closing them.
  lemma ContextsCloseBeforeTheApp(timeout: bool, states: seq<State>, steps: seq<Step>, i: nat)
    requires IsRun(timeout, states, steps) && i < |states|
    ensures states[i].noActive <==> states[i].active == {}
    ensures i < |steps| && steps[i].StopClosesOne? && !states[i].expired ==>
              && states[i].active == {}
              && forall r :: r in states[i].contexts && !states[i].contexts[r].Done? ==>
                exists j: nat :: j < i && LeftWhileClosing(states, steps, j, r)
    ensures !timeout ==> !states[i].expired
  {
    EveryStateIsGood(timeout, states, steps, i);
    if i < |steps| {
      assert Taken(states, steps, i);
      forall r | r in states[i].overtaken ensures exists j: nat :: j < i && LeftWhileClosing(states, steps, j, r) {
        var j := OvertakenSince(timeout, states, steps, i, r);
      }
    }
    NeverExpires(timeout, states, steps, i);
  }

  lemma {:induction false} OvertakenSince(timeout: bool, states: seq<State>, steps: seq<Step>, i: nat,
      r: RequestId) returns (j: nat)
    requires IsRun(timeout, states, steps) && i < |states| && r in states[i].overtaken
    ensures j < i && LeftWhileClosing(states, steps, j, r)
  {
    assert Taken(states, steps, i - 1);
    if r in states[i - 1].overtaken {
      j := OvertakenSince(timeout, states, steps, i - 1, r);
    } else {
      EveryStateIsGood(timeout, states, steps, i - 1);
      NewlyOvertaken(states[i - 1], steps[i - 1], r);
      j := i - 1;
    }
  }

  lemma {:induction false} NeverExpires(timeout: bool, states: seq<State>, steps: seq<Step>, i: nat)
    requires IsRun(timeout, states, steps) && i < |states|
    ensures states[i].timeout == timeout && (!timeout ==> !states[i].expired)
  {
    if i > 0 {
      hide Apply, Enabled;
      NeverExpires(timeout, states, steps, i - 1);
      assert Taken(states, steps, i - 1);
      Untouched(states[i - 1], steps[i - 1]);
    } else {
    }
  }

  lemma {:induction false} NewlyOvertaken(s: State, step: Step, r: RequestId)
    requires Inv(s) && Enabled(s, step) && r !in s.overtaken
    ensures r in Apply(s, step).overtaken <==> step == ExitBlock(r) && s.contexts[r] == Closing(false)
  {
    if Contextual(step) {
      match step
      case Enter(_) =>
      case ExitBlock(_) =>
      case CloseExplicitly(_) =>
      case ContextClosed(_) =>
    } else {
      UntouchedContexts(s, step);
      hide Apply, Enabled;
    }
  }

  // --- What may still happen after an owner's closing is over ---

  ghost predicate Continues(states: seq<State>, steps: seq<Step>) {
    |states| == |steps| + 1 && forall i :: 0 <= i < |steps| ==> Taken(states, steps, i)
  }

  // Whatever happens from here on, the owner never has a resource that is waiting to be closed.
  ghost predicate CleanForever(s: State, owner: Owner) {
    forall states: seq<State>, steps: seq<Step> :: Continues(states, steps) && states[0] == s ==>
      Owned(states[|steps|], owner) == []
  }

  // Nothing of the owner's is left to close, and no call is under way or possible that could add to it.
  ghost predicate Settled(s: State, owner: Owner) {
    && Owned(s, owner) == []
    && match owner
       case AppOwner => s.resolving == map[] && forall r :: r in s.contexts ==> !s.contexts[r].Open?
       case RequestOwner(r) => !s.phase.Ready? && forall t :: t in s.resolving ==> s.resolving[t] != Some(r)
  }

  // Once an owner's closing is over it stays over, and what the owner has then is never closed.
  lemma OverForGood(s: State, step: Step, owner: Owner)
    requires Inv(s) && Over(s, owner) && Enabled(s, step)
    ensures Over(Apply(s, step), owner) && Owned(s, owner) <= Owned(Apply(s, step), owner)
  {
    hide Accounts, Drained;
    StaysOver(s, step, owner);
    if Accounting(step) {
      match step
      case StartTrack =>
      case Track(_, _) =>
      case StartClosesOne =>
      case ContextClosesOne(_) =>
      case StopClosesOne =>
    } else {
      Untouched(s, step);
      hide Apply, Enabled, Over;
    }
  }

  lemma StaysOver(s: State, step: Step, owner: Owner)
    requires Phased(s) && Over(s, owner) && Enabled(s, step)
    ensures Over(Apply(s, step), owner)
  {
    if owner.RequestOwner? {
      if Contextual(step) {
        match step
        case Enter(_) =>
        case ExitBlock(_) =>
        case CloseExplicitly(_) =>
        case ContextClosed(_) =>
      } else {
        UntouchedContexts(s, step);
        hide Apply, Enabled;
      }
    } else {
      AppStaysOver(s, step);
      hide Apply, Enabled;
    }
  }

  lemma AppStaysOver(s: State, step: Step)
    requires Phased(s) && Over(s, AppOwner) && Enabled(s, step)
    ensures Over(Apply(s, step), AppOwner)
  {
    match step
    case StartFailed =>
    case StopBegin =>
    case StopDone =>
    case _ =>
  }

  lemma SettledForGood(s: State, step: Step, owner: Owner)
    requires Inv(s) && Over(s, owner) && Settled(s, owner) && Enabled(s, step)
    ensures Settled(Apply(s, step), owner)
  {
    hide Accounts;
    NothingIsAdded(s, step, owner);
    match owner
    case AppOwner => NoCallIsMade(s, step);
    case RequestOwner(r) => NoCallIsMadeFor(s, step, r);
  }

  lemma NothingIsAdded(s: State, step: Step, owner: Owner)
    requires Phased(s) && Over(s, owner) && Settled(s, owner) && Enabled(s, step)
    ensures Owned(Apply(s, step), owner) == []
  {
    if Accounting(step) {
      match step
      case StartTrack =>
      case Track(_, _) =>
      case StartClosesOne =>
      case ContextClosesOne(_) =>
      case StopClosesOne =>
    } else {
      Untouched(s, step);
      hide Apply, Enabled, Over;
    }
  }

  // Without an open context, and with the application stopped, no call begins any more.
  lemma NoCallIsMade(s: State, step: Step)
    requires Phased(s) && Over(s, AppOwner) && Enabled(s, step)
    requires s.resolving == map[] && forall r :: r in s.contexts ==> !s.contexts[r].Open?
    ensures Apply(s, step).resolving == map[] && forall r :: r in Apply(s, step).contexts ==>
      !Apply(s, step).contexts[r].Open?
  {
    if Calling(step) || Contextual(step) {
      match step
      case AppResolve(_, _) =>
      case ContextResolve(_, _) =>
      case ResolveEnds(_) =>
      case Enter(_) =>
      case ExitBlock(_) =>
      case CloseExplicitly(_) =>
      case ContextClosed(_) =>
    } else {
      UntouchedContexts(s, step);
      hide Apply, Enabled;
    }
  }

  // Nor for a closed context, with the application out of its ready state for good.
  lemma NoCallIsMadeFor(s: State, step: Step, r: RequestId)
    requires Phased(s) && Over(s, RequestOwner(r)) && Enabled(s, step)
    requires !s.phase.Ready? && forall t :: t in s.resolving ==> s.resolving[t] != Some(r)
    ensures !Apply(s, step).phase.Ready? && forall t :: t in Apply(s, step).resolving ==>
      Apply(s, step).resolving[t] != Some(r)
  {
    NotReadyAgain(s, step);
    if Calling(step) {
      match step
      case AppResolve(_, _) =>
      case ContextResolve(_, _) =>
      case ResolveEnds(_) =>
    } else {
      UntouchedContexts(s, step);
      hide Apply, Enabled;
    }
  }

  lemma NotReadyAgain(s: State, step: Step)
    requires Phased(s) && s.contexts != map[] && !s.phase.Ready? && Enabled(s, step)
    ensures !Apply(s, step).phase.Ready?
  {
    match step
    case StartDone =>
    case _ =>
  }

  // What an owner has when its closing is over is held ever after, and so never closed.
  lemma {:induction false} LeftForEver(states: seq<State>, steps: seq<Step>, owner: Owner, i: nat)
    requires Continues(states, steps) && i <= |steps| && Inv(states[0]) && Over(states[0], owner)
    ensures Inv(states[i]) && Over(states[i], owner) && Owned(states[0], owner) <= Owned(states[i], owner)
    ensures forall r :: r in Owned(states[0], owner) ==> Held(states[i], r) && r !in states[i].closed
    ensures Settled(states[0], owner) ==> Settled(states[i], owner)
    decreases i
  {
    hide Apply, Enabled, Stacked, LateOnly, Phased, Drained, Settled;
    if i > 0 {
      LeftForEver(states, steps, owner, i - 1);
      assert Taken(states, steps, i - 1);
      StepKeeps(states[i - 1], steps[i - 1]);
      OverForGood(states[i - 1], steps[i - 1], owner);
      if Settled(states[i - 1], owner) {
        SettledForGood(states[i - 1], steps[i - 1], owner);
      }
    }
    assert ListOk(states[0], owner);
    forall r | r in Owned(states[0], owner) ensures Held(states[i], r) && r !in states[i].closed {
      assert r.owner == owner;
    }
  }

  lemma {:induction false} FreshTask(tasks: set<TaskId>) returns (t: TaskId)
    ensures forall u :: u in tasks ==> u < t
  {
    t := 0;
    if tasks != {} {
      var u :| u in tasks;
      var above := FreshTask(tasks - {u});
      assert tasks == (tasks - {u}) + {u};
      t := if u < above then above else u + 1;
    }
  }

  lemma OneStep(s: State, step: Step, owner: Owner)
    requires Enabled(s, step) && CleanForever(s, owner)
    ensures CleanForever(Apply(s, step), owner)
  {
    hide Apply, Enabled;
    var next := Apply(s, step);
    forall states: seq<State>, steps: seq<Step> | Continues(states, steps) &&
      states[0] == next ensures Owned(states[|steps|], owner) == [] {
      var longer, more := [s] + states, [step] + steps;
      forall i | 0 <= i < |more| ensures Taken(longer, more, i) {
        assert i > 0 ==> Taken(states, steps, i - 1);
      }
      assert Continues(longer, more) && longer[0] == s;
      assert Owned(longer[|more|], owner) == [];
    }
  }

  lemma CleanNow(s: State, owner: Owner)
    requires CleanForever(s, owner)
    ensures Owned(s, owner) == []
  {
    assert Continues([s], []);
  }

  // A call under way for the owner may still add to what it has.
  lemma UnderWayAdds(s: State, t: TaskId, owner: Owner)
    requires Enabled(s, Track(t, owner))
    ensures !CleanForever(s, owner)
  {
    if CleanForever(s, owner) {
      OneStep(s, Track(t, owner), owner);
      CleanNow(Apply(s, Track(t, owner)), owner);
    }
  }

  // And so may one that can still be made.
  lemma PossibleCallAdds(s: State, call: Step, t: TaskId, owner: Owner)
    requires Enabled(s, call) && Enabled(Apply(s, call), Track(t, owner))
    ensures !CleanForever(s, owner)
  {
    UnderWayAdds(Apply(s, call), t, owner);
    if CleanForever(s, owner) {
      OneStep(s, call, owner);
    }
  }

  // An owner whose closing is over stays clean for ever exactly when it is settled: for a request
  // context, nothing is under way for it and the application has left its ready state; for the
  // application, nothing is under way and no context is open.
  lemma CleanForeverExactly(timeout: bool, run: seq<State>, taken: seq<Step>, n: nat, owner: Owner)
    requires IsRun(timeout, run, taken) && n < |run| && Over(run[n], owner)
    ensures CleanForever(run[n], owner) <==> Settled(run[n], owner)
  {
    var s := run[n];
    EveryStateIsGood(timeout, run, taken, n);
    hide Inv, IsRun;
    if Settled(s, owner) {
      forall states: seq<State>, steps: seq<Step> | Continues(states, steps) &&
        states[0] == s ensures Owned(states[|steps|], owner) == [] {
        LeftForEver(states, steps, owner, |steps|);
      }
    } else if Owned(s, owner) != [] {
      if CleanForever(s, owner) {
        CleanNow(s, owner);
      }
    } else {
      var t := FreshTask(s.resolving.Keys);
      match owner
      case AppOwner =>
        if s.resolving != map[] {
          var u :| u in s.resolving;
          UnderWayAdds(s, u, owner);
        } else {
          var r :| r in s.contexts && s.contexts[r].Open?;
          PossibleCallAdds(s, ContextResolve(t, r), t, owner);
        }
      case RequestOwner(r) =>
        if s.phase.Ready? {
          PossibleCallAdds(s, AppResolve(t, Some(r)), t, owner);
        } else {
          var u :| u in s.resolving && s.resolving[u] == Some(r);
          UnderWayAdds(s, u, owner);
        }
    }
  }

  // When a stop is done, the application stays clean for ever exactly when no resolution is then
  // outstanding and no context open; after a stop that drained, the second is certain.
  lemma StopLeavesNothingExactly(timeout: bool, states: seq<State>, steps: seq<Step>, k: nat)
    requires IsRun(timeout, states, steps) && k < |steps| && steps[k].StopDone?
    ensures CleanForever(states[k + 1], AppOwner) <==>
      states[k].resolving == map[] && forall r :: r in states[k].contexts ==> !states[k].contexts[r].Open?
    ensures !states[k].expired ==> (CleanForever(states[k + 1], AppOwner) <==> states[k].resolving == map[])
  {
    EveryStateIsGood(timeout, states, steps, k);
    assert Taken(states, steps, k);
    CleanForeverExactly(timeout, states, steps, k + 1, AppOwner);
    hide CleanForever;
  }

  lemma Continue(timeout: bool, states: seq<State>, steps: seq<Step>, step: Step)
      returns (states': seq<State>, steps': seq<Step>)
    requires IsRun(timeout, states, steps) && Enabled(states[|steps|], step)
    ensures states' == states + [Apply(states[|steps|], step)] && steps' == steps + [step]
    ensures IsRun(timeout, states', steps')
  {
    states', steps' := states + [Apply(states[|steps|], step)], steps + [step];
    forall i | 0 <= i < |steps'| ensures Taken(states', steps', i) {
      assert i < |steps| ==> Taken(states, steps, i);
    }
  }

  // A context closed by a background task while its block is left: the application's resource is
  // closed although the context's own resource is still waiting to be.
  lemma OvertakenContextOutlivesTheApp() returns (states: seq<State>, steps: seq<Step>)
    ensures IsRun(false, states, steps)
    ensures var last := states[|steps|];
            && last.contexts == map[0 := Closing(false)] && Owned(last, RequestOwner(0)) != []
            && |last.closed| == 1 && last.closed[0].owner.AppOwner?
  {
    states, steps := ContextLeftWhileClosing();
    states, steps := Continue(false, states, steps, StopBegin);
    states, steps := Continue(false, states, steps, StopDrained);
    states, steps := Continue(false, states, steps, StopPluginsDone);
    states, steps := Continue(false, states, steps, StopClosesOne);
  }

  lemma ContextLeftWhileClosing() returns (states: seq<State>, steps: seq<Step>)
    ensures IsRun(false, states, steps)
    ensures var s := states[|steps|];
            && s.phase.Ready? && s.suspended.Idle? && s.contexts == map[0 := Closing(false)] && s.noActive &&
              s.closed == []
            && |Owned(s, AppOwner)| == 1 && Owned(s, AppOwner)[0].owner.AppOwner? && |Owned(s, RequestOwner(0))| == 1
  {
    states, steps := ContextWithAResource();
    states, steps := Continue(false, states, steps, CloseExplicitly(0));
    states, steps := Continue(false, states, steps, ExitBlock(0));
  }

  lemma ContextWithAResource() returns (states: seq<State>, steps: seq<Step>)
    ensures IsRun(false, states, steps)
    ensures var s := states[|steps|];
            && s.phase.Ready? && s.suspended.Idle? && s.contexts == map[0 := Open] && s.active == {0} && s.closed == []
            && |Owned(s, AppOwner)| == 1 && Owned(s, AppOwner)[0].owner.AppOwner? && |Owned(s, RequestOwner(0))| == 1
  {
    states, steps := [Init(false)], [];
    states, steps := Continue(false, states, steps, StartBegin);
    states, steps := Continue(false, states, steps, StartTrack);
    states, steps := Continue(false, states, steps, StartDone);
    states, steps := Continue(false, states, steps, Enter(0));
    states, steps := Continue(false, states, steps, ContextResolve(0, 0));
    states, steps := Continue(false, states, steps, Track(0, RequestOwner(0)));
    states, steps := Continue(false, states, steps, ResolveEnds(0));
  }

  lemma Started(timeout: bool) returns (states: seq<State>, steps: seq<Step>)
    ensures IsRun(timeout, states, steps) && states[|steps|] == Init(timeout).(phase := Ready)
  {
    states, steps := [Init(timeout)], [];
    states, steps := Continue(timeout, states, steps, StartBegin);
    states, steps := Continue(timeout, states, steps, StartDone);
  }

  // A resolution outstanding when a stop ends: it tracks a resource for the application, which then
  // has nothing outstanding left and a resource that is never closed.
  lemma OutstandingResolutionLeaks() returns (states: seq<State>, steps: seq<Step>)
    ensures IsRun(false, states, steps)
    ensures var s := states[|steps|];
      && s.phase.Stopped? && s.resolving == map[] && |Owned(s, AppOwner)| == 1 && s.closed == []
      && NeverClosed(s, Owned(s, AppOwner)[0])
  {
    states, steps := StoppedWhileResolving();
    states, steps := Continue(false, states, steps, Track(0, AppOwner));
    states, steps := Continue(false, states, steps, ResolveEnds(0));
    hide Apply, Enabled, NeverClosed;
    WhatIsLeftIsNeverClosed(false, states, steps, AppOwner, 0);
  }

  lemma StoppedWhileResolving() returns (states: seq<State>, steps: seq<Step>)
    ensures IsRun(false, states, steps)
    ensures states[|steps|] == Init(false).(phase := Stopped, resolving := map[0 := None])
  {
    states, steps := Started(false);
    states, steps := Continue(false, states, steps, AppResolve(0, None));
    states, steps := Continue(false, states, steps, StopBegin);
    states, steps := Continue(false, states, steps, StopDrained);
    states, steps := Continue(false, states, steps, StopPluginsDone);
    states, steps := Continue(false, states, steps, StopDone);
  }

  // A context still open when a stop runs into its timeout: it can go on resolving.
  lemma ContextOpenPastTimeoutLeaks() returns (states: seq<State>, steps: seq<Step>)
    ensures IsRun(true, states, steps)
    ensures var s := states[|steps|];
      && s.phase.Stopped? && s.resolving == map[] && |Owned(s, AppOwner)| == 1 && s.closed == []
      && NeverClosed(s, Owned(s, AppOwner)[0])
  {
    states, steps := StoppedPastAContext();
    states, steps := Continue(true, states, steps, ContextResolve(0, 0));
    states, steps := Continue(true, states, steps, Track(0, AppOwner));
    states, steps := Continue(true, states, steps, ResolveEnds(0));
    hide Apply, Enabled, NeverClosed;
    WhatIsLeftIsNeverClosed(true, states, steps, AppOwner, 0);
  }

  lemma StoppedPastAContext() returns (states: seq<State>, steps: seq<Step>)
    ensures IsRun(true, states, steps)
    ensures states[|steps|] == Init(true).(phase := Stopped, contexts := map[0 := Open], active := {0},
      noActive := false, expired := true)
  {
    states, steps := Started(true);
    states, steps := Continue(true, states, steps, Enter(0));
    states, steps := Continue(true, states, steps, StopBegin);
    states, steps := Continue(true, states, steps, StopExpires);
    states, steps := Continue(true, states, steps, StopPluginsDone);
    states, steps := Continue(true, states, steps, StopDone);
  }

  // A task that kept the context it inherited resolves into it after it has closed: the application
  // looks at its own state only, not at the context's.
  lemma ClosedContextLeaks() returns (states: seq<State>, steps: seq<Step>)
    ensures IsRun(false, states, steps)
    ensures var s := states[|steps|];
      && s.contexts == map[0 := Done] && s.resolving == map[] && |Owned(s, RequestOwner(0))| == 1 && s.closed == []
      && NeverClosed(s, Owned(s, RequestOwner(0))[0])
  {
    states, steps := ContextClosedCleanly();
    states, steps := Continue(false, states, steps, AppResolve(0, Some(0)));
    states, steps := Continue(false, states, steps, Track(0, RequestOwner(0)));
    states, steps := Continue(false, states, steps, ResolveEnds(0));
    hide Apply, Enabled, NeverClosed;
    WhatIsLeftIsNeverClosed(false, states, steps, RequestOwner(0), 0);
  }

  lemma ContextClosedCleanly() returns (states: seq<State>, steps: seq<Step>)
    ensures IsRun(false, states, steps)
    ensures states[|steps|] == Init(false).(phase := Ready, contexts := map[0 := Done])
  {
    states, steps := Started(false);
    states, steps := Continue(false, states, steps, Enter(0));
    states, steps := Continue(false, states, steps, ExitBlock(0));
    states, steps := Continue(false, states, steps, ContextClosed(0));
  }

  // No continuation closes the resource.
  ghost predicate NeverClosed(s: State, r: Resource) {
    forall states: seq<State>, steps: seq<Step> :: Continues(states, steps) && states[0] == s ==>
      r !in states[|steps|].closed
  }

  lemma WhatIsLeftIsNeverClosed(timeout: bool, run: seq<State>, taken: seq<Step>, owner: Owner, k: nat)
    requires IsRun(timeout, run, taken) && Over(run[|taken|], owner) && k < |Owned(run[|taken|], owner)|
    ensures NeverClosed(run[|taken|], Owned(run[|taken|], owner)[k])
  {
    var s := run[|taken|];
    EveryStateIsGood(timeout, run, taken, |taken|);
    forall states: seq<State>, steps: seq<Step> | Continues(states, steps) &&
      states[0] == s ensures Owned(s, owner)[k] !in states[|steps|].closed {
      LeftForEver(states, steps, owner, |steps|);
    }
  }

  // An exception that leaves a stop before its closing loop leaves the application stopping for
  // ever: nothing it owns is closed afterwards and no later stop is possible.
  lemma StuckStaysStuck(s: State, step: Step)
    requires s.phase.Stopping? && s.suspended.Idle? && Enabled(s, step)
    ensures var s' := Apply(s, step);
            s'.phase.Stopping? && s'.suspended.Idle? && Owned(s, AppOwner) <= Owned(s', AppOwner)
    ensures !step.StopBegin? && !step.StopClosesOne?
  {
    if Accounting(step) {
      match step
      case StartTrack =>
      case Track(_, _) =>
      case ContextClosesOne(_) =>
      case _ =>
    } else {
      Untouched(s, step);
    }
  }

  lemma {:induction false} AbortedStopNeverCloses(timeout: bool, states: seq<State>, steps: seq<Step>, k: nat, j: nat)
    requires IsRun(timeout, states, steps) && k < j < |states| && steps[k].StopAborts?
    ensures states[j].phase.Stopping? && states[j].suspended.Idle?
    ensures j < |steps| ==> !steps[j].StopBegin? && !steps[j].StopClosesOne?
    ensures Owned(states[k], AppOwner) <= Owned(states[j], AppOwner)
    decreases j
  {
    EveryStateIsGood(timeout, states, steps, k);
    assert Taken(states, steps, j - 1);
    if j > k + 1 {
      AbortedStopNeverCloses(timeout, states, steps, k, j - 1);
      StuckStaysStuck(states[j - 1], steps[j - 1]);
    }
    if j < |steps| {
      assert Taken(states, steps, j);
      StuckStaysStuck(states[j], steps[j]);
    }
  }
}
