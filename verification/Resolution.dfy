// Concurrent dependency resolution: any number of tasks walking one provider graph, interleaved at
// every await, each slot guarded by its own lock and checked before and after the lock is taken.
module Resolution {
  import opened Providers
  import opened Ownership

  type TaskId = nat

  // One pending call: before the first look at the cache, queued on the slot's lock, or inside the
  // factory's argument list with the arguments resolved so far.
  datatype Phase = Checking | Waiting | Building(arguments: seq<Instance>)

  datatype Frame = Frame(contract: Contract, phase: Phase)

  // A task's frames run from the outermost contract to the one being resolved.
  datatype Task =
    | Running(request: Option<RequestId>, frames: seq<Frame>)
    | Returned(request: Option<RequestId>, contract: Contract, value: Instance)
    | Raised

  // `history` and `cleared` only record what happened: the order in which slots were filled, for owners
  // whose cache has not been cleared, and which ones have been.
  datatype State = State(
    tasks: map<TaskId, Task>,
    cache: Cache,
    locks: map<Slot, TaskId>,
    history: seq<Slot>,
    owned: map<Owner, seq<Entry>>,
    cleared: set<Owner>)

  datatype Step =
    | Begin(task: TaskId, request: Option<RequestId>, contract: Contract)
    | Hit(task: TaskId)
    | Miss(task: TaskId)
    | Acquire(task: TaskId)
    | Descend(task: TaskId)
    | Refuse(task: TaskId)
    | Construct(task: TaskId, instance: Instance)
    | Raise(task: TaskId)
    | Clear(owner: Owner)

  const INIT := State(map[], map[], map[], [], map[], {})

  // Nothing that a slot's instance may rest on has been cleared.
  predicate Clean(cleared: set<Owner>, owner: Owner) {
    owner !in cleared && AppOwner !in cleared
  }

  function CleanPart(s: State): Cache {
    map slot | slot in s.cache && Clean(s.cleared, OwnerOf(slot)) :: s.cache[slot]
  }

  function Without(cache: Cache, owner: Owner): Cache {
    map slot | slot in cache && OwnerOf(slot) != owner :: cache[slot]
  }

  function Kept(history: seq<Slot>, owner: Owner): seq<Slot> {
    if history == [] || owner.AppOwner? then []
    else
      var n := |history| - 1;
      Kept(history[..n], owner) + if OwnerOf(history[n]) == owner then [] else [history[n]]
  }

  function Owned(s: State, owner: Owner): seq<Entry> {
    if owner in s.owned then s.owned[owner] else []
  }

  function Top(task: Task): Frame
    requires task.Running? && task.frames != []
  {
    task.frames[|task.frames| - 1]
  }

  predicate Refused(g: Graph, request: Option<RequestId>, c: Contract) {
    c !in g || (g[c].scope.Request? && request.None?)
  }

  function NewFrame(g: Graph, c: Contract): Frame
    requires c in g
  {
    Frame(c, if g[c].scope.Transient? then Building([]) else Checking)
  }

  predicate Ready(g: Graph, s: State, t: TaskId) {
    t in s.tasks && s.tasks[t].Running? && s.tasks[t].frames != [] && Top(s.tasks[t]).contract in g
  }

  // The contract the top frame asks for next.
  predicate CallsNext(g: Graph, s: State, t: TaskId)
    requires Ready(g, s, t)
  {
    var top := Top(s.tasks[t]);
    top.phase.Building? && |top.phase.arguments| < |g[top.contract].dependencies|
  }

  function NextCall(g: Graph, s: State, t: TaskId): Contract
    requires Ready(g, s, t) && CallsNext(g, s, t)
  {
    g[Top(s.tasks[t]).contract].dependencies[|Top(s.tasks[t]).phase.arguments|]
  }

  function TopSlot(g: Graph, s: State, t: TaskId): Option<Slot>
    requires Ready(g, s, t)
  {
    SlotOf(g, s.tasks[t].request, Top(s.tasks[t]).contract)
  }

  predicate Enabled(g: Graph, s: State, step: Step) {
    match step
    case Begin(t, _, _) => t !in s.tasks
    case Hit(t) => Ready(g, s, t) && Top(s.tasks[t]).phase.Checking? && TopSlot(g, s, t).Some? &&
      TopSlot(g, s, t).value in s.cache
    case Miss(t) => Ready(g, s, t) && Top(s.tasks[t]).phase.Checking? && TopSlot(g, s, t).Some? &&
      TopSlot(g, s, t).value !in s.cache
    case Acquire(t) => Ready(g, s, t) && Top(s.tasks[t]).phase.Waiting? && TopSlot(g, s, t).Some? &&
      TopSlot(g, s, t).value !in s.locks
    case Descend(t) => Ready(g, s, t) && CallsNext(g, s, t) && !Refused(g, s.tasks[t].request, NextCall(g, s, t))
    case Refuse(t) => Ready(g, s, t) && CallsNext(g, s, t) && Refused(g, s.tasks[t].request, NextCall(g, s, t))
    case Construct(t, _) => Ready(g, s, t) && Top(s.tasks[t]).phase.Building? && !CallsNext(g, s, t)
    case Raise(t) => t in s.tasks && s.tasks[t].Running?
    case Clear(_) => true
  }

  function WithTop(task: Task, frame: Frame): Task
    requires task.Running? && task.frames != []
  {
    task.(frames := task.frames[..|task.frames| - 1] + [frame])
  }

  // The top call returns `value` to the call below it, or out of the task.
  function Deliver(task: Task, value: Instance): Task
    requires task.Running? && task.frames != []
  {
    if |task.frames| == 1 then Returned(task.request, task.frames[0].contract, value) else
      var rest := task.frames[..|task.frames| - 1];
      var caller := rest[|rest| - 1];
      var arguments := if caller.phase.Building? then caller.phase.arguments else [];
      task.(frames := rest[..|rest| - 1] + [Frame(caller.contract, Building(arguments + [value]))])
  }

  // Every `async with` the task is inside releases its lock as the exception leaves it.
  function Unwind(s: State, t: TaskId): State {
    s.(tasks := s.tasks[t := Raised], locks := map slot | slot in s.locks && s.locks[slot] != t :: s.locks[slot])
  }

  function Apply(g: Graph, s: State, step: Step): State
    requires Enabled(g, s, step)
  {
    match step
    case Begin(t, request, c) =>
      s.(tasks := s.tasks[t := if Refused(g, request, c) then Raised else Running(request, [NewFrame(g, c)])])
    case Hit(t) =>
      s.(tasks := s.tasks[t := Deliver(s.tasks[t], s.cache[TopSlot(g, s, t).value])])
    case Miss(t) =>
      s.(tasks := s.tasks[t := WithTop(s.tasks[t], Frame(Top(s.tasks[t]).contract, Waiting))])
    case Acquire(t) =>
      var slot := TopSlot(g, s, t).value;
      if slot in s.cache then
        s.(tasks := s.tasks[t := Deliver(s.tasks[t], s.cache[slot])])
      else
        s.(tasks := s.tasks[t := WithTop(s.tasks[t], Frame(Top(s.tasks[t]).contract, Building([])))],
           locks := s.locks[slot := t])
    case Descend(t) =>
      s.(tasks := s.tasks[t := s.tasks[t].(frames := s.tasks[t].frames + [NewFrame(g, NextCall(g, s, t))])])
    case Refuse(t) => Unwind(s, t)
    case Construct(t, instance) =>
      var delivered := s.(tasks := s.tasks[t := Deliver(s.tasks[t], instance)]);
      if TopSlot(g, s, t).None? then
        // A transient provider may not hand out a managed resource.
        if NeedsCleanup(g, Top(s.tasks[t]).contract, instance) then Unwind(s, t) else delivered
      else
        var slot := TopSlot(g, s, t).value;
        var owner := OwnerOf(slot);
        delivered.(
          cache := s.cache[slot := instance],
          locks := s.locks - {slot},
          history := if Clean(s.cleared, owner) then s.history + [slot] else s.history,
          owned := if NeedsCleanup(g, slot.contract, instance)
                   then s.owned[owner := Owned(s, owner) + [Entry(slot, instance)]]
                   else s.owned)
    case Raise(t) => Unwind(s, t)
    case Clear(owner) => ClearOwner(s, owner)
  }

  // A context's close, a failed start and a stop forget the instances they closed, whoever is still resolving.
  function ClearOwner(s: State, owner: Owner): State {
    s.(cache := Without(s.cache, owner), owned := s.owned[owner := []], history := Kept(s.history, owner),
      cleared := s.cleared + {owner})
  }

  // --- The inductive invariant ---

  // Whoever waits for the top call is inside its own factory's argument list.
  ghost predicate Callable(task: Task) {
    task.Running? && |task.frames| > 1 ==> task.frames[|task.frames| - 2].phase.Building?
  }

  ghost predicate Calls(g: Graph, frames: seq<Frame>, i: nat)
    requires i + 1 < |frames|
  {
    && frames[i].contract in g && frames[i].phase.Building?
    && |frames[i].phase.arguments| < |g[frames[i].contract].dependencies|
    && frames[i + 1].contract == g[frames[i].contract].dependencies[|frames[i].phase.arguments|]
  }

  // What resolving `c` yielded is still the instance cached for it, unless it may have been cleared.
  ghost predicate Current(g: Graph, s: State, request: Option<RequestId>, c: Contract, value: Instance) {
    && c in g
    && (!g[c].scope.Transient? ==> SlotOf(g, request, c).Some?)
    && (SlotOf(g, request, c).Some? && Clean(s.cleared, OwnerOf(SlotOf(g, request, c).value)) ==>
          SlotOf(g, request, c).value in s.cache && s.cache[SlotOf(g, request, c).value] == value)
  }

  // Each resolved argument is the instance cached for its contract.
  ghost predicate ArgumentsOk(g: Graph, s: State, request: Option<RequestId>, frame: Frame) {
    && frame.contract in g
    && (frame.phase.Building? ==>
      && |frame.phase.arguments| <= |g[frame.contract].dependencies|
      && forall j :: 0 <= j < |frame.phase.arguments| ==>
        Current(g, s, request, g[frame.contract].dependencies[j], frame.phase.arguments[j]))
  }

  // A slot is held while its instance is being built, and only then.
  ghost predicate FrameOk(g: Graph, s: State, t: TaskId, request: Option<RequestId>, frame: Frame) {
    && ArgumentsOk(g, s, request, frame)
    && (g[frame.contract].scope.Transient? <==> SlotOf(g, request, frame.contract).None?)
    && (g[frame.contract].scope.Transient? ==> frame.phase.Building?)
    && (Holds(g, request, frame) ==>
          var slot := SlotOf(g, request, frame.contract).value;
          slot in s.locks && s.locks[slot] == t && slot !in s.cache)
  }

  ghost predicate Holds(g: Graph, request: Option<RequestId>, frame: Frame) {
    frame.contract in g && frame.phase.Building? && SlotOf(g, request, frame.contract).Some?
  }

  ghost predicate TaskOk(g: Graph, s: State, t: TaskId)
    requires t in s.tasks
  {
    match s.tasks[t]
    case Running(request, frames) =>
      && frames != []
      && (forall i :: 0 <= i < |frames| ==> FrameOk(g, s, t, request, frames[i]))
      && (forall i :: 0 <= i < |frames| - 1 ==> Calls(g, frames, i))
    case Returned(request, c, value) => Current(g, s, request, c, value)
    case Raised => true
  }

  // Every held lock belongs to a running task that is building that very slot.
  ghost predicate LockOk(g: Graph, s: State, slot: Slot)
    requires slot in s.locks
  {
    var t := s.locks[slot];
    && t in s.tasks && s.tasks[t].Running?
    && exists i :: HoldsAt(g, s.tasks[t], i, slot)
  }

  ghost predicate HoldsAt(g: Graph, task: Task, i: int, slot: Slot)
    requires task.Running?
  {
    0 <= i < |task.frames| && Holds(g, task.request, task.frames[i]) &&
      SlotOf(g, task.request, task.frames[i].contract).value == slot
  }

  ghost predicate OwnedOk(g: Graph, s: State) {
    && (forall slot :: slot in s.history ==> slot in CleanPart(s) && slot.contract in g)
    && forall owner :: Clean(s.cleared, owner) ==> Owned(s, owner) == Tracked(g, CleanPart(s), s.history, owner)
  }

  ghost predicate TasksOk(g: Graph, s: State) {
    forall t :: t in s.tasks ==> TaskOk(g, s, t)
  }

  ghost predicate LocksOk(g: Graph, s: State) {
    forall slot :: slot in s.locks ==> LockOk(g, s, slot)
  }

  ghost predicate Inv(g: Graph, s: State) {
    && TasksOk(g, s)
    && LocksOk(g, s)
    && HistoryOk(g, CleanPart(s), s.history)
    && OwnedOk(g, s)
  }

  // What the registry's validation establishes before any task runs.
  ghost predicate Validated(g: Graph, plan: seq<Contract>) {
    IsPlan(g, plan) && WellFormed(g)
  }

  // The contracts on a task's stack strictly descend in the validated order.
  lemma {:induction false} StackDescends(g: Graph, plan: seq<Contract>, frames: seq<Frame>, i: nat, j: nat)
    requires Validated(g, plan) && i < j < |frames|
    requires forall k :: 0 <= k < |frames| - 1 ==> Calls(g, frames, k)
    requires forall k :: 0 <= k < |frames| ==> frames[k].contract in g
    ensures Rank(g, plan, frames[j].contract) < Rank(g, plan, frames[i].contract)
  {
    assert Calls(g, frames, j - 1);
    assert Edge(g, frames[j - 1].contract, frames[j].contract);
    EdgeLowersRank(g, plan, frames[j - 1].contract, frames[j].contract);
    if i < j - 1 {
      StackDescends(g, plan, frames, i, j - 1);
    }
  }

  // A slot's dependencies always have slots: only a transient provider may need a transient one.
  lemma DependenciesHaveSlots(g: Graph, plan: seq<Contract>, slot: Slot, d: Contract)
    requires Validated(g, plan) && slot.contract in g && Edge(g, slot.contract, d)
    requires SlotOf(g, RequestOf(slot), slot.contract) == Some(slot)
    ensures d in g && !g[d].scope.Transient?
    ensures SlotOf(g, RequestOf(slot), d).Some?
  {
    EdgeLowersRank(g, plan, slot.contract, d);
  }

  // --- Every step keeps the invariant ---

  // What one task's step may touch: itself, its own locks, and the slots it holds.
  ghost predicate Local(s: State, s': State, t: TaskId) {
    && t in s'.tasks && s'.cleared == s.cleared
    && (forall u :: u != t ==> (u in s.tasks <==> u in s'.tasks))
    && (forall u :: u != t && u in s.tasks ==> s'.tasks[u] == s.tasks[u])
    && (forall slot :: slot in s.cache ==> slot in s'.cache && s'.cache[slot] == s.cache[slot])
    && (forall slot :: slot in s'.cache && slot !in s.cache ==> slot in s.locks && s.locks[slot] == t)
    && (forall slot :: slot in s.locks && s.locks[slot] != t ==> slot in s'.locks && s'.locks[slot] == s.locks[slot])
    && (forall slot :: slot in s'.locks && slot !in s.locks ==> s'.locks[slot] == t)
    && (forall slot :: slot in s'.locks && slot in s.locks ==> s'.locks[slot] == s.locks[slot])
  }

  lemma OthersKeep(g: Graph, s: State, s': State, t: TaskId, u: TaskId)
    requires Local(s, s', t) && u != t && u in s.tasks && TaskOk(g, s, u)
    ensures TaskOk(g, s', u)
  {
    if s.tasks[u].Running? {
      var request, frames := s.tasks[u].request, s.tasks[u].frames;
      forall i | 0 <= i < |frames| ensures FrameOk(g, s', u, request, frames[i]) {
        assert FrameOk(g, s, u, request, frames[i]);
      }
    }
  }

  lemma TasksKeep(g: Graph, s: State, s': State, t: TaskId)
    requires TasksOk(g, s) && Local(s, s', t) && TaskOk(g, s', t)
    ensures TasksOk(g, s')
  {
    forall u | u in s'.tasks ensures TaskOk(g, s', u) {
      if u != t { OthersKeep(g, s, s', t, u); }
    }
  }

  // Every lock the task still has is one its remaining frames are building.
  ghost predicate KeepsHolding(g: Graph, s: State, s': State, t: TaskId)
    requires t in s'.tasks
  {
    forall slot :: slot in s'.locks && s'.locks[slot] == t ==>
      s'.tasks[t].Running? && exists i :: HoldsAt(g, s'.tasks[t], i, slot)
  }

  lemma LocksKeep(g: Graph, s: State, s': State, t: TaskId)
    requires LocksOk(g, s) && Local(s, s', t) && KeepsHolding(g, s, s', t)
    ensures LocksOk(g, s')
  {
    forall slot | slot in s'.locks ensures LockOk(g, s', slot) {
      if s'.locks[slot] != t {
        assert LockOk(g, s, slot);
      }
    }
  }

  // Handing a resolved value down the stack keeps the remaining frames good and their locks held.
  lemma DeliverOk(g: Graph, s: State, t: TaskId, was: Task, value: Instance)
    requires was.Running? && was.frames != [] && Callable(was)
    requires forall i :: 0 <= i < |was.frames| - 1 ==> FrameOk(g, s, t, was.request, was.frames[i])
    requires forall i :: 0 <= i < |was.frames| - 1 ==> Calls(g, was.frames, i)
    requires Current(g, s, was.request, Top(was).contract, value)
    requires t in s.tasks && s.tasks[t] == Deliver(was, value)
    ensures TaskOk(g, s, t)
    ensures forall i, slot :: 0 <= i < |was.frames| - 1 && HoldsAt(g, was, i, slot) ==>
      s.tasks[t].Running? && HoldsAt(g, s.tasks[t], i, slot)
  {
    if |was.frames| > 1 {
      var n := |was.frames| - 2;
      var caller := was.frames[n];
      var frames := s.tasks[t].frames;
      assert Calls(g, was.frames, n);
      assert FrameOk(g, s, t, was.request, caller);
      assert forall i :: 0 <= i < n ==> frames[i] == was.frames[i];
      forall i | 0 <= i < |frames| - 1 ensures Calls(g, frames, i) {
        assert Calls(g, was.frames, i);
      }
      assert FrameOk(g, s, t, was.request, frames[n]);
    }
  }

  // Replacing the top frame keeps the call chain.
  lemma WithTopOk(g: Graph, s: State, t: TaskId, was: Task, frame: Frame)
    requires was.Running? && was.frames != [] && frame.contract == Top(was).contract
    requires forall i :: 0 <= i < |was.frames| - 1 ==> FrameOk(g, s, t, was.request, was.frames[i])
    requires forall i :: 0 <= i < |was.frames| - 1 ==> Calls(g, was.frames, i)
    requires FrameOk(g, s, t, was.request, frame)
    requires t in s.tasks && s.tasks[t] == WithTop(was, frame)
    ensures TaskOk(g, s, t)
    ensures forall i, slot :: 0 <= i < |was.frames| - 1 && HoldsAt(g, was, i, slot) ==> HoldsAt(g, s.tasks[t], i, slot)
  {
    var frames := s.tasks[t].frames;
    forall i | 0 <= i < |frames| - 1 ensures Calls(g, frames, i) {
      assert Calls(g, was.frames, i);
    }
  }

  // A running task of a good state can take Apply's step: its callers are all building.
  lemma RunningIsCallable(g: Graph, s: State, t: TaskId)
    requires t in s.tasks && TaskOk(g, s, t)
    ensures Callable(s.tasks[t])
  {
    if s.tasks[t].Running? && |s.tasks[t].frames| > 1 {
      assert Calls(g, s.tasks[t].frames, |s.tasks[t].frames| - 2);
    }
  }

  lemma UnwindKeeps(g: Graph, s: State, t: TaskId)
    requires Inv(g, s) && t in s.tasks
    ensures Inv(g, Unwind(s, t))
  {
    var s' := Unwind(s, t);
    TasksKeep(g, s, s', t);
    LocksKeep(g, s, s', t);
    OwnedOnly(g, s, s');
  }

  // The lower frames' locks are still held by the frames that took them.
  lemma LowerFramesHold(g: Graph, s: State, s': State, t: TaskId)
    requires LocksOk(g, s) && t in s.tasks && t in s'.tasks && s.tasks[t].Running? && s.tasks[t].frames != []
    requires forall i, slot :: 0 <= i < |s.tasks[t].frames| - 1 && HoldsAt(g, s.tasks[t], i, slot) ==>
      s'.tasks[t].Running? && HoldsAt(g, s'.tasks[t], i, slot)
    requires forall slot :: slot in s'.locks && s'.locks[slot] == t ==>
      || (slot in s.locks && s.locks[slot] == t && !HoldsAt(g, s.tasks[t], |s.tasks[t].frames| - 1, slot))
      || (s'.tasks[t].Running? && HoldsAt(g, s'.tasks[t], |s.tasks[t].frames| - 1, slot))
    ensures KeepsHolding(g, s, s', t)
  {
    forall slot | slot in s'.locks && s'.locks[slot] == t
      ensures s'.tasks[t].Running? && exists i :: HoldsAt(g, s'.tasks[t], i, slot)
    {
      if slot in s.locks && s.locks[slot] == t && !HoldsAt(g, s.tasks[t], |s.tasks[t].frames| - 1, slot) {
        assert LockOk(g, s, slot);
        var i :| HoldsAt(g, s.tasks[t], i, slot);
        assert HoldsAt(g, s'.tasks[t], i, slot);
      }
    }
  }

  // Steps that change nothing but the task itself: Begin, Hit, Miss, Descend, Acquire on a full slot.
  lemma TaskOnlyKeeps(g: Graph, s: State, s': State, t: TaskId)
    requires Inv(g, s) && t in s'.tasks && s' == s.(tasks := s.tasks[t := s'.tasks[t]])
    requires TaskOk(g, s', t)
    requires forall slot, i :: t in s.tasks && s.tasks[t].Running? && HoldsAt(g, s.tasks[t], i, slot) ==>
      s'.tasks[t].Running? && HoldsAt(g, s'.tasks[t], i, slot)
    ensures Inv(g, s')
  {
    TasksKeep(g, s, s', t);
    forall slot | slot in s'.locks && s'.locks[slot] == t
      ensures s'.tasks[t].Running? && exists i :: HoldsAt(g, s'.tasks[t], i, slot)
    {
      assert LockOk(g, s, slot);
      var i :| HoldsAt(g, s.tasks[t], i, slot);
      assert HoldsAt(g, s'.tasks[t], i, slot);
    }
    LocksKeep(g, s, s', t);
    OwnedOnly(g, s, s');
  }

  lemma BeginKeeps(g: Graph, s: State, step: Step)
    requires Inv(g, s) && step.Begin? && Enabled(g, s, step)
    ensures Inv(g, Apply(g, s, step))
  {
    TaskOnlyKeeps(g, s, Apply(g, s, step), step.task);
  }

  lemma HitKeeps(g: Graph, s: State, step: Step)
    requires Inv(g, s) && Enabled(g, s, step)
    requires step.Hit? || (step.Acquire? && TopSlot(g, s, step.task).value in s.cache)
    ensures Callable(s.tasks[step.task]) && Inv(g, Apply(g, s, step))
  {
    hide HistoryOk, OwnedOk, Tracked, LockOk;
    var t := step.task;
    RunningIsCallable(g, s, t);
    var s' := Apply(g, s, step);
    DeliverOk(g, s', t, s.tasks[t], s.cache[TopSlot(g, s, t).value]);
    forall slot, i | HoldsAt(g, s.tasks[t], i, slot) ensures s'.tasks[t].Running? && HoldsAt(g, s'.tasks[t], i, slot) {
      assert i < |s.tasks[t].frames| - 1;
    }
    TaskOnlyKeeps(g, s, s', t);
  }

  lemma MissKeeps(g: Graph, s: State, step: Step)
    requires Inv(g, s) && step.Miss? && Enabled(g, s, step)
    ensures Callable(s.tasks[step.task]) && Inv(g, Apply(g, s, step))
  {
    var t := step.task;
    RunningIsCallable(g, s, t);
    var s' := Apply(g, s, step);
    var frame := Frame(Top(s.tasks[t]).contract, Waiting);
    assert FrameOk(g, s, t, s.tasks[t].request, Top(s.tasks[t]));
    assert FrameOk(g, s', t, s.tasks[t].request, frame);
    WithTopOk(g, s', t, s.tasks[t], frame);
    forall slot, i | HoldsAt(g, s.tasks[t], i, slot) ensures HoldsAt(g, s'.tasks[t], i, slot) {
      assert i < |s.tasks[t].frames| - 1;
    }
    TaskOnlyKeeps(g, s, s', t);
  }

  lemma DescendKeeps(g: Graph, s: State, step: Step)
    requires Inv(g, s) && step.Descend? && Enabled(g, s, step)
    ensures Callable(s.tasks[step.task]) && Inv(g, Apply(g, s, step))
  {
    var t := step.task;
    RunningIsCallable(g, s, t);
    var s' := Apply(g, s, step);
    var was, frames := s.tasks[t].frames, s'.tasks[t].frames;
    forall i | 0 <= i < |frames| - 1 ensures Calls(g, frames, i) {
      assert i < |was| - 1 ==> Calls(g, was, i);
      assert i == |was| - 1 ==> frames[i] == Top(s.tasks[t]);
    }
    forall i | 0 <= i < |frames| ensures FrameOk(g, s', t, s.tasks[t].request, frames[i]) {
      assert i < |was| ==> FrameOk(g, s, t, s.tasks[t].request, was[i]);
    }
    TaskOnlyKeeps(g, s, s', t);
  }

  // Taking a free lock: no other task is building the slot, and the taker did not hold it.
  lemma AcquireKeeps(g: Graph, s: State, step: Step)
    requires Inv(g, s) && step.Acquire? && Enabled(g, s, step)
    requires TopSlot(g, s, step.task).value !in s.cache
    ensures Callable(s.tasks[step.task]) && Inv(g, Apply(g, s, step))
  {
    var t, s' := step.task, Apply(g, s, step);
    RunningIsCallable(g, s, t);
    AcquiringTask(g, s, step);
    hide HistoryOk, OwnedOk, Tracked, TaskOk, FrameOk, ArgumentsOk, LockOk;
    TasksKeep(g, s, s', t);
    LowerFramesHold(g, s, s', t);
    LocksKeep(g, s, s', t);
    OwnedOnly(g, s, s');
  }

  // The task that acquires a lock builds its top frame, and what its lower frames hold they still hold.
  lemma AcquiringTask(g: Graph, s: State, step: Step)
    requires Inv(g, s) && step.Acquire? && Enabled(g, s, step) && TopSlot(g, s, step.task).value !in s.cache
    ensures var t, s' := step.task, Apply(g, s, step);
      && TaskOk(g, s', t) && s'.tasks[t].Running?
      && HoldsAt(g, s'.tasks[t], |s.tasks[t].frames| - 1, TopSlot(g, s, t).value)
      && forall i, slot :: 0 <= i < |s.tasks[t].frames| - 1 && HoldsAt(g, s.tasks[t], i, slot) ==>
        HoldsAt(g, s'.tasks[t], i, slot)
  {
    hide HistoryOk, OwnedOk, Tracked, LockOk;
    var t, s' := step.task, Apply(g, s, step);
    var was := s.tasks[t];
    assert FrameOk(g, s, t, was.request, Top(was));
    forall i | 0 <= i < |was.frames| - 1 ensures FrameOk(g, s', t, was.request, was.frames[i]) {
      assert FrameOk(g, s, t, was.request, was.frames[i]);
    }
    WithTopOk(g, s', t, was, Frame(Top(was).contract, Building([])));
  }

  // The frames below the top build other slots than the top does.
  lemma LowerSlotsDiffer(g: Graph, plan: seq<Contract>, s: State, t: TaskId, i: nat)
    requires Validated(g, plan) && t in s.tasks && s.tasks[t].Running? && TaskOk(g, s, t)
    requires i < |s.tasks[t].frames| - 1
    ensures s.tasks[t].frames[i].contract != Top(s.tasks[t]).contract
  {
    var frames := s.tasks[t].frames;
    forall k | 0 <= k < |frames| ensures frames[k].contract in g {
      assert FrameOk(g, s, t, s.tasks[t].request, frames[k]);
    }
    StackDescends(g, plan, frames, i, |frames| - 1);
  }

  lemma DependencyIsCached(g: Graph, plan: seq<Contract>, s: State, request: Option<RequestId>, frame: Frame,
      d: Contract)
    requires Validated(g, plan) && ArgumentsOk(g, s, request, frame)
    requires frame.phase.Building? && |frame.phase.arguments| == |g[frame.contract].dependencies|
    requires SlotOf(g, request, frame.contract).Some? && Edge(g, frame.contract, d)
    requires Clean(s.cleared, OwnerOf(SlotOf(g, request, frame.contract).value))
    ensures var slot := SlotOf(g, request, frame.contract).value;
            d in g && SlotOf(g, RequestOf(slot), d).Some? && SlotOf(g, RequestOf(slot), d).value in CleanPart(s)
  {
    var slot := SlotOf(g, request, frame.contract).value;
    DependenciesHaveSlots(g, plan, slot, d);
    var j :| 0 <= j < |g[frame.contract].dependencies| && g[frame.contract].dependencies[j] == d;
    assert Current(g, s, request, d, frame.phase.arguments[j]);
    assert Lifetime(g[slot.contract].scope) <= Lifetime(g[d].scope);
    assert SlotOf(g, RequestOf(slot), d) == SlotOf(g, request, d);
  }

  // A finished construction puts its slot at the end of the history, with all it needs before it.
  lemma ConstructExtends(g: Graph, plan: seq<Contract>, s: State, t: TaskId, instance: Instance)
    requires Validated(g, plan) && Inv(g, s) && Enabled(g, s, Construct(t, instance))
    requires TopSlot(g, s, t).Some?
    ensures var slot := TopSlot(g, s, t).value;
            && slot !in s.cache
            && (Clean(s.cleared, OwnerOf(slot)) ==> HistoryOk(g, CleanPart(s)[slot := instance], s.history + [slot]))
  {
    var task, slot := s.tasks[t], TopSlot(g, s, t).value;
    var top := Top(task);
    assert TaskOk(g, s, t);
    assert FrameOk(g, s, t, task.request, top);
    if Clean(s.cleared, OwnerOf(slot)) {
      forall d | Edge(g, slot.contract, d)
        ensures d in g && SlotOf(g, RequestOf(slot), d).Some? && SlotOf(g, RequestOf(slot), d).value in s.history
      {
        DependencyIsCached(g, plan, s, task.request, top, d);
      }
      assert Supported(g, s.history, slot);
      HistoryExtend(g, CleanPart(s), s.history, slot, instance);
    }
  }

  lemma ConstructTracks(g: Graph, s: State, slot: Slot, instance: Instance, owned: map<Owner, seq<Entry>>)
    requires OwnedOk(g, s) && slot !in s.cache && slot.contract in g
    requires owned == if NeedsCleanup(g, slot.contract, instance)
                      then s.owned[OwnerOf(slot) := Owned(s, OwnerOf(slot)) + [Entry(slot, instance)]] else s.owned
    ensures OwnedOk(g, WithSlot(s, slot, instance).(owned := owned))
  {
    var s' := WithSlot(s, slot, instance).(owned := owned);
    CleanPartWith(s, slot, instance);
    forall owner | Clean(s.cleared, owner) ensures Owned(s', owner) == Tracked(g, CleanPart(s'), s'.history, owner) {
      assert Owned(s, owner) == Tracked(g, CleanPart(s), s.history, owner);
      if Clean(s.cleared, OwnerOf(slot)) {
        TrackedExtend(g, CleanPart(s), s.history, slot, instance, owner);
      }
    }
  }

  function WithSlot(s: State, slot: Slot, instance: Instance): State {
    s.(cache := s.cache[slot := instance], history := if Clean(s.cleared, OwnerOf(slot)) then s.history + [slot]
      else s.history)
  }

  lemma CleanPartWith(s: State, slot: Slot, instance: Instance)
    requires slot !in s.cache
    ensures CleanPart(WithSlot(s, slot, instance)) ==
      if Clean(s.cleared, OwnerOf(slot)) then CleanPart(s)[slot := instance] else CleanPart(s)
  {
  }

  ghost predicate Rejected(g: Graph, s: State, t: TaskId, instance: Instance)
    requires Ready(g, s, t)
  {
    TopSlot(g, s, t).None? && NeedsCleanup(g, Top(s.tasks[t]).contract, instance)
  }

  lemma ConstructOwnTask(g: Graph, plan: seq<Contract>, s: State, t: TaskId, instance: Instance)
    requires Validated(g, plan) && t in s.tasks && TaskOk(g, s, t) && Enabled(g, s, Construct(t, instance))
    requires Callable(s.tasks[t]) && !Rejected(g, s, t, instance)
    ensures var s', was := Apply(g, s, Construct(t, instance)), s.tasks[t];
            && TaskOk(g, s', t)
            && (TopSlot(g, s, t).Some? ==>
              TopSlot(g, s, t).value !in s.cache && TopSlot(g, s, t).value in s.locks &&
                s.locks[TopSlot(g, s, t).value] == t)
            && (forall i, slot :: 0 <= i < |was.frames| - 1 && HoldsAt(g, was, i, slot) ==>
              s'.tasks[t].Running? && HoldsAt(g, s'.tasks[t], i, slot))
  {
    var s', was := Apply(g, s, Construct(t, instance)), s.tasks[t];
    assert FrameOk(g, s, t, was.request, Top(was));
    forall i | 0 <= i < |was.frames| - 1 ensures FrameOk(g, s', t, was.request, was.frames[i]) {
      assert FrameOk(g, s, t, was.request, was.frames[i]);
      LowerSlotsDiffer(g, plan, s, t, i);
    }
    DeliverOk(g, s', t, was, instance);
  }

  lemma ConstructIsLocal(g: Graph, plan: seq<Contract>, s: State, t: TaskId, instance: Instance)
    requires Validated(g, plan) && Inv(g, s) && Enabled(g, s, Construct(t, instance)) && Callable(s.tasks[t])
    requires !Rejected(g, s, t, instance)
    ensures Local(s, Apply(g, s, Construct(t, instance)), t)
  {
    hide HistoryOk, OwnedOk, Tracked, LockOk, HoldsAt;
    ConstructOwnTask(g, plan, s, t, instance);
  }

  lemma ConstructTasks(g: Graph, plan: seq<Contract>, s: State, t: TaskId, instance: Instance)
    requires Validated(g, plan) && Inv(g, s) && Enabled(g, s, Construct(t, instance)) && Callable(s.tasks[t])
    requires !Rejected(g, s, t, instance)
    ensures var s' := Apply(g, s, Construct(t, instance));
            TasksOk(g, s') && LocksOk(g, s')
  {
    var s' := Apply(g, s, Construct(t, instance));
    ConstructOwnTask(g, plan, s, t, instance);
    ConstructIsLocal(g, plan, s, t, instance);
    hide HistoryOk, OwnedOk, Tracked, TaskOk, FrameOk, ArgumentsOk, LockOk, Current, Local;
    TasksKeep(g, s, s', t);
    LowerFramesHold(g, s, s', t);
    LocksKeep(g, s, s', t);
  }

  lemma ConstructKeeps(g: Graph, plan: seq<Contract>, s: State, step: Step)
    requires Validated(g, plan) && Inv(g, s) && step.Construct? && Enabled(g, s, step) && Callable(s.tasks[step.task])
    ensures Inv(g, Apply(g, s, step))
  {
    hide HistoryOk, OwnedOk, Tracked, ArgumentsOk, FrameOk, LockOk, HoldsAt;
    var t, instance, s' := step.task, step.instance, Apply(g, s, step);
    if Rejected(g, s, t, instance) {
      UnwindKeeps(g, s, t);
      return;
    }
    ConstructTasks(g, plan, s, t, instance);
    if TopSlot(g, s, t).Some? {
      ConstructExtends(g, plan, s, t, instance);
      CleanPartWith(s, TopSlot(g, s, t).value, instance);
      ConstructTracks(g, s, TopSlot(g, s, t).value, instance, s'.owned);
      OwnedOnly(g, s.(cache := s'.cache, history := s'.history, owned := s'.owned), s');
    } else {
      OwnedOnly(g, s, s');
    }
  }

  lemma OwnedOnly(g: Graph, s: State, s': State)
    requires OwnedOk(g, s) && s'.cache == s.cache && s'.history == s.history && s'.owned == s.owned &&
      s'.cleared == s.cleared
    ensures OwnedOk(g, s')
  {
    assert CleanPart(s') == CleanPart(s);
    forall owner | Clean(s.cleared, owner) ensures Owned(s', owner) == Tracked(g, CleanPart(s'), s'.history, owner) {
      assert Owned(s', owner) == Owned(s, owner);
    }
  }

  lemma {:induction false} StepKeeps(g: Graph, plan: seq<Contract>, s: State, step: Step)
    requires Validated(g, plan) && Inv(g, s) && Enabled(g, s, step)
    ensures Inv(g, Apply(g, s, step))
  {
    if !step.Clear? && step.task in s.tasks { RunningIsCallable(g, s, step.task); }
    match step
    case Begin(_, _, _) => BeginKeeps(g, s, step);
    case Hit(_) => HitKeeps(g, s, step);
    case Miss(_) => MissKeeps(g, s, step);
    case Acquire(_) => if TopSlot(g, s, step.task).value in s.cache { HitKeeps(g, s, step); }
      else { AcquireKeeps(g, s, step); }
    case Descend(_) => DescendKeeps(g, s, step);
    case Refuse(_) => UnwindKeeps(g, s, step.task);
    case Construct(_, _) => ConstructKeeps(g, plan, s, step);
    case Raise(_) => UnwindKeeps(g, s, step.task);
    case Clear(owner) => ClearKeeps(g, s, owner);
  }

  // Clearing an owner's instances takes nothing from the others: no slot of another owner rests on a
  // request context's.
  lemma ClearKeeps(g: Graph, s: State, owner: Owner)
    requires Inv(g, s)
    ensures Inv(g, ClearOwner(s, owner))
  {
    hide TaskOk, LockOk, HistoryOk, OwnedOk;
    ClearKeepsTasks(g, s, owner);
    if owner.AppOwner? {
      NothingIsClean(g, ClearOwner(s, owner));
    } else {
      ClearKeepsOthers(g, s, owner);
    }
  }

  lemma NothingIsClean(g: Graph, s: State)
    requires AppOwner in s.cleared && s.history == []
    ensures HistoryOk(g, CleanPart(s), s.history) && OwnedOk(g, s)
  {
    assert CleanPart(s) == map[];
  }

  lemma ClearKeepsOthers(g: Graph, s: State, owner: Owner)
    requires HistoryOk(g, CleanPart(s), s.history) && OwnedOk(g, s) && owner.RequestOwner?
    ensures var s' := ClearOwner(s, owner); HistoryOk(g, CleanPart(s'), s'.history) && OwnedOk(g, s')
  {
    hide HistoryOk, Tracked, CleanPart, Kept, Without;
    CleanPartWithout(s, owner);
    FilteredHistory(g, CleanPart(s), s.history, owner);
    FilteredTracked(g, CleanPart(s), s.history, owner, AppOwner);
    var s' := ClearOwner(s, owner);
    forall o | Clean(s'.cleared, o) ensures Owned(s', o) == Tracked(g, CleanPart(s'), s'.history, o) {
      ClearKeepsList(g, s, owner, o);
    }
  }

  lemma ClearKeepsList(g: Graph, s: State, owner: Owner, other: Owner)
    requires OwnedOk(g, s) && owner.RequestOwner? && other != owner && Clean(s.cleared, other)
    requires forall slot :: slot in ClearOwner(s, owner).history ==>
      slot in CleanPart(ClearOwner(s, owner)) && slot.contract in g
    ensures var s' := ClearOwner(s, owner); Owned(s', other) == Tracked(g, CleanPart(s'), s'.history, other)
  {
    hide Tracked, Kept, Without;
    CleanPartWithout(s, owner);
    hide CleanPart;
    FilteredTracked(g, CleanPart(s), s.history, owner, other);
    assert Owned(s, other) == Tracked(g, CleanPart(s), s.history, other);
  }

  lemma CleanPartWithout(s: State, owner: Owner)
    requires owner.RequestOwner?
    ensures CleanPart(ClearOwner(s, owner)) == Without(CleanPart(s), owner)
  {
  }

  lemma ClearKeepsTasks(g: Graph, s: State, owner: Owner)
    requires TasksOk(g, s) && LocksOk(g, s)
    ensures TasksOk(g, ClearOwner(s, owner)) && LocksOk(g, ClearOwner(s, owner))
  {
    var s' := ClearOwner(s, owner);
    forall t | t in s'.tasks ensures TaskOk(g, s', t) {
      assert TaskOk(g, s, t);
      if s.tasks[t].Running? {
        var request, frames := s.tasks[t].request, s.tasks[t].frames;
        forall i | 0 <= i < |frames| ensures FrameOk(g, s', t, request, frames[i]) {
          assert FrameOk(g, s, t, request, frames[i]);
        }
      }
    }
    forall slot | slot in s'.locks ensures LockOk(g, s', slot) {
      assert LockOk(g, s, slot);
    }
  }

  lemma {:induction false} FilteredHistory(g: Graph, cache: Cache, history: seq<Slot>, owner: Owner)
    requires HistoryOk(g, cache, history) && owner.RequestOwner?
    ensures HistoryOk(g, Without(cache, owner), Kept(history, owner))
  {
    if history == [] {
      assert Without(cache, owner) == map[];
    } else {
      var n := |history| - 1;
      HistoryPrefix(g, cache, history);
      hide HistoryOk, Supported, Without, Kept;
      FilteredHistory(g, cache - {history[n]}, history[..n], owner);
      assert history == history[..n] + [history[n]];
      FilteredOne(g, cache, history[..n], history[n], owner);
    }
  }

  lemma FilteredOne(g: Graph, cache: Cache, history: seq<Slot>, last: Slot, owner: Owner)
    requires HistoryOk(g, Without(cache - {last}, owner), Kept(history, owner)) && owner.RequestOwner?
    requires Supported(g, history, last) && last in cache && last !in history
    ensures HistoryOk(g, Without(cache, owner), Kept(history + [last], owner))
  {
    assert (history + [last])[..|history|] == history;
    assert Kept(history + [last], owner) == Kept(history, owner) + if OwnerOf(last) == owner then [] else [last];
    assert Kept(history, owner) + [] == Kept(history, owner);
    hide HistoryOk, Supported, Without, Kept;
    WithoutOne(cache, owner, last);
    KeptMembers(history, owner);
    if OwnerOf(last) != owner {
      StillSupported(g, history, owner, last);
      HistoryExtend(g, Without(cache - {last}, owner), Kept(history, owner), last, cache[last]);
    }
  }

  lemma {:induction false} KeptMembers(history: seq<Slot>, owner: Owner)
    requires owner.RequestOwner?
    ensures forall slot :: slot in Kept(history, owner) <==> slot in history && OwnerOf(slot) != owner
  {
    if history != [] {
      var n := |history| - 1;
      KeptMembers(history[..n], owner);
      assert history == history[..n] + [history[n]];
    }
  }

  lemma WithoutOne(cache: Cache, owner: Owner, slot: Slot)
    requires slot in cache
    ensures slot !in Without(cache - {slot}, owner)
    ensures Without(cache, owner) ==
      if OwnerOf(slot) == owner then Without(cache - {slot}, owner)
        else Without(cache - {slot}, owner)[slot := cache[slot]]
  {
  }

  lemma StillSupported(g: Graph, history: seq<Slot>, owner: Owner, slot: Slot)
    requires Supported(g, history, slot) && owner.RequestOwner? && OwnerOf(slot) != owner
    requires forall other :: other in Kept(history, owner) <==> other in history && OwnerOf(other) != owner
    ensures Supported(g, Kept(history, owner), slot)
  {
    hide Kept;
    forall d | Edge(g, slot.contract, d) ensures OwnerOf(SlotOf(g, RequestOf(slot), d).value) != owner {
      assert SlotOf(g, RequestOf(slot), d).Some?;
    }
  }

  lemma HistoryPrefix(g: Graph, cache: Cache, history: seq<Slot>)
    requires HistoryOk(g, cache, history) && history != []
    ensures var last := history[|history| - 1];
      && HistoryOk(g, cache - {last}, history[..|history| - 1])
      && Supported(g, history[..|history| - 1], last) && last in cache && last !in history[..|history| - 1]
  {
    var n := |history| - 1;
    var h := history[..n];
    forall k | 0 <= k < n ensures Supported(g, h[..k], h[k]) {
      assert h[..k] == history[..k] && Supported(g, history[..k], history[k]);
    }
    assert history[n] !in h;
    assert forall slot :: slot in history <==> slot in h || slot == history[n];
  }

  lemma KeptIsCached(g: Graph, cache: Cache, history: seq<Slot>, owner: Owner)
    requires owner.RequestOwner? && forall slot :: slot in history ==> slot in cache && slot.contract in g
    ensures forall slot :: slot in Kept(history, owner) ==> slot in Without(cache, owner) && slot.contract in g
  {
    KeptMembers(history, owner);
    hide Kept;
  }

  lemma {:induction false} FilteredTracked(g: Graph, cache: Cache, history: seq<Slot>, owner: Owner, other: Owner)
    requires owner.RequestOwner? && other != owner
    requires forall slot :: slot in history ==> slot in cache && slot.contract in g
    ensures forall slot :: slot in Kept(history, owner) ==> slot in Without(cache, owner) && slot.contract in g
    ensures Tracked(g, Without(cache, owner), Kept(history, owner), other) == Tracked(g, cache, history, other)
  {
    KeptIsCached(g, cache, history, owner);
    if history != [] {
      var n := |history| - 1;
      hide Tracked, Without;
      FilteredTracked(g, cache, history[..n], owner, other);
      assert history == history[..n] + [history[n]];
      TrackedStep(g, cache, history[..n], history[n], other);
      FilteredLast(g, cache, history[..n], history[n], owner, other);
    }
  }

  lemma FilteredLast(g: Graph, cache: Cache, history: seq<Slot>, last: Slot, owner: Owner, other: Owner)
    requires owner.RequestOwner? && other != owner
    requires forall slot :: slot in history + [last] ==> slot in cache && slot.contract in g
    ensures forall slot :: slot in Kept(history, owner) ==> slot in Without(cache, owner) && slot.contract in g
    ensures forall slot :: slot in Kept(history + [last], owner) ==> slot in Without(cache, owner) && slot.contract in g
    ensures last in cache && last.contract in g
    ensures Tracked(g, Without(cache, owner), Kept(history + [last], owner), other) ==
      Tracked(g, Without(cache, owner), Kept(history, owner), other) + if OwnerOf(last) == other
        then Added(g, last, cache[last]) else []
  {
    assert forall slot :: slot in history ==> slot in history + [last];
    assert last in history + [last];
    KeptIsCached(g, cache, history, owner);
    KeptIsCached(g, cache, history + [last], owner);
    assert (history + [last])[..|history|] == history;
    assert Kept(history + [last], owner) == Kept(history, owner) + if OwnerOf(last) == owner then [] else [last];
    hide Kept, Tracked;
    if OwnerOf(last) == owner {
      assert Kept(history, owner) + [] == Kept(history, owner);
    } else {
      TrackedStep(g, Without(cache, owner), Kept(history, owner), last, other);
    }
  }

  // --- Runs ---

  ghost predicate Taken(g: Graph, states: seq<State>, steps: seq<Step>, i: nat)
    requires |states| == |steps| + 1 && i < |steps|
  {
    Enabled(g, states[i], steps[i]) && states[i + 1] == Apply(g, states[i], steps[i])
  }

  ghost predicate IsRun(g: Graph, states: seq<State>, steps: seq<Step>) {
    && |states| == |steps| + 1 && states[0] == INIT
    && forall i :: 0 <= i < |steps| ==> Taken(g, states, steps, i)
  }

  lemma {:induction false} EveryStateIsGood(g: Graph, plan: seq<Contract>, states: seq<State>, steps: seq<Step>, i: nat)
    requires Validated(g, plan) && IsRun(g, states, steps) && i < |states|
    ensures Inv(g, states[i])
  {
    if i > 0 {
      EveryStateIsGood(g, plan, states, steps, i - 1);
      assert Taken(g, states, steps, i - 1);
      StepKeeps(g, plan, states[i - 1], steps[i - 1]);
    }
  }

  lemma StepOnlyAdds(g: Graph, plan: seq<Contract>, s: State, step: Step)
    requires Validated(g, plan) && Inv(g, s) && Enabled(g, s, step)
    ensures var s' := Apply(g, s, step);
            && s.cleared <= s'.cleared
            && (!step.Clear? ==> s.history <= s'.history)
            && forall slot :: slot in s.cache && step != Clear(OwnerOf(slot)) ==>
              slot in s'.cache && s'.cache[slot] == s.cache[slot]
  {
    if step.Construct? && TopSlot(g, s, step.task).Some? {
      ConstructExtends(g, plan, s, step.task, step.instance);
    }
  }

  // No step from `i` to before `j` clears the owner's instances.
  ghost predicate Unclear(steps: seq<Step>, i: nat, j: nat, owner: Owner) {
    forall k :: i <= k < j && k < |steps| ==> steps[k] != Clear(owner)
  }

  // A cached instance is never replaced, and dropped only when its owner's instances are cleared.
  lemma {:induction false} CachedForGood(g: Graph, plan: seq<Contract>, states: seq<State>, steps: seq<Step>, i: nat,
      j: nat, slot: Slot)
    requires Validated(g, plan) && IsRun(g, states, steps) && i <= j < |states|
    requires slot in states[i].cache && Unclear(steps, i, j, OwnerOf(slot))
    ensures slot in states[j].cache && states[j].cache[slot] == states[i].cache[slot]
  {
    if i < j {
      CachedForGood(g, plan, states, steps, i, j - 1, slot);
      EveryStateIsGood(g, plan, states, steps, j - 1);
      assert Taken(g, states, steps, j - 1);
      StepOnlyAdds(g, plan, states[j - 1], steps[j - 1]);
    }
  }

  // What has been cleared is on record.
  lemma {:induction false} ClearedIsRecorded(g: Graph, plan: seq<Contract>, states: seq<State>, steps: seq<Step>,
      j: nat, owner: Owner)
    requires Validated(g, plan) && IsRun(g, states, steps) && j < |states| && owner !in states[j].cleared
    ensures Unclear(steps, 0, j, owner)
  {
    if j > 0 {
      EveryStateIsGood(g, plan, states, steps, j - 1);
      assert Taken(g, states, steps, j - 1);
      StepOnlyAdds(g, plan, states[j - 1], steps[j - 1]);
      ClearedIsRecorded(g, plan, states, steps, j - 1, owner);
    }
  }

  // Until its owner's instances are cleared, every caller that ever returns for one slot returns the
  // same instance, which is the cached one, and the slot is filled once.
  lemma SingleConstruction(g: Graph, plan: seq<Contract>, states: seq<State>, steps: seq<Step>, i: nat, t: TaskId,
      j: nat, u: TaskId, slot: Slot)
    requires Validated(g, plan) && IsRun(g, states, steps) && i <= j < |states|
    requires t in states[i].tasks && states[i].tasks[t].Returned? && ReturnsFor(g, states[i].tasks[t], slot)
    requires u in states[j].tasks && states[j].tasks[u].Returned? && ReturnsFor(g, states[j].tasks[u], slot)
    requires Clean(states[j].cleared, OwnerOf(slot))
    ensures states[i].tasks[t].value == states[j].tasks[u].value
    ensures slot in states[j].cache && states[j].cache[slot] == states[i].tasks[t].value
    ensures multiset(states[j].history)[slot] == 1
  {
    EveryStateIsGood(g, plan, states, steps, i);
    EveryStateIsGood(g, plan, states, steps, j);
    ClearedIsRecorded(g, plan, states, steps, j, OwnerOf(slot));
    ClearedOnlyGrows(g, plan, states, steps, i, j);
    assert TaskOk(g, states[i], t) && TaskOk(g, states[j], u);
    CachedForGood(g, plan, states, steps, i, j, slot);
    assert slot in CleanPart(states[j]);
    OccursOnce(states[j].history, slot);
  }

  ghost predicate ReturnsFor(g: Graph, task: Task, slot: Slot) {
    task.Returned? && task.contract in g && SlotOf(g, task.request, task.contract) == Some(slot)
  }

  lemma {:induction false} ClearedOnlyGrows(g: Graph, plan: seq<Contract>, states: seq<State>, steps: seq<Step>, i: nat,
      j: nat)
    requires Validated(g, plan) && IsRun(g, states, steps) && i <= j < |states|
    ensures states[i].cleared <= states[j].cleared
  {
    if i < j {
      ClearedOnlyGrows(g, plan, states, steps, i, j - 1);
      EveryStateIsGood(g, plan, states, steps, j - 1);
      assert Taken(g, states, steps, j - 1);
      StepOnlyAdds(g, plan, states[j - 1], steps[j - 1]);
    }
  }

  // The step by which a call for a slot, of a caller or of another factory's argument list, gets its value.
  ghost predicate Yields(g: Graph, s: State, step: Step, slot: Slot, value: Instance) {
    && Enabled(g, s, step)
    && match step
       case Hit(t) => TopSlot(g, s, t) == Some(slot) && s.cache[slot] == value
       case Acquire(t) => TopSlot(g, s, t) == Some(slot) && slot in s.cache && s.cache[slot] == value
       case Construct(t, instance) => TopSlot(g, s, t) == Some(slot) && instance == value
       case _ => false
  }

  lemma YieldedIsCached(g: Graph, s: State, step: Step, slot: Slot, value: Instance)
    requires Yields(g, s, step, slot, value)
    ensures slot in Apply(g, s, step).cache && Apply(g, s, step).cache[slot] == value
  {
  }

  lemma YieldsTheCached(g: Graph, plan: seq<Contract>, s: State, step: Step, slot: Slot, value: Instance)
    requires Validated(g, plan) && Inv(g, s) && Yields(g, s, step, slot, value)
    ensures slot in s.cache ==> s.cache[slot] == value
  {
    if step.Construct? {
      ConstructExtends(g, plan, s, step.task, value);
    }
    hide HistoryOk, OwnedOk, TasksOk, LocksOk;
  }

  // Two calls for one slot get the same instance unless the owner's instances are cleared in between.
  lemma CallsAgreeUnlessCleared(g: Graph, plan: seq<Contract>, states: seq<State>, steps: seq<Step>, i: nat, j: nat,
      slot: Slot, first: Instance, second: Instance)
    requires Validated(g, plan) && IsRun(g, states, steps) && i < j < |steps|
    requires Yields(g, states[i], steps[i], slot, first) && Yields(g, states[j], steps[j], slot, second)
    requires Unclear(steps, i, j, OwnerOf(slot))
    ensures first == second
  {
    hide Inv, Apply, Yields, Enabled;
    assert Taken(g, states, steps, i) && Taken(g, states, steps, j);
    YieldedIsCached(g, states[i], steps[i], slot, first);
    EveryStateIsGood(g, plan, states, steps, j);
    CachedForGood(g, plan, states, steps, i + 1, j, slot);
    YieldsTheCached(g, plan, states[j], steps[j], slot, second);
  }

  lemma Continue(g: Graph, states: seq<State>, steps: seq<Step>, step: Step)
      returns (states': seq<State>, steps': seq<Step>)
    requires IsRun(g, states, steps) && Enabled(g, states[|steps|], step)
    ensures states' == states + [Apply(g, states[|steps|], step)] && steps' == steps + [step]
    ensures IsRun(g, states', steps')
  {
    states', steps' := states + [Apply(g, states[|steps|], step)], steps + [step];
    forall i | 0 <= i < |steps'| ensures Taken(g, states', steps', i) {
      assert i < |steps| ==> Taken(g, states, steps, i);
    }
  }

  const ALONE: Graph := map["a" := Provider(App, [], false, false)]

  // A task on its way: looking, queued, or inside the factory.
  function On(phase: Phase): Task {
    Running(None, [Frame("a", phase)])
  }

  lemma OnceOn(was: Phase, now: Phase)
    ensures WithTop(On(was), Frame("a", now)) == On(now)
  {
    assert On(was).frames[..0] + [Frame("a", now)] == [Frame("a", now)];
  }

  // Two tasks ask for one provider; the second queues on the lock.
  lemma OneBuildsOneWaits() returns (states: seq<State>, steps: seq<Step>)
    ensures IsRun(ALONE, states, steps) && |steps| == 5
    ensures states[5] == INIT.(tasks := map[0 := On(Building([])), 1 := On(Waiting)], locks := map[AppSlot("a") := 0])
  {
    OnceOn(Waiting, Building([]));
    states, steps := BothMiss();
    states, steps := Continue(ALONE, states, steps, Acquire(0));
    assert states[5].tasks == map[0 := On(Building([])), 1 := On(Waiting)];
  }

  lemma BothMiss() returns (states: seq<State>, steps: seq<Step>)
    ensures IsRun(ALONE, states, steps) && |steps| == 4
    ensures states[4] == INIT.(tasks := map[0 := On(Waiting), 1 := On(Waiting)])
  {
    OnceOn(Checking, Waiting);
    states, steps := [INIT], [];
    states, steps := Continue(ALONE, states, steps, Begin(0, None, "a"));
    states, steps := Continue(ALONE, states, steps, Begin(1, None, "a"));
    states, steps := Continue(ALONE, states, steps, Miss(0));
    states, steps := Continue(ALONE, states, steps, Miss(1));
    assert states[4].tasks == map[0 := On(Waiting), 1 := On(Waiting)];
  }

  // The first task gets its instance and the application's instances are cleared before the second,
  // which the lock now goes to, is back.
  lemma ClearedBeforeTheWaiter() returns (states: seq<State>, steps: seq<Step>)
    ensures IsRun(ALONE, states, steps) && |steps| == 7
    ensures Yields(ALONE, states[5], steps[5], AppSlot("a"), Instance(1, false)) && steps[6] == Clear(AppOwner)
    ensures states[7] == INIT.(tasks := map[0 := Returned(None, "a", Instance(1, false)), 1 := On(Waiting)],
      owned := map[AppOwner := []], cleared := {AppOwner})
  {
    states, steps := OneBuildsOneWaits();
    states, steps := Continue(ALONE, states, steps, Construct(0, Instance(1, false)));
    states, steps := Continue(ALONE, states, steps, Clear(AppOwner));
  }

  // After a clear, two calls for one slot may get different instances.
  lemma ClearedSlotIsBuiltAgain() returns (states: seq<State>, steps: seq<Step>)
    ensures IsRun(ALONE, states, steps) && |steps| == 9
    ensures Yields(ALONE, states[5], steps[5], AppSlot("a"), Instance(1, false)) && steps[6] == Clear(AppOwner)
    ensures Yields(ALONE, states[8], steps[8], AppSlot("a"), Instance(2, false))
  {
    states, steps := ClearedBeforeTheWaiter();
    states, steps := Continue(ALONE, states, steps, Acquire(1));
    states, steps := Continue(ALONE, states, steps, Construct(1, Instance(2, false)));
  }

  lemma OccursOnce<T>(xs: seq<T>, x: T)
    requires x in xs && forall i, j :: 0 <= i < j < |xs| ==> xs[i] != xs[j]
    ensures multiset(xs)[x] == 1
  {
    var k :| 0 <= k < |xs| && xs[k] == x;
    assert xs == xs[..k] + [x] + xs[k + 1..];
    assert x !in xs[..k] && x !in xs[k + 1..];
  }

  // A failed resolution caches nothing and frees every slot it was building, so a task queued on
  // one of them can take the lock and build the instance itself.
  lemma {:induction false} FailureLeavesTheSlotToTheNextWaiter(g: Graph, plan: seq<Contract>, s: State, t: TaskId,
      u: TaskId, slot: Slot)
    requires Validated(g, plan) && Inv(g, s) && Enabled(g, s, Raise(t))
    requires slot in s.locks && s.locks[slot] == t
    requires u != t && Ready(g, s, u) && Top(s.tasks[u]).phase.Waiting? && TopSlot(g, s, u) == Some(slot)
    ensures var failed := Apply(g, s, Raise(t));
            && failed.cache == s.cache && failed.history == s.history && failed.owned == s.owned
            && (forall other :: other in failed.locks <==> other in s.locks && s.locks[other] != t)
            && Enabled(g, failed, Acquire(u))
            && var retried := Apply(g, failed, Acquire(u));
               && Ready(g, retried, u) && Top(retried.tasks[u]).phase == Building([])
               && slot in retried.locks && retried.locks[slot] == u && slot !in retried.cache
  {
    assert LockOk(g, s, slot);
    var i :| HoldsAt(g, s.tasks[t], i, slot);
    assert TaskOk(g, s, t);
    assert FrameOk(g, s, t, s.tasks[t].request, s.tasks[t].frames[i]);
  }

  // --- No deadlock ---

  ghost predicate IsWaiting(g: Graph, s: State, t: TaskId) {
    Ready(g, s, t) && Top(s.tasks[t]).phase.Waiting?
  }

  // A waiting task asks for a contract strictly below every contract whose slot it holds, so in
  // particular never for a lock it already has.
  lemma WaitsBelowWhatItHolds(g: Graph, plan: seq<Contract>, s: State, t: TaskId, held: Slot)
    requires Validated(g, plan) && Inv(g, s) && IsWaiting(g, s, t)
    requires held in s.locks && s.locks[held] == t
    ensures held.contract in g && Rank(g, plan, Top(s.tasks[t]).contract) < Rank(g, plan, held.contract)
    ensures TopSlot(g, s, t).Some? && TopSlot(g, s, t).value != held
  {
    assert LockOk(g, s, held) && TaskOk(g, s, t);
    var i :| HoldsAt(g, s.tasks[t], i, held);
    var frames := s.tasks[t].frames;
    forall k | 0 <= k < |frames| ensures frames[k].contract in g && FrameOk(g, s, t, s.tasks[t].request, frames[k]) {
    }
    assert i < |frames| - 1;
    StackDescends(g, plan, frames, i, |frames| - 1);
  }

  predicate Progress(step: Step) {
    !step.Begin? && !step.Raise? && !step.Clear?
  }

  lemma RunnerSteps(g: Graph, s: State, t: TaskId) returns (step: Step)
    requires Inv(g, s) && t in s.tasks && s.tasks[t].Running?
    requires IsWaiting(g, s, t) ==> TopSlot(g, s, t).Some? && TopSlot(g, s, t).value !in s.locks
    ensures Progress(step) && step.task == t && Enabled(g, s, step)
  {
    assert TaskOk(g, s, t);
    assert FrameOk(g, s, t, s.tasks[t].request, Top(s.tasks[t]));
    match Top(s.tasks[t]).phase
    case Checking => step := if TopSlot(g, s, t).value in s.cache then Hit(t) else Miss(t);
    case Waiting => step := Acquire(t);
    case Building(_) =>
      if CallsNext(g, s, t) {
        step := if Refused(g, s.tasks[t].request, NextCall(g, s, t)) then Refuse(t) else Descend(t);
      } else {
        step := Construct(t, Instance(0, false));
      }
  }

  // Follow a blocked task to the holder of its lock: the contract waited for drops each time.
  lemma {:induction false} Unblock(g: Graph, plan: seq<Contract>, s: State, t: TaskId) returns (step: Step)
    requires Validated(g, plan) && Inv(g, s) && t in s.tasks && s.tasks[t].Running?
    ensures Progress(step) && Enabled(g, s, step)
    decreases if IsWaiting(g, s, t) then Rank(g, plan, Top(s.tasks[t]).contract) + 1 else 0
  {
    assert TaskOk(g, s, t);
    assert FrameOk(g, s, t, s.tasks[t].request, Top(s.tasks[t]));
    if IsWaiting(g, s, t) && TopSlot(g, s, t).value in s.locks {
      var slot := TopSlot(g, s, t).value;
      var holder := s.locks[slot];
      assert LockOk(g, s, slot);
      if IsWaiting(g, s, holder) {
        WaitsBelowWhatItHolds(g, plan, s, holder, slot);
      }
      step := Unblock(g, plan, s, holder);
    } else {
      step := RunnerSteps(g, s, t);
    }
  }

  // In every reachable state with a resolution under way, some task can go on without any new call
  // and without any failure.
  lemma NoDeadlock(g: Graph, plan: seq<Contract>, states: seq<State>, steps: seq<Step>, i: nat, t: TaskId)
    requires Validated(g, plan) && IsRun(g, states, steps) && i < |states|
    requires t in states[i].tasks && states[i].tasks[t].Running?
    ensures exists step :: Progress(step) && Enabled(g, states[i], step)
  {
    EveryStateIsGood(g, plan, states, steps, i);
    var step := Unblock(g, plan, states[i], t);
  }

  // In every reachable state, each ownership list holds dependencies before their dependents, as long
  // as nothing that its instances rest on has been cleared.
  lemma DependenciesAreOwnedFirst(g: Graph, plan: seq<Contract>, states: seq<State>, steps: seq<Step>, i: nat,
      owner: Owner, p: nat, q: nat, path: seq<Contract>)
    requires Validated(g, plan) && IsRun(g, states, steps) && i < |states|
    requires Clean(states[i].cleared, owner)
    requires p < |Owned(states[i], owner)| && q < |Owned(states[i], owner)|
    requires |path| >= 2 && IsChain(g, path)
    requires path[0] == Owned(states[i], owner)[p].slot.contract &&
      path[|path| - 1] == Owned(states[i], owner)[q].slot.contract
    ensures q < p
  {
    EveryStateIsGood(g, plan, states, steps, i);
    var s := states[i];
    assert Owned(s, owner) == Tracked(g, CleanPart(s), s.history, owner);
    OwnershipOrder(g, CleanPart(s), s.history, owner, p, q, path);
  }
}
