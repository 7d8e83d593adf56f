// What resolving a contract means: which instance it yields from the caches as they stand, or which
// error, and how the caches grow on the way.
module Construction {
  import opened Providers
  import opened Ownership

  datatype State = New | Validated | Starting | Ready | Stopping | Stopped | Failed

  datatype Error =
    | MissingProvider(path: seq<Contract>)
    | NoRequestContext(path: seq<Contract>)
    | ConstructionFailed(path: seq<Contract>)
    | InvalidInstance(path: seq<Contract>)
    | ManagedTransient(path: seq<Contract>)
    | WrongState(state: State)
    | PluginFailed
    | Shutdown(failures: seq<Entry>)

  datatype Outcome<+T> = Ok(value: T) | Err(error: Error)

  // What a factory call did.
  datatype Built = Made(instance: Instance, valid: bool) | FactoryRaised

  // A validated registry and the factories behind it; `plan` is a dependency-safe order.
  datatype Setup = Setup(g: Graph, plan: seq<Contract>, factory: (Contract, seq<Instance>) -> Built)

  ghost predicate Sound(s: Setup) {
    IsPlan(s.g, s.plan) && WellFormed(s.g)
  }

  ghost function Height(s: Setup, c: Contract): nat
    requires Sound(s)
  {
    if c in s.g then Rank(s.g, s.plan, c) + 1 else 0
  }

  // What one factory call on these arguments comes to.
  function Product(s: Setup, c: Contract, arguments: seq<Instance>, here: seq<Contract>): Outcome<Instance>
    requires c in s.g
  {
    match s.factory(c, arguments)
    case FactoryRaised => Err(ConstructionFailed(here))
    case Made(instance, valid) =>
      if !valid then Err(InvalidInstance(here))
      else if s.g[c].scope.Transient? && NeedsCleanup(s.g, c, instance) then Err(ManagedTransient(here))
      else Ok(instance)
  }

  // What resolving `c` yields: a registered contract's cached instance, or its factory's product on
  // what its dependencies yield in their order. The first error there is, is the error.
  ghost function Wanted(s: Setup, cache: Cache, request: Option<RequestId>, c: Contract,
      path: seq<Contract>): Outcome<Instance>
    requires Sound(s)
    decreases Height(s, c), 3, 0
  {
    if c !in s.g then Err(MissingProvider(path + [c]))
    else if s.g[c].scope.Request? && request.None? then Err(NoRequestContext(path + [c]))
    else if SlotOf(s.g, request, c).Some? &&
      SlotOf(s.g, request, c).value in cache then Ok(cache[SlotOf(s.g, request, c).value])
    else Constructed(s, cache, request, c, path + [c])
  }

  ghost function Constructed(s: Setup, cache: Cache, request: Option<RequestId>, c: Contract,
      here: seq<Contract>): Outcome<Instance>
    requires Sound(s) && c in s.g
    decreases Height(s, c), 2, 0
  {
    var arguments := WantedAll(s, cache, request, c, |s.g[c].dependencies|, here);
    if arguments.Err? then Err(arguments.error) else Product(s, c, arguments.value, here)
  }

  // What the first `k` dependencies yield.
  ghost function WantedAll(s: Setup, cache: Cache, request: Option<RequestId>, c: Contract, k: nat,
      here: seq<Contract>): (r: Outcome<seq<Instance>>)
    requires Sound(s) && c in s.g && k <= |s.g[c].dependencies|
    ensures r.Ok? ==> |r.value| == k
    decreases Height(s, c), 1, k
  {
    if k == 0 then Ok([]) else
      var d := s.g[c].dependencies[k - 1];
      DependenciesAreLower(s, c, d);
      var before := WantedAll(s, cache, request, c, k - 1, here);
      if before.Err? then before else
        var last := Wanted(s, cache, request, d, here);
        if last.Err? then Err(last.error) else Ok(before.value + [last.value])
  }

  lemma DependenciesAreLower(s: Setup, c: Contract, d: Contract)
    requires Sound(s) && c in s.g && d in s.g[c].dependencies
    ensures d in s.g && Height(s, d) < Height(s, c)
  {
    assert Edge(s.g, c, d);
    EdgeLowersRank(s.g, s.plan, c, d);
  }

  // An error among the first dependencies is the error of all.
  lemma {:induction false} FirstErrorStays(s: Setup, cache: Cache, request: Option<RequestId>, c: Contract, j: nat,
      k: nat, here: seq<Contract>)
    requires Sound(s) && c in s.g && j <= k <= |s.g[c].dependencies| && WantedAll(s, cache, request, c, j, here).Err?
    ensures WantedAll(s, cache, request, c, k, here) == WantedAll(s, cache, request, c, j, here)
    decreases k
  {
    if j < k {
      FirstErrorStays(s, cache, request, c, j, k - 1, here);
    }
  }

  // Where a contract yields an instance, the path it is asked for along has no part in it.
  lemma {:induction false} PathsDoNotMatter(s: Setup, cache: Cache, request: Option<RequestId>, c: Contract,
      p: seq<Contract>, q: seq<Contract>)
    requires Sound(s) && Wanted(s, cache, request, c, p).Ok?
    ensures Wanted(s, cache, request, c, q) == Wanted(s, cache, request, c, p)
    decreases Height(s, c), 1, 0
  {
    var slot := SlotOf(s.g, request, c);
    if slot.None? || slot.value !in cache {
      PathsDoNotMatterAbove(s, cache, request, c, |s.g[c].dependencies|, p + [c], q + [c]);
    }
  }

  lemma {:induction false} PathsDoNotMatterAbove(s: Setup, cache: Cache, request: Option<RequestId>, c: Contract,
      k: nat, p: seq<Contract>, q: seq<Contract>)
    requires Sound(s) && c in s.g && k <= |s.g[c].dependencies| && WantedAll(s, cache, request, c, k, p).Ok?
    ensures WantedAll(s, cache, request, c, k, q) == WantedAll(s, cache, request, c, k, p)
    decreases Height(s, c), 0, k
  {
    if k > 0 {
      var d := s.g[c].dependencies[k - 1];
      DependenciesAreLower(s, c, d);
      PathsDoNotMatterAbove(s, cache, request, c, k - 1, p, q);
      PathsDoNotMatter(s, cache, request, d, p, q);
    }
  }

  // Resolving never reports a shutdown's failures.
  lemma {:induction false} ErrorsOfResolving(s: Setup, cache: Cache, request: Option<RequestId>, c: Contract,
      path: seq<Contract>)
    requires Sound(s) && Wanted(s, cache, request, c, path).Err?
    ensures !Wanted(s, cache, request, c, path).error.Shutdown?
    decreases Height(s, c), 1, 0
  {
    if c in s.g && !(s.g[c].scope.Request? && request.None?) {
      ErrorsOfArguments(s, cache, request, c, |s.g[c].dependencies|, path + [c]);
    }
  }

  lemma {:induction false} ErrorsOfArguments(s: Setup, cache: Cache, request: Option<RequestId>, c: Contract, k: nat,
      here: seq<Contract>)
    requires Sound(s) && c in s.g && k <= |s.g[c].dependencies|
    ensures var r := WantedAll(s, cache, request, c, k, here); r.Err? ==> !r.error.Shutdown?
    decreases Height(s, c), 0, k
  {
    if k > 0 {
      var d := s.g[c].dependencies[k - 1];
      DependenciesAreLower(s, c, d);
      ErrorsOfArguments(s, cache, request, c, k - 1, here);
      if Wanted(s, cache, request, d, here).Err? {
        ErrorsOfResolving(s, cache, request, d, here);
      }
    }
  }

  lemma ConstructedAnywhere(s: Setup, cache: Cache, request: Option<RequestId>, c: Contract, p: seq<Contract>,
      q: seq<Contract>)
    requires Sound(s) && c in s.g && Constructed(s, cache, request, c, p).Ok?
    ensures Constructed(s, cache, request, c, q) == Constructed(s, cache, request, c, p)
  {
    PathsDoNotMatterAbove(s, cache, request, c, |s.g[c].dependencies|, p, q);
  }

  // --- The log of factory calls ---

  datatype Call = Call(contract: Contract, request: Option<RequestId>, arguments: seq<Instance>)

  // The call was for this slot and made an instance of the contract's type.
  predicate Succeeds(s: Setup, call: Call, slot: Slot) {
    && call.contract in s.g && SlotOf(s.g, call.request, call.contract) == Some(slot)
    && s.factory(call.contract, call.arguments).Made? && s.factory(call.contract, call.arguments).valid
  }

  // The call made this very instance, of the contract's type, and not a resource that a transient
  // provider hands to nobody who would close it.
  predicate Handed(s: Setup, call: Call, c: Contract, instance: Instance) {
    && call.contract == c && c in s.g && s.factory(c, call.arguments) == Made(instance, true)
    && (s.g[c].scope.Transient? ==> !s.g[c].closeHook && !instance.closable)
  }

  // A call in the log made the instance for the contract.
  ghost predicate WasMade(s: Setup, calls: seq<Call>, c: Contract, instance: Instance) {
    exists k :: 0 <= k < |calls| && Handed(s, calls[k], c, instance)
  }

  ghost predicate WasMadeFor(s: Setup, calls: seq<Call>, slot: Slot, instance: Instance) {
    slot.contract in s.g && exists k :: 0 <= k < |calls| && MadeBy(s, calls[k], slot, instance)
  }

  predicate MadeBy(s: Setup, call: Call, slot: Slot, instance: Instance)
    requires slot.contract in s.g
  {
    Handed(s, call, slot.contract, instance) && SlotOf(s.g, call.request, slot.contract) == Some(slot)
  }

  // Every cached instance was made, valid, by a call for its slot.
  ghost predicate AllMade(s: Setup, cache: Cache, calls: seq<Call>) {
    forall slot :: slot in cache ==> WasMadeFor(s, calls, slot, cache[slot])
  }

  lemma StillMade(s: Setup, cache: Cache, calls: seq<Call>, call: Call)
    requires AllMade(s, cache, calls)
    ensures AllMade(s, cache, calls + [call])
  {
    hide MadeBy;
    forall slot | slot in cache ensures WasMadeFor(s, calls + [call], slot, cache[slot]) {
      assert WasMadeFor(s, calls, slot, cache[slot]);
      var k :| 0 <= k < |calls| && MadeBy(s, calls[k], slot, cache[slot]);
      assert (calls + [call])[k] == calls[k];
    }
  }

  lemma CachedWasMade(s: Setup, cache: Cache, calls: seq<Call>, slot: Slot)
    requires AllMade(s, cache, calls) && slot in cache
    ensures WasMade(s, calls, slot.contract, cache[slot])
  {
    assert WasMadeFor(s, calls, slot, cache[slot]);
    var k :| 0 <= k < |calls| && MadeBy(s, calls[k], slot, cache[slot]);
    hide Handed;
  }

  lemma LastWasMade(s: Setup, calls: seq<Call>, request: Option<RequestId>, c: Contract, instance: Instance)
    requires calls != [] && Handed(s, calls[|calls| - 1], c, instance) && calls[|calls| - 1].request == request
    ensures WasMade(s, calls, c, instance) && c in s.g
    ensures SlotOf(s.g, request, c).Some? ==> WasMadeFor(s, calls, SlotOf(s.g, request, c).value, instance)
  {
    var k := |calls| - 1;
    assert Handed(s, calls[k], c, instance);
    if SlotOf(s.g, request, c).Some? {
      assert MadeBy(s, calls[k], SlotOf(s.g, request, c).value, instance);
    }
  }

  // What a call may hand out, by what its factory made; `here` only names the error.
  lemma ProductIsHanded(s: Setup, call: Call, here: seq<Contract>)
    requires call.contract in s.g
    ensures var r := Product(s, call.contract, call.arguments, here);
      && (r.Ok? ==> Handed(s, call, call.contract, r.value) && Refused(s, call) == [])
      && (r.Err? ==> (forall slot :: !Succeeds(s, call, slot)) && forall any :: !Handed(s, call, call.contract, any))
  {
  }

  // How often an instance was made for a slot.
  function Successes(s: Setup, calls: seq<Call>, slot: Slot): nat {
    if calls == [] then 0 else
      var n := |calls| - 1;
      Successes(s, calls[..n], slot) + if Succeeds(s, calls[n], slot) then 1 else 0
  }

  lemma OneMoreCall(s: Setup, calls: seq<Call>, call: Call, slot: Slot)
    ensures Successes(s, calls + [call], slot) == Successes(s, calls, slot) + if Succeeds(s, call, slot) then 1 else 0
  {
    assert (calls + [call])[..|calls|] == calls;
  }

  // What factories made that could not be handed out.
  function RefusedBy(s: Setup, calls: seq<Call>): seq<(Contract, Instance)> {
    if calls == [] then [] else
      var n := |calls| - 1;
      RefusedBy(s, calls[..n]) + Refused(s, calls[n])
  }

  function Refused(s: Setup, call: Call): seq<(Contract, Instance)> {
    match s.factory(call.contract, call.arguments)
    case FactoryRaised => []
    case Made(instance, _) =>
      if call.contract !in s.g || Handed(s, call, call.contract, instance) then [] else [(call.contract, instance)]
  }

  lemma RefusedByOneMore(s: Setup, calls: seq<Call>, call: Call)
    ensures RefusedBy(s, calls + [call]) == RefusedBy(s, calls) + Refused(s, call)
  {
    assert (calls + [call])[..|calls|] == calls;
  }

  // --- How the caches grow ---

  // Everything one resolution can see, and what factories were called for it.
  datatype Caches = Caches(all: Cache, order: seq<Slot>, contextOrder: seq<Slot>, calls: seq<Call>)

  // A cache that has only gained slots, all of them for contracts ranked below the bound.
  ghost predicate Extends(s: Setup, before: Cache, after: Cache, bound: int)
    requires Sound(s)
  {
    && (forall slot :: slot in before ==> slot in after && after[slot] == before[slot])
    && (forall slot :: slot in after && slot !in before ==>
      slot.contract in s.g && Rank(s.g, s.plan, slot.contract) < bound)
  }

  // What was added is what resolving would have yielded in the first place.
  ghost predicate AddedAsWanted(s: Setup, request: Option<RequestId>, before: Cache, after: Cache)
    requires Sound(s)
  {
    forall slot :: slot in after && slot !in before ==> AsWanted(s, request, before, slot, after[slot])
  }

  ghost predicate AsWanted(s: Setup, request: Option<RequestId>, before: Cache, slot: Slot, instance: Instance)
    requires Sound(s)
  {
    && slot.contract in s.g && SlotOf(s.g, request, slot.contract) == Some(slot)
    && forall path :: Wanted(s, before, request, slot.contract, path) == Ok(instance)
  }

  // For every slot, as many instances were made as were added to the caches: one or none.
  ghost predicate MadeOnce(s: Setup, before: Caches, after: Caches) {
    forall slot :: Successes(s, after.calls, slot) == Successes(s, before.calls, slot) + if slot in after.all &&
      slot !in before.all then 1 else 0
  }

  ghost predicate Grows(s: Setup, request: Option<RequestId>, before: Caches, after: Caches, bound: int)
    requires Sound(s)
  {
    && before.order <= after.order && before.contextOrder <= after.contextOrder && before.calls <= after.calls
    && Extends(s, before.all, after.all, bound)
    && AddedAsWanted(s, request, before.all, after.all)
    && MadeOnce(s, before, after)
  }

  // What a contract yields does not depend on how much of it has been cached already.
  lemma {:induction false} WantedStays(s: Setup, request: Option<RequestId>, before: Cache, after: Cache, bound: int,
      c: Contract, path: seq<Contract>)
    requires Sound(s) && Extends(s, before, after, bound) && AddedAsWanted(s, request, before, after)
    ensures Wanted(s, after, request, c, path) == Wanted(s, before, request, c, path)
    decreases Height(s, c), 1, 0
  {
    if c in s.g && !(s.g[c].scope.Request? && request.None?) {
      var slot := SlotOf(s.g, request, c);
      if slot.Some? && slot.value in after {
        assert slot.value !in before ==> AsWanted(s, request, before, slot.value, after[slot.value]);
      } else {
        WantedAllStays(s, request, before, after, bound, c, |s.g[c].dependencies|, path + [c]);
      }
    }
  }

  lemma {:induction false} WantedAllStays(s: Setup, request: Option<RequestId>, before: Cache, after: Cache, bound: int,
      c: Contract, k: nat, here: seq<Contract>)
    requires Sound(s) && Extends(s, before, after, bound) && AddedAsWanted(s, request, before, after)
    requires c in s.g && k <= |s.g[c].dependencies|
    ensures WantedAll(s, after, request, c, k, here) == WantedAll(s, before, request, c, k, here)
    decreases Height(s, c), 0, k
  {
    if k > 0 {
      var d := s.g[c].dependencies[k - 1];
      DependenciesAreLower(s, c, d);
      WantedAllStays(s, request, before, after, bound, c, k - 1, here);
      WantedStays(s, request, before, after, bound, d, here);
    }
  }

  lemma GrowsItself(s: Setup, request: Option<RequestId>, caches: Caches, bound: int)
    requires Sound(s)
    ensures Grows(s, request, caches, caches, bound)
  {
  }

  lemma GrowsTwice(s: Setup, request: Option<RequestId>, a: Caches, b: Caches, c: Caches, bound: int)
    requires Sound(s) && Grows(s, request, a, b, bound) && Grows(s, request, b, c, bound)
    ensures Grows(s, request, a, c, bound)
  {
    hide Successes, Wanted;
    assert MadeOnce(s, a, c);
    forall slot | slot in c.all && slot !in a.all ensures AsWanted(s, request, a.all, slot, c.all[slot]) {
      if slot in b.all {
        assert AsWanted(s, request, a.all, slot, b.all[slot]);
      } else {
        assert AsWanted(s, request, b.all, slot, c.all[slot]);
        forall path ensures Wanted(s, a.all, request, slot.contract, path) == Ok(c.all[slot]) {
          WantedStays(s, request, a.all, b.all, bound, slot.contract, path);
        }
      }
    }
  }

  lemma GrowsWeaker(s: Setup, request: Option<RequestId>, before: Caches, after: Caches, bound: int, weaker: int)
    requires Sound(s) && Grows(s, request, before, after, bound) && bound <= weaker
    ensures Grows(s, request, before, after, weaker)
  {
    hide Successes, Wanted, AsWanted;
  }

  // What was missing and ranks too high to have been added is still missing.
  lemma StillMissing(s: Setup, request: Option<RequestId>, before: Caches, after: Caches, slot: Slot)
    requires Sound(s) && slot.contract in s.g && slot !in before.all
    requires Grows(s, request, before, after, Rank(s.g, s.plan, slot.contract))
    ensures slot !in after.all
  {
  }

  // A finished construction and its caching: one successful call more, one slot more.
  lemma GrowsByOne(s: Setup, request: Option<RequestId>, before: Caches, middle: Caches, after: Caches, slot: Slot,
      instance: Instance, call: Call, here: seq<Contract>)
    requires Sound(s) && slot.contract in s.g && slot !in before.all &&
      SlotOf(s.g, request, slot.contract) == Some(slot)
    requires Grows(s, request, before, middle, Rank(s.g, s.plan, slot.contract))
    requires Constructed(s, before.all, request, slot.contract, here) == Ok(instance)
    requires call.contract == slot.contract && call.request == request && Succeeds(s, call, slot)
    requires middle.order <= after.order && middle.contextOrder <= after.contextOrder
    requires after.all == middle.all[slot := instance] && after.calls == middle.calls + [call]
    ensures Grows(s, request, before, after, Height(s, slot.contract))
  {
    StillMissing(s, request, before, middle, slot);
    forall other ensures Successes(s, after.calls, other) ==
      Successes(s, before.calls, other) + if other in after.all && other !in before.all then 1 else 0 {
      OneMoreCall(s, middle.calls, call, other);
    }
    forall other ensures Wanted(s, before.all, request, slot.contract, other) == Ok(instance) {
      ConstructedAnywhere(s, before.all, request, slot.contract, here, other + [slot.contract]);
    }
    hide Successes, Wanted, Constructed, Succeeds;
    forall other | other in after.all &&
      other !in before.all ensures AsWanted(s, request, before.all, other, after.all[other]) {
      assert other != slot ==> AsWanted(s, request, before.all, other, middle.all[other]);
    }
  }

  // A call that made nothing for any slot.
  lemma GrowsByNone(s: Setup, request: Option<RequestId>, before: Caches, middle: Caches, call: Call, bound: int)
    requires Sound(s) && Grows(s, request, before, middle, bound) && forall slot :: !Succeeds(s, call, slot)
    ensures Grows(s, request, before, middle.(calls := middle.calls + [call]), bound)
  {
    forall other ensures Successes(s, middle.calls + [call], other) == Successes(s, middle.calls, other) {
      OneMoreCall(s, middle.calls, call, other);
    }
    hide Successes, Wanted, Succeeds, AsWanted;
  }

  // Over a whole lifetime of the caches, from empty ones, no slot is ever built twice.
  lemma BuiltAtMostOnce(s: Setup, request: Option<RequestId>, before: Caches, after: Caches, bound: int, slot: Slot)
    requires Sound(s) && before.all == map[] && before.calls == [] && Grows(s, request, before, after, bound)
    ensures Successes(s, after.calls, slot) == if slot in after.all then 1 else 0
  {
  }
}
