// The application object itself: resolution by recursion, ownership lists, and closing by popping.
// Awaits are not interleaved here; the Resolution and Lifecycle modules model those.
module Application {
  import opened Providers
  import opened Ownership
  import opened Construction

  function Reverse<T>(xs: seq<T>): (r: seq<T>)
    ensures |r| == |xs| && forall i :: 0 <= i < |xs| ==> r[i] == xs[|xs| - 1 - i]
  {
    if xs == [] then [] else [xs[|xs| - 1]] + Reverse(xs[..|xs| - 1])
  }

  function Failing(raises: Entry -> bool, entries: seq<Entry>): (r: seq<Entry>)
    ensures forall e :: e in r <==> e in entries && raises(e)
  {
    if entries == [] then [] else
      Failing(raises, entries[..|entries| - 1]) + if raises(entries[|entries| - 1]) then [entries[|entries| - 1]]
        else []
  }

  predicate IsLast<T(==)>(xs: seq<T>, x: T) {
    xs != [] && xs[|xs| - 1] == x
  }

  ghost predicate Needs(g: Graph, path: seq<Contract>, dependent: Entry, dependency: Entry) {
    && |path| >= 2 && IsChain(g, path)
    && path[0] == dependent.slot.contract && path[|path| - 1] == dependency.slot.contract
  }

  // Nothing in the list depends, through any providers, on an entry standing after it.
  ghost predicate NeededFirst(g: Graph, entries: seq<Entry>) {
    forall p, q, path | 0 <= p < |entries| && 0 <= q < |entries| && Needs(g, path, entries[p], entries[q]) :: q < p
  }

  lemma TrackedNeededFirst(g: Graph, cache: Cache, history: seq<Slot>, owner: Owner)
    requires HistoryOk(g, cache, history)
    requires forall slot :: slot in history ==> slot in cache && slot.contract in g
    ensures NeededFirst(g, Tracked(g, cache, history, owner))
  {
    var entries := Tracked(g, cache, history, owner);
    forall p, q, path | 0 <= p < |entries| && 0 <= q < |entries| && Needs(g, path, entries[p], entries[q])
      ensures q < p
    {
      OwnershipOrder(g, cache, history, owner, p, q, path);
    }
  }

  // A slot supported by the first part of a history may be filled between its two parts.
  lemma HistoryInsert(g: Graph, cache: Cache, first: seq<Slot>, second: seq<Slot>, slot: Slot, instance: Instance)
    requires HistoryOk(g, cache, first + second) && slot !in cache && Supported(g, first, slot)
    ensures HistoryOk(g, cache[slot := instance], first + [slot] + second)
  {
    var before, after := first + second, first + [slot] + second;
    assert forall s :: s in after <==> s in before || s == slot;
    forall i, j | 0 <= i < j < |after| ensures after[i] != after[j] {
      var i', j' := if i <= |first| then i else i - 1, if j <= |first| then j else j - 1;
      assert i != |first| ==> after[i] == before[i'];
      assert j != |first| ==> after[j] == before[j'];
    }
    forall k | 0 <= k < |after| ensures Supported(g, after[..k], after[k]) {
      if k < |first| {
        assert Supported(g, before[..k], before[k]) && after[..k] == before[..k];
      } else if k == |first| {
        assert after[..k] == first;
      } else {
        assert Supported(g, before[..k - 1], before[k - 1]);
        assert before[..k - 1] == first + second[..k - 1 - |first|];
        assert after[..k] == first + [slot] + second[..k - 1 - |first|];
      }
    }
    assert forall s :: s in cache[slot := instance] <==> s in after;
  }

  // The application's cache was filled dependencies first, and its list is what needs cleanup.
  ghost predicate AppOk(g: Graph, instances: Cache, order: seq<Slot>, entries: seq<Entry>) {
    && HistoryOk(g, instances, order)
    && (forall slot :: slot in order ==> slot.AppSlot? && slot.contract in g)
    && entries == Tracked(g, instances, order, AppOwner)
  }

  // The same for one request context, whose providers may also need the application's.
  ghost predicate ContextOk(g: Graph, app: Cache, appOrder: seq<Slot>, id: RequestId, instances: Cache,
      order: seq<Slot>, entries: seq<Entry>) {
    && HistoryOk(g, app + instances, appOrder + order)
    && (forall slot :: slot in instances <==> slot in order)
    && (forall slot :: slot in order ==> slot.RequestSlot? && slot.request == id && slot.contract in g)
    && entries == Tracked(g, instances, order, RequestOwner(id))
  }

  lemma AppFill(g: Graph, instances: Cache, order: seq<Slot>, entries: seq<Entry>, slot: Slot, instance: Instance)
    requires AppOk(g, instances, order, entries) && slot !in instances && slot.AppSlot? && Supported(g, order, slot)
    ensures AppOk(g, instances[slot := instance], order + [slot], entries + Added(g, slot, instance))
  {
    HistoryRegistered(g, instances, order);
    HistoryExtend(g, instances, order, slot, instance);
    TrackedExtend(g, instances, order, slot, instance, AppOwner);
  }

  lemma AppFillKeepsContext(g: Graph, app: Cache, appOrder: seq<Slot>, id: RequestId, instances: Cache,
      order: seq<Slot>, entries: seq<Entry>, slot: Slot, instance: Instance)
    requires ContextOk(g, app, appOrder, id, instances, order, entries)
    requires slot !in app && slot.AppSlot? && Supported(g, appOrder, slot)
    ensures ContextOk(g, app[slot := instance], appOrder + [slot], id, instances, order, entries)
  {
    assert slot !in instances;
    HistoryInsert(g, app + instances, appOrder, order, slot, instance);
    assert app[slot := instance] + instances == (app + instances)[slot := instance];
  }

  lemma UpdateSum(app: Cache, instances: Cache, slot: Slot, instance: Instance)
    ensures app + instances[slot := instance] == (app + instances)[slot := instance]
  {
  }

  lemma UpdateLeft(app: Cache, instances: Cache, slot: Slot, instance: Instance)
    requires slot !in instances
    ensures app[slot := instance] + instances == (app + instances)[slot := instance]
  {
  }

  lemma ContextFill(g: Graph, app: Cache, appOrder: seq<Slot>, id: RequestId, instances: Cache, order: seq<Slot>,
      entries: seq<Entry>, slot: Slot, instance: Instance)
    requires ContextOk(g, app, appOrder, id, instances, order, entries) && (forall s :: s in app ==> s.AppSlot?)
    requires slot !in instances && slot.RequestSlot? && slot.request == id && Supported(g, appOrder + order, slot)
    ensures ContextOk(g, app, appOrder, id, instances[slot := instance], order + [slot],
      entries + Added(g, slot, instance))
  {
    assert HistoryOk(g, app + instances[slot := instance], appOrder + (order + [slot])) by {
      UpdateSum(app, instances, slot, instance);
      assert slot !in app + instances;
      HistoryExtend(g, app + instances, appOrder + order, slot, instance);
      assert appOrder + (order + [slot]) == appOrder + order + [slot];
    }
    assert Tracked(g, instances[slot := instance], order + [slot], RequestOwner(id)) ==
      entries + Added(g, slot, instance) by {
      TrackedExtend(g, instances, order, slot, instance, RequestOwner(id));
    }
    hide HistoryOk, Tracked, Supported;
  }

  lemma AppOnly(g: Graph, app: Cache, appOrder: seq<Slot>, id: RequestId, entries: seq<Entry>)
    requires AppOk(g, app, appOrder, entries)
    ensures ContextOk(g, app, appOrder, id, map[], [], [])
  {
    assert app + map[] == app && appOrder + [] == appOrder;
  }

  lemma NothingCached(g: Graph)
    ensures AppOk(g, map[], [], [])
  {
  }

  lemma AppNeededFirst(g: Graph, instances: Cache, order: seq<Slot>, entries: seq<Entry>)
    requires AppOk(g, instances, order, entries)
    ensures NeededFirst(g, entries)
  {
    HistoryRegistered(g, instances, order);
    TrackedNeededFirst(g, instances, order, AppOwner);
  }

  lemma ContextNeededFirst(g: Graph, app: Cache, appOrder: seq<Slot>, id: RequestId, instances: Cache, order: seq<Slot>,
      entries: seq<Entry>)
    requires ContextOk(g, app, appOrder, id, instances, order, entries)
    requires forall slot :: slot in appOrder ==> slot.AppSlot?
    ensures NeededFirst(g, entries)
  {
    HistoryRegistered(g, app + instances, appOrder + order);
    TrackedOfSecondPart(g, app + instances, appOrder, order, RequestOwner(id));
    TrackedAgrees(g, instances, app + instances, order, RequestOwner(id));
    TrackedNeededFirst(g, app + instances, appOrder + order, RequestOwner(id));
  }

  // A mutable list of (provider, instance) pairs.
  class OwnedList {
    var entries: seq<Entry>

    constructor ()
      ensures entries == []
    {
      entries := [];
    }
  }

  class RequestContext {
    const id: RequestId
    const owned: OwnedList
    var instances: Cache
    var closed: bool
    ghost var order: seq<Slot>

    constructor (id: RequestId)
      ensures this.id == id && fresh(owned) && owned.entries == [] && instances == map[] && !closed && order == []
    {
      this.id := id;
      owned := new OwnedList();
      instances, closed, order := map[], false, [];
    }
  }

  class App {
    const registry: Graph
    const plan: seq<Contract>
    const factory: (Contract, seq<Instance>) -> Built
    const closeRaises: Entry -> bool
    const owned: OwnedList
    var state: State
    var instances: Cache
    var closes: seq<Entry>
    var calls: seq<Call>
    var discarded: seq<(Contract, Instance)>
    ghost var order: seq<Slot>

    // `plan` is a dependency-safe order of a registry that validated.
    constructor (registry: Graph, plan: seq<Contract>, factory: (Contract, seq<Instance>) -> Built,
        closeRaises: Entry -> bool)
      requires IsPlan(registry, plan) && WellFormed(registry)
      ensures this.registry == registry && this.plan == plan && this.factory == factory &&
        this.closeRaises == closeRaises
      ensures fresh(owned) && ValidApp() && state == New && instances == map[] && closes == [] && calls == []
    {
      this.registry, this.plan, this.factory, this.closeRaises := registry, plan, factory, closeRaises;
      owned := new OwnedList();
      state, instances, closes, calls, discarded, order := New, map[], [], [], [], [];
    }

    ghost function Frame(request: RequestContext?): set<object> {
      {this, owned} + if request == null then {} else {request, request.owned}
    }

    ghost predicate ValidApp()
      reads this, owned
    {
      && Sound(Behind()) && AppOk(registry, instances, order, owned.entries) && AllMade(Behind(), instances, calls)
      && discarded == RefusedBy(Behind(), calls)
    }

    function Behind(): Setup {
      Setup(registry, plan, factory)
    }

    function IdOf(request: RequestContext?): Option<RequestId> {
      if request == null then None else Some(request.id)
    }

    // What a resolution for this request sees.
    ghost function Now(request: RequestContext?): Caches
      reads this, request
    {
      if request == null then Caches(instances, order, [], calls)
      else Caches(instances + request.instances, order, request.order, calls)
    }

    ghost predicate ValidContext(request: RequestContext?)
      reads Frame(request)
    {
      request != null ==>
        && request.owned != owned
        && ContextOk(registry, instances, order, request.id, request.instances, request.order, request.owned.entries)
        && AllMade(Behind(), request.instances, calls)
    }

    ghost predicate Valid(request: RequestContext?)
      reads Frame(request)
    {
      ValidApp() && ValidContext(request)
    }

    // Pops and closes until nothing is left; a close that raises does not stop the others.
    method CloseOwned(list: OwnedList) returns (failures: seq<Entry>)
      modifies list, this`closes
      ensures list.entries == []
      ensures closes == old(closes) + Reverse(old(list.entries))
      ensures failures == Failing(closeRaises, Reverse(old(list.entries)))
    {
      failures := [];
      ghost var all := list.entries;
      ghost var reversed := Reverse(all);
      while list.entries != []
        invariant |list.entries| <= |all| && list.entries == all[..|list.entries|]
        invariant closes == old(closes) + reversed[..|all| - |list.entries|]
        invariant failures == Failing(closeRaises, reversed[..|all| - |list.entries|])
        decreases |list.entries|
      {
        ghost var n := |all| - |list.entries|;
        var entry := list.entries[|list.entries| - 1];
        list.entries := list.entries[..|list.entries| - 1];
        assert reversed[..n + 1] == reversed[..n] + [entry];
        closes := closes + [entry];
        if closeRaises(entry) {
          failures := failures + [entry];
        }
      }
      assert reversed[..|all|] == reversed;
    }

    // A resolution leaves the lifecycle alone.
    twostate predicate Steady(request: RequestContext?)
      reads this, request
    {
      state == old(state) && closes == old(closes) && (request != null ==> request.closed == old(request.closed))
    }

    lemma Kinds(request: RequestContext?)
      requires Valid(request)
      ensures forall slot :: slot in instances ==> slot.AppSlot? && slot in order
      ensures request != null ==> forall slot :: slot in request.instances ==>
        slot.RequestSlot? && slot.request == request.id && slot in request.order
    {
    }

    // Resolving returns what the contract means: its cached instance, or what its factory makes of what
    // its dependencies mean. On the way each slot is built at most once; when it fails, the contract's
    // own slot is left empty.
    method Resolve(c: Contract, request: RequestContext?, path: seq<Contract>) returns (r: Outcome<Instance>)
      requires Valid(request)
      modifies Frame(request)
      ensures Valid(request) && Steady(request)
      ensures Grows(Behind(), IdOf(request), old(Now(request)), Now(request), Height(Behind(), c))
      ensures r == Wanted(Behind(), old(Now(request).all), IdOf(request), c, path)
      ensures r.Ok? ==> c in registry && Cached(c, request, r.value) && WasMade(Behind(), calls, c, r.value)
      ensures r.Err? && c in registry ==> Uncached(c, request)
      decreases Height(Behind(), c), 4
    {
      hide AppOk, ContextOk, Grows, Constructed, RefusedBy, Ended, Handed, AllMade, WasMade, WasMadeFor;
      GrowsItself(Behind(), IdOf(request), Now(request), Height(Behind(), c));
      Kinds(request);
      var here := path + [c];
      if c !in registry {
        return Err(MissingProvider(here));
      }
      var scope := registry[c].scope;
      if scope.App? {
        r := ResolveAppProvider(c, request, here);
      } else if scope.Request? {
        if request == null {
          return Err(NoRequestContext(here));
        }
        r := ResolveRequestProvider(c, request, here);
      } else {
        ghost var before := Now(request);
        r := CreateInstance(c, request, here);
        if r.Ok? {
          LastWasMade(Behind(), calls, IdOf(request), c, r.value);
          ghost var call := calls[|calls| - 1];
          ghost var middle := Now(request).(calls := calls[..|calls| - 1]);
          assert Now(request) == middle.(calls := middle.calls + [call]);
          GrowsByNone(Behind(), IdOf(request), before, middle, call, Rank(registry, plan, c));
        }
        GrowsWeaker(Behind(), IdOf(request), before, Now(request), Rank(registry, plan, c), Height(Behind(), c));
      }
    }

    // The value is the instance cached for the contract, if it is one that is cached.
    ghost predicate Cached(c: Contract, request: RequestContext?, value: Instance)
      reads this, request
    {
      Resolved(registry, Now(request).all, IdOf(request), c, value)
    }

    ghost predicate Uncached(c: Contract, request: RequestContext?)
      requires c in registry
      reads this, request
    {
      && (registry[c].scope.App? ==> AppSlot(c) !in instances)
      && (registry[c].scope.Request? && request != null ==> RequestSlot(request.id, c) !in request.instances)
    }

    // What a construction has done when its slot is still to be filled: everything below it is
    // resolved, and the last of the calls made the instance.
    ghost predicate Pending(c: Contract, request: RequestContext?, before: Caches)
      requires ValidApp()
      reads this, owned, request
    {
      && c in registry && calls != []
      && Grows(Behind(), IdOf(request), before, Now(request).(calls := calls[..|calls| - 1]), Rank(registry, plan, c))
      && var last := calls[|calls| - 1];
         last.contract == c && last.request == IdOf(request) && factory(c, last.arguments).Made? &&
           factory(c, last.arguments).valid
    }

    // How a call of the contract's factory ends: with the instance it made, or with an error, and then
    // what it made has been closed.
    ghost predicate Ended(c: Contract, arguments: seq<Instance>, here: seq<Contract>, r: Outcome<Instance>)
      requires c in registry
      reads this
    {
      match factory(c, arguments)
      case FactoryRaised => r == Err(ConstructionFailed(here))
      case Made(instance, valid) =>
        if !valid then r == Err(InvalidInstance(here)) && IsLast(discarded, (c, instance))
        else if registry[c].scope.Transient? && (registry[c].closeHook || instance.closable) then
          r == Err(ManagedTransient(here)) && IsLast(discarded, (c, instance))
        else r == Ok(instance)
    }

    method ResolveAppProvider(c: Contract, request: RequestContext?, here: seq<Contract>) returns (r: Outcome<Instance>)
      requires Valid(request) && c in registry && registry[c].scope.App?
      modifies Frame(request)
      ensures Valid(request) && Steady(request)
      ensures Grows(Behind(), IdOf(request), old(Now(request)), Now(request), Height(Behind(), c))
      ensures r == if AppSlot(c) in old(instances) then Ok(old(instances)[AppSlot(c)])
                   else Constructed(Behind(), old(Now(request).all), IdOf(request), c, here)
      ensures r.Ok? ==> Cached(c, request, r.value) && WasMade(Behind(), calls, c, r.value)
      ensures r.Err? ==> Uncached(c, request)
      decreases Height(Behind(), c), 3
    {
      hide AppOk, ContextOk, Supported, Grows, Constructed, RefusedBy, Product, Wanted, WantedAll, Ended, Handed,
        AllMade, WasMade, WasMadeFor;
      var slot := AppSlot(c);
      ghost var before := Now(request);
      Kinds(request);
      if slot in instances {
        GrowsItself(Behind(), IdOf(request), before, Height(Behind(), c));
        CachedWasMade(Behind(), instances, calls, slot);
        return Ok(instances[slot]);
      }
      r := CreateInstance(c, request, here);
      Kinds(request);
      if r.Ok? {
        ghost var call := calls[|calls| - 1];
        ghost var middle := Now(request).(calls := calls[..|calls| - 1]);
        StillMissing(Behind(), IdOf(request), before, middle, slot);
        LastWasMade(Behind(), calls, IdOf(request), c, r.value);
        CacheApp(slot, request, r.value);
        GrowsByOne(Behind(), IdOf(request), before, middle, Now(request), slot, r.value, call, here);
      } else {
        StillMissing(Behind(), IdOf(request), before, Now(request), slot);
        GrowsWeaker(Behind(), IdOf(request), before, Now(request), Rank(registry, plan, c), Height(Behind(), c));
      }
    }

    method ResolveRequestProvider(c: Contract, request: RequestContext, here: seq<Contract>)
        returns (r: Outcome<Instance>)
      requires Valid(request) && c in registry && registry[c].scope.Request?
      modifies Frame(request)
      ensures Valid(request) && Steady(request)
      ensures Grows(Behind(), IdOf(request), old(Now(request)), Now(request), Height(Behind(), c))
      ensures r == if RequestSlot(request.id, c) in old(request.instances)
        then Ok(old(request.instances)[RequestSlot(request.id, c)])
                   else Constructed(Behind(), old(Now(request).all), IdOf(request), c, here)
      ensures r.Ok? ==> Cached(c, request, r.value) && WasMade(Behind(), calls, c, r.value)
      ensures r.Err? ==> Uncached(c, request)
      decreases Height(Behind(), c), 3
    {
      hide AppOk, ContextOk, Supported, Grows, Constructed, RefusedBy, Product, Wanted, WantedAll, Ended, Handed,
        AllMade, WasMade, WasMadeFor;
      var slot := RequestSlot(request.id, c);
      ghost var before := Now(request);
      Kinds(request);
      if slot in request.instances {
        GrowsItself(Behind(), IdOf(request), before, Height(Behind(), c));
        CachedWasMade(Behind(), request.instances, calls, slot);
        return Ok(request.instances[slot]);
      }
      r := CreateInstance(c, request, here);
      Kinds(request);
      if r.Ok? {
        ghost var call := calls[|calls| - 1];
        ghost var middle := Now(request).(calls := calls[..|calls| - 1]);
        StillMissing(Behind(), IdOf(request), before, middle, slot);
        LastWasMade(Behind(), calls, IdOf(request), c, r.value);
        CacheRequest(slot, request, r.value);
        GrowsByOne(Behind(), IdOf(request), before, middle, Now(request), slot, r.value, call, here);
      } else {
        StillMissing(Behind(), IdOf(request), before, Now(request), slot);
        GrowsWeaker(Behind(), IdOf(request), before, Now(request), Rank(registry, plan, c), Height(Behind(), c));
      }
    }

    // Puts a finished app-scoped instance in its slot, and in the list when it needs cleanup.
    method CacheApp(slot: Slot, request: RequestContext?, instance: Instance)
      requires Valid(request) && slot !in instances && slot.AppSlot? && Supported(registry, order, slot)
      requires WasMadeFor(Behind(), calls, slot, instance)
      modifies this`instances, this`order, owned
      ensures Valid(request)
      ensures instances == old(instances)[slot := instance] && order == old(order) + [slot]
      ensures owned.entries == old(owned.entries) + Added(registry, slot, instance)
      ensures Now(request) == old(Now(request)).(all := old(Now(request)).all[slot := instance], order := order)
    {
      hide AppOk, ContextOk, RefusedBy, Supported;
      Kinds(request);
      AppFill(registry, instances, order, owned.entries, slot, instance);
      if request != null {
        AppFillKeepsContext(registry, instances, order, request.id, request.instances, request.order,
          request.owned.entries, slot, instance);
        UpdateLeft(instances, request.instances, slot, instance);
      }
      instances := instances[slot := instance];
      order := order + [slot];
      owned.entries := owned.entries + Added(registry, slot, instance);
    }

    method CacheRequest(slot: Slot, request: RequestContext, instance: Instance)
      requires Valid(request) && slot !in request.instances && slot.RequestSlot? && slot.request == request.id
      requires Supported(registry, order + request.order, slot)
      requires WasMadeFor(Behind(), calls, slot, instance)
      modifies request`instances, request`order, request.owned
      ensures Valid(request)
      ensures request.instances == old(request.instances)[slot := instance] &&
        request.order == old(request.order) + [slot]
      ensures request.owned.entries == old(request.owned.entries) + Added(registry, slot, instance)
      ensures Now(request) == old(Now(request)).(all := old(Now(request)).all[slot := instance],
        contextOrder := request.order)
    {
      Kinds(request);
      hide AppOk, RefusedBy, Supported;
      ContextFill(registry, instances, order, request.id, request.instances, request.order, request.owned.entries,
        slot, instance);
      UpdateSum(instances, request.instances, slot, instance);
      request.instances := request.instances[slot := instance];
      request.order := request.order + [slot];
      request.owned.entries := request.owned.entries + Added(registry, slot, instance);
    }

    // Resolves the declared dependencies in order, calls the factory, and checks what it made. What
    // cannot be handed out is closed at once.
    method CreateInstance(c: Contract, request: RequestContext?, here: seq<Contract>) returns (r: Outcome<Instance>)
      requires Valid(request) && c in registry
      requires registry[c].scope.Request? ==> request != null
      modifies Frame(request)
      ensures Valid(request) && Steady(request)
      ensures r == Constructed(Behind(), old(Now(request).all), IdOf(request), c, here)
      ensures r.Ok? ==> Pending(c, request, old(Now(request))) && Handed(Behind(), calls[|calls| - 1], c, r.value)
      ensures var arguments := WantedAll(Behind(), old(Now(request).all), IdOf(request), c,
        |registry[c].dependencies|, here);
        arguments.Ok? ==> IsLast(calls, Call(c, IdOf(request), arguments.value)) && Ended(c, arguments.value, here, r)
      ensures r.Err? ==> Grows(Behind(), IdOf(request), old(Now(request)), Now(request), Rank(registry, plan, c))
      ensures r.Ok? && registry[c].scope.App? ==> Supported(registry, order, AppSlot(c))
      ensures r.Ok? && registry[c].scope.Request? ==>
        Supported(registry, order + request.order, RequestSlot(request.id, c))
      decreases Height(Behind(), c), 2
    {
      hide AppOk, ContextOk, Grows, Supported, RefusedBy, WantedAll, AllMade;
      ghost var before := Now(request);
      var built := Arguments(c, request, here);
      if built.Err? {
        return Err(built.error);
      }
      var call := Call(c, IdOf(request), built.value);
      RefusedByOneMore(Behind(), calls, call);
      ghost var middle := Now(request);
      r := Product(Behind(), c, built.value, here);
      ProductIsHanded(Behind(), call, here);
      StillMade(Behind(), instances, calls, call);
      if request != null {
        StillMade(Behind(), request.instances, calls, call);
      }
      if r.Err? {
        GrowsByNone(Behind(), IdOf(request), before, middle, call, Rank(registry, plan, c));
      }
      calls := calls + [call];
      discarded := discarded + Refused(Behind(), call);
      assert calls[..|calls| - 1] == middle.calls;
    }

    // The dependencies in their declared order, up to the first that fails, whose error it is.
    method Arguments(c: Contract, request: RequestContext?, here: seq<Contract>) returns (r: Outcome<seq<Instance>>)
      requires Valid(request) && c in registry
      requires registry[c].scope.Request? ==> request != null
      modifies Frame(request)
      ensures Valid(request) && Steady(request)
      ensures Grows(Behind(), IdOf(request), old(Now(request)), Now(request), Rank(registry, plan, c))
      ensures r == WantedAll(Behind(), old(Now(request).all), IdOf(request), c, |registry[c].dependencies|, here)
      ensures r.Ok? ==> forall k :: 0 <= k < |r.value| ==> Cached(registry[c].dependencies[k], request, r.value[k])
      ensures r.Ok? && registry[c].scope.App? ==> Supported(registry, order, AppSlot(c))
      ensures r.Ok? && registry[c].scope.Request? ==>
        Supported(registry, order + request.order, RequestSlot(request.id, c))
      decreases Height(Behind(), c), 1
    {
      hide AppOk, ContextOk, Grows, Supported, RefusedBy, Wanted, Resolved, AllMade;
      ghost var before := Now(request);
      GrowsItself(Behind(), IdOf(request), before, Rank(registry, plan, c));
      var dependencies := registry[c].dependencies;
      var arguments: seq<Instance> := [];
      var i := 0;
      while i < |dependencies|
        invariant 0 <= i <= |dependencies| && |arguments| == i
        invariant Valid(request) && Steady(request)
        invariant Grows(Behind(), IdOf(request), before, Now(request), Rank(registry, plan, c))
        invariant WantedAll(Behind(), before.all, IdOf(request), c, i, here) == Ok(arguments)
        invariant forall k :: 0 <= k < i ==> Cached(dependencies[k], request, arguments[k])
      {
        var argument := NextArgument(c, request, here, before, i);
        if argument.Err? {
          FirstErrorStays(Behind(), before.all, IdOf(request), c, i + 1, |dependencies|, here);
          return Err(argument.error);
        }
        arguments := arguments + [argument.value];
        i := i + 1;
      }
      if registry[c].scope.App? { ArgumentsSupport(c, request, arguments, AppSlot(c)); }
      if registry[c].scope.Request? { ArgumentsSupport(c, request, arguments, RequestSlot(request.id, c)); }
      return Ok(arguments);
    }

    // One dependency, after those before it: it means what it meant before them, and what they yielded stays.
    method NextArgument(c: Contract, request: RequestContext?, here: seq<Contract>, ghost before: Caches, i: nat)
        returns (r: Outcome<Instance>)
      requires Valid(request) && c in registry && i < |registry[c].dependencies|
      requires Grows(Behind(), IdOf(request), before, Now(request), Rank(registry, plan, c))
      modifies Frame(request)
      ensures Valid(request) && Steady(request)
      ensures Grows(Behind(), IdOf(request), before, Now(request), Rank(registry, plan, c))
      ensures r == Wanted(Behind(), before.all, IdOf(request), registry[c].dependencies[i], here)
      ensures r.Ok? ==> Cached(registry[c].dependencies[i], request, r.value)
      ensures forall d, value :: old(Cached(d, request, value)) ==> Cached(d, request, value)
      decreases Height(Behind(), c), 0
    {
      hide AppOk, ContextOk, Grows, RefusedBy, Wanted, Resolved, AllMade, WasMade;
      ghost var middle := Now(request);
      var d := registry[c].dependencies[i];
      DependenciesAreLower(Behind(), c, d);
      MeansTheSame(request, before, c, d, here);
      r := Resolve(d, request, here);
      GrowsWeaker(Behind(), IdOf(request), middle, Now(request), Height(Behind(), d), Rank(registry, plan, c));
      ResolvedStays(request, middle, Rank(registry, plan, c));
      GrowsTwice(Behind(), IdOf(request), before, middle, Now(request), Rank(registry, plan, c));
    }

    lemma ResolvedStays(request: RequestContext?, before: Caches, bound: int)
      requires ValidApp() && Grows(Behind(), IdOf(request), before, Now(request), bound)
      ensures forall d, value :: Resolved(registry, before.all, IdOf(request), d, value) ==> Cached(d, request, value)
    {
      hide MadeOnce, AddedAsWanted, RefusedBy, AppOk;
    }

    lemma MeansTheSame(request: RequestContext?, before: Caches, c: Contract, d: Contract, here: seq<Contract>)
      requires ValidApp() && c in registry &&
        Grows(Behind(), IdOf(request), before, Now(request), Rank(registry, plan, c))
      ensures Wanted(Behind(), Now(request).all, IdOf(request), d, here) ==
        Wanted(Behind(), before.all, IdOf(request), d, here)
    {
      hide MadeOnce, RefusedBy, AppOk;
      WantedStays(Behind(), IdOf(request), before.all, Now(request).all, Rank(registry, plan, c), d, here);
    }

    lemma ArgumentsSupport(c: Contract, request: RequestContext?, arguments: seq<Instance>, slot: Slot)
      requires Valid(request) && c in registry && |arguments| == |registry[c].dependencies|
      requires slot.contract == c && SlotOf(registry, RequestOf(slot), c) == Some(slot)
      requires slot.RequestSlot? ==> request != null && slot.request == request.id
      requires forall k :: 0 <= k < |arguments| ==> Cached(registry[c].dependencies[k], request, arguments[k])
      ensures slot.AppSlot? ==> Supported(registry, order, slot)
      ensures slot.RequestSlot? ==> Supported(registry, order + request.order, slot)
    {
      Kinds(request);
      forall d | Edge(registry, c, d)
        ensures d in registry && SlotOf(registry, RequestOf(slot), d).Some?
        ensures SlotOf(registry, RequestOf(slot), d).value in if slot.AppSlot? then order else order + request.order
      {
        hide AppOk, ContextOk;
        var k :| 0 <= k < |arguments| && registry[c].dependencies[k] == d;
        assert Cached(d, request, arguments[k]);
        assert Lifetime(registry[c].scope) <= Lifetime(registry[d].scope);
      }
    }

    // Starting twice is harmless; a failed start closes what it had tracked, dependents first. What it
    // had tracked is what belongs to the caches as they were by then, `held`.
    method Start(pluginsStart: bool) returns (r: Outcome<()>, ghost tracked: seq<Entry>, ghost held: Caches)
      requires ValidApp() && (state.New? || state.Validated? ==> owned.entries == [])
      modifies this, owned
      ensures ValidApp()
      ensures old(state).Ready? ==> r.Ok? && state.Ready?
      ensures !old(state).Ready? && !old(state).New? && !old(state).Validated? ==>
        r == Err(WrongState(old(state))) && state == old(state)
      ensures old(state).New? || old(state).Validated? ==>
                && state == (if r.Ok? then Ready else Failed)
                && (r.Ok? <==> pluginsStart && EagerResolve(old(instances)))
      ensures r.Ok? && !old(state).Ready? ==>
                && closes == old(closes) && EagerIn(instances)
                && Grows(Behind(), None, old(Now(null)), Now(null), |plan|)
      ensures state.Failed? && !old(state).Failed? ==>
                && owned.entries == [] && instances == map[] && NeededFirst(registry, tracked)
                && closes == old(closes) + Reverse(tracked)
                && AppOk(registry, held.all, held.order, tracked) && held.calls == calls
                && Grows(Behind(), None, old(Now(null)), held, |plan|)
                && (EagerResolve(old(instances)) ==> EagerIn(held.all))
                && (r.error.Shutdown? <==> exists e :: e in tracked && closeRaises(e))
    {
      hide AppOk, ContextOk, NeededFirst, Grows, Wanted, RefusedBy, AllMade;
      tracked, held := [], Now(null);
      if state.Ready? {
        return Ok(()), tracked, held;
      }
      if !state.New? && !state.Validated? {
        return Err(WrongState(state)), tracked, held;
      }
      state := Starting;
      r := ResolveEager();
      if r.Ok? && !pluginsStart {
        r := Err(PluginFailed);
      }
      if r.Ok? {
        state := Ready;
      } else {
        tracked, held := owned.entries, Now(null);
        var failures := ReleaseAll();
        state := Failed;
        if failures != [] {
          r := Err(Shutdown(failures));
        }
      }
    }

    ghost predicate EagerIn(cached: Cache) {
      forall c :: c in registry && registry[c].scope.App? && registry[c].eager ==> AppSlot(c) in cached
    }

    // Every eager provider of the application resolves, from these cached instances.
    ghost predicate EagerResolve(cached: Cache)
      requires Sound(Behind())
    {
      forall c :: c in registry && registry[c].scope.App? && registry[c].eager ==>
        Wanted(Behind(), cached, None, c, []).Ok?
    }

    method ResolveEager() returns (r: Outcome<()>)
      requires ValidApp()
      modifies this, owned
      ensures ValidApp() && state == old(state) && closes == old(closes)
      ensures r.Ok? <==> EagerResolve(old(instances))
      ensures Grows(Behind(), None, old(Now(null)), Now(null), |plan|)
      ensures r.Ok? ==> EagerIn(instances)
      ensures r.Err? ==> !r.error.Shutdown?
    {
      hide AppOk, ContextOk, Grows, Wanted, RefusedBy, AllMade, WasMade;
      ghost var before := Now(null);
      GrowsItself(Behind(), None, before, |plan|);
      var i := 0;
      while i < |plan|
        invariant 0 <= i <= |plan| && ValidApp() && state == old(state) && closes == old(closes)
        invariant Grows(Behind(), None, before, Now(null), |plan|)
        invariant forall k :: 0 <= k < i && registry[plan[k]].scope.App? && registry[plan[k]].eager ==>
          Wanted(Behind(), before.all, None, plan[k], []).Ok?
        invariant forall k :: 0 <= k < i && registry[plan[k]].scope.App? && registry[plan[k]].eager ==>
          AppSlot(plan[k]) in instances
      {
        if registry[plan[i]].scope.App? && registry[plan[i]].eager {
          ghost var middle := Now(null);
          RanksAreBelow(plan[i]);
          EagerMeansTheSame(before, plan[i]);
          var resolved := Resolve(plan[i], null, []);
          GrowsWeaker(Behind(), None, middle, Now(null), Height(Behind(), plan[i]), |plan|);
          NothingIsDropped(middle);
          GrowsTwice(Behind(), None, before, middle, Now(null), |plan|);
          if resolved.Err? {
            ErrorsOfResolving(Behind(), middle.all, None, plan[i], []);
            return Err(resolved.error);
          }
        }
        i := i + 1;
      }
      return Ok(());
    }

    lemma NothingIsDropped(before: Caches)
      requires ValidApp() && Grows(Behind(), None, before, Now(null), |plan|)
      ensures forall slot :: slot in before.all ==> slot in instances
    {
      hide MadeOnce, AddedAsWanted, RefusedBy, AppOk;
    }

    lemma RanksAreBelow(c: Contract)
      requires ValidApp() && c in registry
      ensures Height(Behind(), c) <= |plan|
    {
      assert Rank(registry, plan, c) < |plan|;
    }

    lemma EagerMeansTheSame(before: Caches, c: Contract)
      requires ValidApp() && Grows(Behind(), None, before, Now(null), |plan|)
      ensures Wanted(Behind(), Now(null).all, None, c, []) == Wanted(Behind(), before.all, None, c, [])
    {
      hide MadeOnce, RefusedBy, AppOk;
      WantedStays(Behind(), None, before.all, Now(null).all, |plan|, c, []);
    }

    // Closes everything the application owns, dependents first, and forgets every instance.
    method ReleaseAll() returns (failures: seq<Entry>)
      requires ValidApp()
      modifies this`instances, this`order, this`closes, owned
      ensures ValidApp() && owned.entries == [] && instances == map[]
      ensures NeededFirst(registry, old(owned.entries)) && closes == old(closes) + Reverse(old(owned.entries))
      ensures failures == [] <==> forall e :: e in old(owned.entries) ==> !closeRaises(e)
    {
      hide AppOk, NeededFirst, RefusedBy, Sound, HistoryOk, Supported, Tracked;
      AppNeededFirst(registry, instances, order, owned.entries);
      NothingCached(registry);
      ReverseSameElements(owned.entries);
      ghost var entries := owned.entries;
      failures := CloseOwned(owned);
      instances, order := map[], [];
      assert failures != [] ==> failures[0] in failures;
      assert forall e :: e in failures <==> e in entries && closeRaises(e);
    }

    // `otherFailures` counts what the timeout and the plugins reported before the closing loop.
    method Stop(otherFailures: nat) returns (r: Outcome<()>)
      requires ValidApp()
      modifies this, owned
      ensures ValidApp()
      ensures old(state).Ready? ==>
                && state.Stopped? && owned.entries == [] && instances == map[]
                && closes == old(closes) + Reverse(old(owned.entries)) && NeededFirst(registry, old(owned.entries))
                && (r.Ok? <==> otherFailures == 0 && forall e :: e in old(owned.entries) ==> !closeRaises(e))
      ensures old(state).Starting? || old(state).Stopping? ==> r == Err(WrongState(old(state))) && state == old(state)
      ensures !old(state).Ready? && !old(state).Starting? && !old(state).Stopping? ==> r.Ok? && state.Stopped?
      ensures !old(state).Ready? ==> closes == old(closes) && owned.entries == old(owned.entries)
    {
      hide AppOk, ContextOk, NeededFirst;
      if !state.Ready? {
        if state.Starting? || state.Stopping? {
          return Err(WrongState(state));
        }
        state := Stopped;
        return Ok(());
      }
      state := Stopping;
      var failures := ReleaseAll();
      state := Stopped;
      return if otherFailures > 0 || failures != [] then Err(Shutdown(failures)) else Ok(());
    }

    // Closing a context twice closes its resources once.
    method CloseContext(request: RequestContext) returns (r: Outcome<()>)
      requires Valid(request)
      modifies request, request.owned, this`closes
      ensures request.closed && Valid(request)
      ensures old(request.closed) ==>
        r.Ok? && closes == old(closes) && request.owned.entries == old(request.owned.entries)
      ensures !old(request.closed) ==>
                && request.owned.entries == [] && request.instances == map[]
                && closes == old(closes) + Reverse(old(request.owned.entries))
                && (r.Ok? <==> forall e :: e in old(request.owned.entries) ==> !closeRaises(e))
      ensures !old(request.closed) ==> NeededFirst(registry, old(request.owned.entries))
    {
      if request.closed {
        return Ok(());
      }
      request.closed := true;
      ContextNeededFirst(registry, instances, order, request.id, request.instances, request.order,
        request.owned.entries);
      ghost var entries := request.owned.entries;
      var failures := CloseOwned(request.owned);
      ReverseSameElements(entries);
      request.instances, request.order := map[], [];
      AppOnly(registry, instances, order, request.id, owned.entries);
      if failures != [] {
        assert failures[0] in failures;
        return Err(Shutdown(failures));
      }
      assert forall e :: closeRaises(e) ==> e !in failures;
      return Ok(());
    }
  }

  lemma ReverseSameElements<T>(xs: seq<T>)
    ensures forall x :: x in Reverse(xs) <==> x in xs
  {
    forall x | x in xs ensures x in Reverse(xs) {
      var i :| 0 <= i < |xs| && xs[i] == x;
      assert Reverse(xs)[|xs| - 1 - i] == x;
    }
  }

  // Slots of other owners contribute nothing to an owner's list.
  lemma {:induction false} TrackedOfOthers(g: Graph, cache: Cache, history: seq<Slot>, owner: Owner)
    requires forall slot :: slot in history ==> slot in cache && slot.contract in g && OwnerOf(slot) != owner
    ensures Tracked(g, cache, history, owner) == []
  {
    if history != [] {
      TrackedOfOthers(g, cache, history[..|history| - 1], owner);
    }
  }

  lemma {:induction false} TrackedOfSecondPart(g: Graph, cache: Cache, first: seq<Slot>, second: seq<Slot>,
      owner: Owner)
    requires forall slot :: slot in first + second ==> slot in cache && slot.contract in g
    requires forall slot :: slot in first ==> OwnerOf(slot) != owner
    ensures Tracked(g, cache, first + second, owner) == Tracked(g, cache, second, owner)
  {
    hide Tracked;
    if second == [] {
      assert first + second == first;
      TrackedOfOthers(g, cache, first, owner);
      TrackedOfOthers(g, cache, second, owner);
    } else {
      var shorter, last := second[..|second| - 1], second[|second| - 1];
      assert second == shorter + [last];
      assert first + second == first + shorter + [last];
      TrackedOfSecondPart(g, cache, first, shorter, owner);
      TrackedStep(g, cache, shorter, last, owner);
      TrackedStep(g, cache, first + shorter, last, owner);
    }
  }
}
