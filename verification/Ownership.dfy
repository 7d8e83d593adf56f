// Instance slots, the order in which they are filled, and the ownership lists cut from that order.
module Ownership {
  import opened Providers

  datatype Option<+T> = None | Some(value: T)

  type RequestId = nat

  // Where an instance is cached: once per application, or once per request context.
  datatype Slot = AppSlot(contract: Contract) | RequestSlot(request: RequestId, contract: Contract)

  datatype Owner = AppOwner | RequestOwner(request: RequestId)

  datatype Instance = Instance(id: nat, closable: bool)

  datatype Entry = Entry(slot: Slot, instance: Instance)

  type Cache = map<Slot, Instance>

  function SlotOf(g: Graph, request: Option<RequestId>, c: Contract): Option<Slot>
    requires c in g
  {
    match g[c].scope
    case App => Some(AppSlot(c))
    case Request => if request.Some? then Some(RequestSlot(request.value, c)) else None
    case Transient => None
  }

  function RequestOf(slot: Slot): Option<RequestId> {
    if slot.AppSlot? then None else Some(slot.request)
  }

  function OwnerOf(slot: Slot): Owner {
    if slot.AppSlot? then AppOwner else RequestOwner(slot.request)
  }

  predicate NeedsCleanup(g: Graph, c: Contract, instance: Instance)
    requires c in g
  {
    g[c].closeHook || instance.closable
  }

  // `value` is what resolving `c` for this request yields: the cached instance, if `c` has a slot.
  ghost predicate Resolved(g: Graph, cache: Cache, request: Option<RequestId>, c: Contract, value: Instance) {
    && c in g
    && (!g[c].scope.Transient? ==> SlotOf(g, request, c).Some?)
    && (SlotOf(g, request, c).Some? ==>
      SlotOf(g, request, c).value in cache && cache[SlotOf(g, request, c).value] == value)
  }

  // The slot belongs to a registered provider and everything it needs was cached before it.
  ghost predicate Supported(g: Graph, earlier: seq<Slot>, slot: Slot) {
    && slot.contract in g && SlotOf(g, RequestOf(slot), slot.contract) == Some(slot)
    && forall d :: Edge(g, slot.contract, d) ==>
         d in g && SlotOf(g, RequestOf(slot), d).Some? && SlotOf(g, RequestOf(slot), d).value in earlier
  }

  // `history` is the order in which the cached slots were filled.
  ghost predicate HistoryOk(g: Graph, cache: Cache, history: seq<Slot>) {
    && (forall slot :: slot in cache <==> slot in history)
    && (forall i, j :: 0 <= i < j < |history| ==> history[i] != history[j])
    && (forall k :: 0 <= k < |history| ==> Supported(g, history[..k], history[k]))
  }

  // The entries of one owner, in the order they were cached.
  function Tracked(g: Graph, cache: Cache, history: seq<Slot>, owner: Owner): (entries: seq<Entry>)
    requires forall slot :: slot in history ==> slot in cache && slot.contract in g
    ensures forall e :: e in entries ==> e.slot in history && OwnerOf(e.slot) == owner
  {
    if history == [] then [] else
      var last := history[|history| - 1];
      Tracked(g, cache, history[..|history| - 1], owner) +
      if OwnerOf(last) == owner && NeedsCleanup(g, last.contract, cache[last]) then [Entry(last, cache[last])] else []
  }

  lemma HistoryRegistered(g: Graph, cache: Cache, history: seq<Slot>)
    requires HistoryOk(g, cache, history)
    ensures forall slot :: slot in history ==> slot in cache && slot.contract in g
  {
    forall slot | slot in history ensures slot.contract in g {
      var k :| 0 <= k < |history| && history[k] == slot;
      assert Supported(g, history[..k], history[k]);
    }
  }

  lemma {:induction false} TrackedGrows(g: Graph, cache: Cache, history: seq<Slot>, owner: Owner, k: nat)
    requires forall slot :: slot in history ==> slot in cache && slot.contract in g
    requires k <= |history|
    ensures |Tracked(g, cache, history[..k], owner)| <= |Tracked(g, cache, history, owner)|
  {
    if k == |history| {
      assert history[..k] == history;
    } else {
      assert history[..|history| - 1][..k] == history[..k];
      TrackedGrows(g, cache, history[..|history| - 1], owner, k);
    }
  }

  // An entry is among the first ones exactly when its slot was filled among the first ones.
  lemma {:induction false} TrackedPosition(g: Graph, cache: Cache, history: seq<Slot>, owner: Owner, k: nat, i: nat)
    requires forall slot :: slot in history ==> slot in cache && slot.contract in g
    requires forall a, b :: 0 <= a < b < |history| ==> history[a] != history[b]
    requires k <= |history| && i < |Tracked(g, cache, history, owner)|
    ensures i < |Tracked(g, cache, history[..k], owner)| <==> Tracked(g, cache, history, owner)[i].slot in history[..k]
  {
    var entries := Tracked(g, cache, history, owner);
    if k == |history| {
      assert history[..k] == history;
      assert entries[i] in entries;
    } else {
      var shorter := history[..|history| - 1];
      assert shorter[..k] == history[..k];
      var before := Tracked(g, cache, shorter, owner);
      if i < |before| {
        assert entries[i] == before[i];
        TrackedPosition(g, cache, shorter, owner, k, i);
      } else {
        assert entries[i].slot == history[|history| - 1];
        TrackedGrows(g, cache, shorter, owner, k);
      }
    }
  }

  // Filling one more slot adds at most one entry, at the end of its owner's list.
  lemma {:induction false} TrackedExtend(g: Graph, cache: Cache, history: seq<Slot>, slot: Slot, instance: Instance,
      owner: Owner)
    requires forall s :: s in history ==> s in cache && s.contract in g
    requires slot !in cache && slot.contract in g
    ensures Tracked(g, cache[slot := instance], history + [slot], owner) ==
            Tracked(g, cache, history, owner) +
            (if OwnerOf(slot) == owner && NeedsCleanup(g, slot.contract, instance) then [Entry(slot, instance)] else [])
  {
    TrackedAgrees(g, cache, cache[slot := instance], history, owner);
    assert (history + [slot])[..|history|] == history;
  }

  // What filling a slot adds to its owner's list.
  function Added(g: Graph, slot: Slot, instance: Instance): seq<Entry>
    requires slot.contract in g
  {
    if NeedsCleanup(g, slot.contract, instance) then [Entry(slot, instance)] else []
  }

  lemma TrackedStep(g: Graph, cache: Cache, history: seq<Slot>, slot: Slot, owner: Owner)
    requires forall s :: s in history + [slot] ==> s in cache && s.contract in g
    ensures slot in cache && slot.contract in g
    ensures Tracked(g, cache, history + [slot], owner) ==
            Tracked(g, cache, history, owner) + if OwnerOf(slot) == owner then Added(g, slot, cache[slot]) else []
  {
    assert slot in history + [slot];
    assert (history + [slot])[..|history|] == history;
  }

  lemma {:induction false} TrackedAgrees(g: Graph, cache: Cache, bigger: Cache, history: seq<Slot>, owner: Owner)
    requires forall s :: s in history ==> s in cache && s.contract in g && s in bigger && bigger[s] == cache[s]
    ensures Tracked(g, bigger, history, owner) == Tracked(g, cache, history, owner)
  {
    if history != [] {
      assert history[|history| - 1] in history;
      TrackedAgrees(g, cache, bigger, history[..|history| - 1], owner);
    }
  }

  lemma HistoryExtend(g: Graph, cache: Cache, history: seq<Slot>, slot: Slot, instance: Instance)
    requires HistoryOk(g, cache, history) && slot !in cache && Supported(g, history, slot)
    ensures HistoryOk(g, cache[slot := instance], history + [slot])
  {
    var longer := history + [slot];
    forall k | 0 <= k < |longer| ensures Supported(g, longer[..k], longer[k]) {
      assert longer[..k] == history[..k];
      assert k == |history| ==> history[..k] == history;
    }
  }

  // A dependency reached through any number of providers was cached before its dependent.
  lemma {:induction false} DependenciesFirst(g: Graph, cache: Cache, history: seq<Slot>, path: seq<Contract>, k: nat)
    requires HistoryOk(g, cache, history)
    requires k < |history| && |path| >= 2 && IsChain(g, path) && path[0] == history[k].contract
    ensures path[|path| - 1] in g
    ensures SlotOf(g, RequestOf(history[k]), path[|path| - 1]).Some?
    ensures SlotOf(g, RequestOf(history[k]), path[|path| - 1]).value in history[..k]
    decreases |path|
  {
    var slot := history[k];
    assert Supported(g, history[..k], slot);
    assert Link(g, path, 0);
    var below := SlotOf(g, RequestOf(slot), path[1]).value;
    if |path| > 2 {
      var j :| 0 <= j < k && history[j] == below;
      var rest := path[1..];
      forall i | 0 <= i < |rest| - 1 ensures Link(g, rest, i) {
        assert Link(g, path, i + 1);
      }
      DependenciesFirst(g, cache, history, rest, j);
      assert Supported(g, history[..j], below);
      var bottom := SlotOf(g, RequestOf(below), path[|path| - 1]).value;
      assert bottom in history[..k];
    }
  }

  // In one owner's list, what a tracked provider depends on stands before it, so popping the list
  // from its end closes every dependent before its dependencies.
  lemma {:induction false} OwnershipOrder(g: Graph, cache: Cache, history: seq<Slot>, owner: Owner, p: nat, q: nat,
      path: seq<Contract>)
    requires HistoryOk(g, cache, history)
    requires forall slot :: slot in history ==> slot in cache && slot.contract in g
    requires p < |Tracked(g, cache, history, owner)| && q < |Tracked(g, cache, history, owner)|
    requires |path| >= 2 && IsChain(g, path)
    requires path[0] == Tracked(g, cache, history, owner)[p].slot.contract
    requires path[|path| - 1] == Tracked(g, cache, history, owner)[q].slot.contract
    ensures q < p
  {
    var entries := Tracked(g, cache, history, owner);
    var above, below := entries[p].slot, entries[q].slot;
    assert entries[p] in entries && entries[q] in entries;
    var k :| 0 <= k < |history| && history[k] == above;
    DependenciesFirst(g, cache, history, path, k);
    var m :| 0 <= m < |history| && history[m] == below;
    assert Supported(g, history[..m], below) && Supported(g, history[..k], above);
    assert below in history[..k];
    assert above !in history[..k];
    TrackedPosition(g, cache, history, owner, k, q);
    TrackedPosition(g, cache, history, owner, k, p);
  }
}
