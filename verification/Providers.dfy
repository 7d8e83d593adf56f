// The provider registry: what validation of a dependency graph accepts, and the order it returns.
module Providers {
  type Contract = string

  datatype Scope = App | Request | Transient

  datatype Provider = Provider(scope: Scope, dependencies: seq<Contract>, eager: bool, closeHook: bool)

  type Graph = map<Contract, Provider>

  datatype GraphError =
    | Missing(path: seq<Contract>)
    | Cycle(path: seq<Contract>)
    | ScopeViolation(path: seq<Contract>)

  datatype Result<+T> = Success(value: T) | Failure(error: GraphError)

  function Lifetime(scope: Scope): nat {
    match scope
    case App => 3
    case Request => 2
    case Transient => 1
  }

  // --- What a well-formed graph is, said without the traversal ---

  ghost predicate Edge(g: Graph, p: Contract, q: Contract) {
    p in g && q in g[p].dependencies
  }

  ghost predicate Link(g: Graph, path: seq<Contract>, i: nat)
    requires i + 1 < |path|
  {
    Edge(g, path[i], path[i + 1])
  }

  ghost predicate IsChain(g: Graph, path: seq<Contract>) {
    forall i :: 0 <= i < |path| - 1 ==> Link(g, path, i)
  }

  ghost predicate IsCycle(g: Graph, path: seq<Contract>) {
    |path| >= 2 && IsChain(g, path) && path[0] == path[|path| - 1]
  }

  ghost predicate Acyclic(g: Graph) {
    forall path :: !IsCycle(g, path)
  }

  ghost predicate Registered(g: Graph) {
    forall p, q :: Edge(g, p, q) ==> q in g
  }

  // A provider never depends on a shorter-lived one.
  ghost predicate ScopeSafe(g: Graph) {
    forall p, q :: Edge(g, p, q) && q in g ==> Lifetime(g[p].scope) <= Lifetime(g[q].scope)
  }

  ghost predicate WellFormed(g: Graph) {
    Registered(g) && ScopeSafe(g) && Acyclic(g)
  }

  // An error is genuine when its path is a real dependency path ending in the fault it names.
  ghost predicate Genuine(g: Graph, error: GraphError) {
    match error
    case Missing(path) => |path| >= 2 && IsChain(g, path) && path[|path| - 1] !in g
    case Cycle(path) => IsCycle(g, path)
    case ScopeViolation(path) =>
      && |path| >= 2 && IsChain(g, path)
      && path[|path| - 2] in g && path[|path| - 1] in g
      && Lifetime(g[path[|path| - 2]].scope) > Lifetime(g[path[|path| - 1]].scope)
  }

  // A dependency-safe order: every provider once, each after everything it needs.
  ghost predicate IsPartialPlan(g: Graph, plan: seq<Contract>) {
    && (forall i :: 0 <= i < |plan| ==> plan[i] in g)
    && (forall i, j :: 0 <= i < j < |plan| ==> plan[i] != plan[j])
    && (forall i, q :: 0 <= i < |plan| && Edge(g, plan[i], q) ==> q in plan[..i])
  }

  ghost predicate IsPlan(g: Graph, plan: seq<Contract>) {
    IsPartialPlan(g, plan) && (forall p :: p in g ==> p in plan)
  }

  lemma GenuineRefutes(g: Graph, error: GraphError)
    requires Genuine(g, error)
    ensures !WellFormed(g)
  {
    var path := error.path;
    assert Link(g, path, |path| - 2);
    if error.Cycle? {
      assert IsCycle(g, path);
    }
  }

  // The position of a contract in a plan, which every dependency edge lowers.
  ghost function Rank(g: Graph, plan: seq<Contract>, c: Contract): (r: nat)
    requires IsPlan(g, plan) && c in g
    ensures r < |plan| && plan[r] == c
  {
    var i :| 0 <= i < |plan| && plan[i] == c;
    i
  }

  lemma EdgeLowersRank(g: Graph, plan: seq<Contract>, p: Contract, q: Contract)
    requires IsPlan(g, plan) && Edge(g, p, q)
    ensures q in g && Rank(g, plan, q) < Rank(g, plan, p)
  {
    var i := Rank(g, plan, p);
    assert q in plan[..i];
    var j :| 0 <= j < i && plan[j] == q;
  }

  lemma {:induction false} ChainLowersRank(g: Graph, plan: seq<Contract>, path: seq<Contract>)
    requires IsPlan(g, plan) && |path| >= 1 && path[0] in g && IsChain(g, path)
    ensures path[|path| - 1] in g
    ensures Rank(g, plan, path[|path| - 1]) + |path| - 1 <= Rank(g, plan, path[0])
  {
    if |path| > 1 {
      var rest := path[1..];
      assert Link(g, path, 0);
      EdgeLowersRank(g, plan, path[0], path[1]);
      forall i | 0 <= i < |rest| - 1
        ensures Link(g, rest, i)
      {
        assert Link(g, path, i + 1);
      }
      ChainLowersRank(g, plan, rest);
    }
  }

  lemma PlanMeansAcyclic(g: Graph, plan: seq<Contract>)
    requires IsPlan(g, plan)
    ensures Acyclic(g) && Registered(g)
  {
    forall path | IsCycle(g, path) ensures false {
      assert Link(g, path, 0);
      ChainLowersRank(g, plan, path);
    }
    forall p, q | Edge(g, p, q) ensures q in g {
      EdgeLowersRank(g, plan, p, q);
    }
  }

  function IndexOf(path: seq<Contract>, c: Contract): (i: nat)
    requires c in path
    ensures i < |path| && path[i] == c
  {
    if path[0] == c then 0 else 1 + IndexOf(path[1..], c)
  }

  lemma ExtendChain(g: Graph, path: seq<Contract>, c: Contract)
    requires IsChain(g, path)
    requires path == [] || Edge(g, path[|path| - 1], c)
    ensures IsChain(g, path + [c])
  {
    forall i | 0 <= i < |path|
      ensures Link(g, path + [c], i)
    {
      assert i < |path| - 1 ==> Link(g, path, i);
    }
  }

  lemma ClosingACycle(g: Graph, active: seq<Contract>, c: Contract)
    requires IsChain(g, active) && c in active && Edge(g, active[|active| - 1], c)
    ensures Genuine(g, Cycle(active[IndexOf(active, c)..] + [c]))
  {
    var start := IndexOf(active, c);
    var tail := active[start..];
    forall i | 0 <= i < |tail| - 1
      ensures Link(g, tail, i)
    {
      assert Link(g, active, start + i);
    }
    ExtendChain(g, tail, c);
  }

  lemma FaultyDependency(g: Graph, active: seq<Contract>, d: Contract)
    requires IsChain(g, active) && active != [] && Edge(g, active[|active| - 1], d)
    ensures d !in g ==> Genuine(g, Missing(active + [d]))
    ensures d in g && Lifetime(g[active[|active| - 1]].scope) > Lifetime(g[d].scope) ==>
      Genuine(g, ScopeViolation(active + [d]))
  {
    ExtendChain(g, active, d);
  }

  lemma ExtendPlan(g: Graph, plan: seq<Contract>, c: Contract)
    requires IsPartialPlan(g, plan) && c in g && c !in plan
    requires forall q :: Edge(g, c, q) ==> q in plan
    ensures IsPartialPlan(g, plan + [c])
  {
    var longer := plan + [c];
    forall k, q | 0 <= k < |longer| && Edge(g, longer[k], q)
      ensures q in longer[..k]
    {
      assert longer[..k] == plan[..k];
      assert k == |plan| ==> plan[..k] == plan;
    }
  }

  lemma SmallerRemainder(g: Graph, outer: seq<Contract>, c: Contract)
    requires c in g && c !in outer
    ensures g.Keys - (set a | a in outer + [c]) < g.Keys - (set a | a in outer)
  {
    assert c in g.Keys - (set a | a in outer);
    assert c !in g.Keys - (set a | a in outer + [c]);
  }

  ghost predicate SafeDependency(g: Graph, visited: set<Contract>, c: Contract, d: Contract)
    requires c in g
  {
    d in visited && d in g && Lifetime(g[c].scope) <= Lifetime(g[d].scope)
  }

  // Between two visits: what is ordered is settled, what is active is a chain of open providers.
  ghost predicate Consistent(g: Graph, visited: set<Contract>, active: seq<Contract>, ordered: seq<Contract>) {
    && (forall c :: c in visited <==> c in ordered)
    && IsPartialPlan(g, ordered)
    && (forall p, q :: p in visited && Edge(g, p, q) ==> SafeDependency(g, visited, p, q))
    && (forall c :: c in active ==> c in g && c !in visited)
    && (forall i, j :: 0 <= i < j < |active| ==> active[i] != active[j])
    && IsChain(g, active)
  }

  lemma Open(g: Graph, visited: set<Contract>, active: seq<Contract>, ordered: seq<Contract>, c: Contract)
    requires Consistent(g, visited, active, ordered) && c in g && c !in visited && c !in active
    requires active == [] || Edge(g, active[|active| - 1], c)
    ensures Consistent(g, visited, active + [c], ordered)
  {
    ExtendChain(g, active, c);
  }

  lemma Settle(g: Graph, visited: set<Contract>, outer: seq<Contract>, ordered: seq<Contract>, c: Contract)
    requires Consistent(g, visited, outer + [c], ordered) && c in g
    requires forall d :: d in g[c].dependencies ==> SafeDependency(g, visited, c, d)
    ensures Consistent(g, visited + {c}, outer, ordered + [c])
  {
    var inner := outer + [c];
    assert inner[|outer|] == c;
    ExtendPlan(g, ordered, c);
    forall i | 0 <= i < |outer|
      ensures outer[i] != c && outer[i] in g && outer[i] !in visited
      ensures i < |outer| - 1 ==> Link(g, outer, i)
    {
      assert inner[i] in inner;
      assert i < |outer| - 1 ==> Link(g, inner, i);
    }
    forall i, j | 0 <= i < j < |outer|
      ensures outer[i] != outer[j]
    {
      assert inner[i] != inner[j];
    }
  }

  // One validation pass: the traversal's three growing collections.
  class Validation {
    const graph: Graph
    var visited: set<Contract>
    var active: seq<Contract>
    var ordered: seq<Contract>

    constructor (graph: Graph)
      ensures this.graph == graph && Valid() && active == [] && ordered == []
    {
      this.graph := graph;
      visited, active, ordered := {}, [], [];
    }

    ghost predicate Valid()
      reads this
    {
      Consistent(graph, visited, active, ordered)
    }

    method Visit(c: Contract) returns (r: Result<()>)
      requires Valid() && c in graph
      requires active == [] || Edge(graph, active[|active| - 1], c)
      modifies this
      ensures r.Success? ==> Valid() && active == old(active) && old(ordered) <= ordered && c in visited
      ensures r.Failure? ==> Genuine(graph, r.error)
      decreases graph.Keys - (set a | a in active)
    {
      if c in visited {
        return Success(());
      }
      if c in active {
        var cycle := active[IndexOf(active, c)..] + [c];
        ClosingACycle(graph, active, c);
        return Failure(Cycle(cycle));
      }
      var provider := graph[c];
      ghost var outer, was := active, ordered;
      Open(graph, visited, active, ordered, c);
      active := active + [c];
      assert active[..|active| - 1] == outer;
      var i := 0;
      while i < |provider.dependencies|
        invariant 0 <= i <= |provider.dependencies|
        invariant Valid() && active == outer + [c] && was <= ordered
        invariant forall k :: 0 <= k < i ==> SafeDependency(graph, visited, c, provider.dependencies[k])
      {
        var d := provider.dependencies[i];
        var path := active + [d];
        FaultyDependency(graph, active, d);
        if d !in graph {
          return Failure(Missing(path));
        }
        if Lifetime(provider.scope) > Lifetime(graph[d].scope) {
          return Failure(ScopeViolation(path));
        }
        SmallerRemainder(graph, outer, c);
        var visit := Visit(d);
        if visit.Failure? {
          return Failure(visit.error);
        }
        i := i + 1;
      }
      Settle(graph, visited, outer, ordered, c);
      active := active[..|active| - 1];
      visited := visited + {c};
      ordered := ordered + [c];
      return Success(());
    }
  }

  // `order` lists the registered contracts in registration order.
  method Validate(graph: Graph, order: seq<Contract>) returns (r: Result<seq<Contract>>)
    requires forall c :: c in order <==> c in graph
    ensures r.Success? <==> WellFormed(graph)
    ensures r.Success? ==> IsPlan(graph, r.value)
    ensures r.Failure? ==> Genuine(graph, r.error)
  {
    var pass := new Validation(graph);
    var i := 0;
    while i < |order|
      invariant 0 <= i <= |order|
      invariant pass.Valid() && pass.active == [] && pass.graph == graph
      invariant forall k :: 0 <= k < i ==> order[k] in pass.visited
    {
      var visit := pass.Visit(order[i]);
      if visit.Failure? {
        GenuineRefutes(graph, visit.error);
        return Failure(visit.error);
      }
      i := i + 1;
    }
    assert IsPlan(graph, pass.ordered);
    PlanMeansAcyclic(graph, pass.ordered);
    return Success(pass.ordered);
  }
}
