// The dependency walk behind `check --why`: bounded, and complete exactly where no cycle is reachable.
module Explain {
  import opened Providers

  // --- The whole of what a contract needs ---

  datatype Tree = Node(contract: Contract, children: seq<Tree>)

  // Every registered contract is followed by all of its dependencies in order, and every other by none.
  ghost predicate Full(g: Graph, tree: Tree)
    decreases tree
  {
    if tree.contract in g then
      && |tree.children| == |g[tree.contract].dependencies|
      && forall k :: 0 <= k < |tree.children| ==>
        tree.children[k].contract == g[tree.contract].dependencies[k] && Full(g, tree.children[k])
    else tree.children == []
  }

  function Height(tree: Tree): nat {
    Tallest(tree.children)
  }

  function Tallest(trees: seq<Tree>): (h: nat)
    ensures forall k :: 0 <= k < |trees| ==> Height(trees[k]) < h
  {
    if trees == [] then 0
    else
      var first, rest := Height(trees[0]) + 1, Tallest(trees[1..]);
      if first > rest then first else rest
  }

  lemma {:induction false} OneFullTree(g: Graph, a: Tree, b: Tree)
    requires Full(g, a) && Full(g, b) && a.contract == b.contract
    ensures a == b
    decreases a
  {
    forall k | 0 <= k < |a.children| ensures |b.children| == |a.children| && a.children[k] == b.children[k] {
      OneFullTree(g, a.children[k], b.children[k]);
    }
    assert a.children == b.children;
  }

  // A contract that some path leads back to.
  ghost predicate Repeats(g: Graph, c: Contract, path: seq<Contract>) {
    path != [] && path[0] == c && IsChain(g, path) && exists i, j :: 0 <= i < j < |path| && path[i] == path[j]
  }

  ghost predicate ReachesCycle(g: Graph, c: Contract) {
    exists path :: Repeats(g, c, path)
  }

  lemma {:induction false} ChainLowersHeight(g: Graph, tree: Tree, path: seq<Contract>) returns (below: Tree)
    requires Full(g, tree) && path != [] && path[0] == tree.contract && IsChain(g, path)
    ensures Full(g, below) && below.contract == path[|path| - 1] && Height(below) + |path| - 1 <= Height(tree)
    decreases |path|
  {
    if |path| == 1 {
      below := tree;
    } else {
      assert Link(g, path, 0);
      var k :| 0 <= k < |tree.children| && g[path[0]].dependencies[k] == path[1];
      TailIsChain(g, path);
      below := ChainLowersHeight(g, tree.children[k], path[1..]);
    }
  }

  lemma TailIsChain(g: Graph, path: seq<Contract>)
    requires path != [] && IsChain(g, path)
    ensures IsChain(g, path[1..])
  {
    forall i | 0 <= i < |path[1..]| - 1 ensures Link(g, path[1..], i) {
      assert Link(g, path, i + 1);
    }
  }

  lemma PartIsChain(g: Graph, path: seq<Contract>, i: nat, j: nat)
    requires IsChain(g, path) && i <= j < |path|
    ensures IsChain(g, path[i..j + 1])
  {
    var part := path[i..j + 1];
    forall k | 0 <= k < |part| - 1 ensures Link(g, part, k) {
      assert Link(g, path, i + k);
    }
  }

  // A contract with a full tree leads to no cycle.
  lemma FullTreesHaveNoCycle(g: Graph, tree: Tree)
    requires Full(g, tree)
    ensures !ReachesCycle(g, tree.contract)
  {
    forall path ensures !Repeats(g, tree.contract, path) {
      if path != [] && path[0] == tree.contract && IsChain(g, path) {
        forall i, j | 0 <= i < j < |path| ensures path[i] != path[j] {
          PartIsChain(g, path, 0, i);
          PartIsChain(g, path, i, j);
          var upper := ChainLowersHeight(g, tree, path[0..i + 1]);
          var lower := ChainLowersHeight(g, upper, path[i..j + 1]);
          if lower.contract == upper.contract {
            OneFullTree(g, lower, upper);
          }
        }
      }
    }
  }

  // --- The bounded walk ---

  // The tree a walk sees that may go `remaining` levels down.
  function Seen(g: Graph, c: Contract, remaining: int): Tree
    decreases if remaining > 0 then remaining else 0
  {
    if remaining <= 0 || c !in g then Node(c, [])
    else
      var needs := g[c].dependencies;
      Node(c, seq(|needs|, k requires 0 <= k < |needs| => Seen(g, needs[k], remaining - 1)))
  }

  lemma {:induction false} Pigeonhole(path: seq<Contract>, names: set<Contract>)
    requires forall i :: 0 <= i < |path| ==> path[i] in names
    requires forall i, j :: 0 <= i < j < |path| ==> path[i] != path[j]
    ensures |path| <= |names|
    decreases |path|
  {
    if path != [] {
      var n := |path| - 1;
      assert forall i :: 0 <= i < n ==> path[..n][i] == path[i];
      Pigeonhole(path[..n], names - {path[n]});
    }
  }

  // A path without repetition is no longer than there are providers, so a walk of that many levels
  // is never cut short.
  lemma {:induction false} SeenIsFull(g: Graph, path: seq<Contract>, remaining: int)
    requires path != [] && IsChain(g, path) && !ReachesCycle(g, path[0])
    requires remaining == |g| - (|path| - 1)
    ensures Full(g, Seen(g, path[|path| - 1], remaining))
    decreases if remaining > 0 then remaining else 0
  {
    var c := path[|path| - 1];
    if c in g {
      forall i | 0 <= i < |path| ensures path[i] in g.Keys {
        assert i < |path| - 1 ==> Link(g, path, i);
      }
      forall i, j | 0 <= i < j < |path| ensures path[i] != path[j] {
        assert !Repeats(g, path[0], path);
      }
      Pigeonhole(path, g.Keys);
      var needs := g[c].dependencies;
      forall k | 0 <= k < |needs| ensures Full(g, Seen(g, needs[k], remaining - 1)) &&
        Seen(g, needs[k], remaining - 1).contract == needs[k] {
        ExtendChain(g, path, needs[k]);
        SeenIsFull(g, path + [needs[k]], remaining - 1);
      }
    }
  }

  // With as many levels as there are providers, the walk sees the full tree exactly when no cycle
  // is in reach.
  lemma SeesAllExactly(g: Graph, c: Contract)
    ensures Full(g, Seen(g, c, |g|)) <==> !ReachesCycle(g, c)
  {
    if ReachesCycle(g, c) {
      if Full(g, Seen(g, c, |g|)) {
        FullTreesHaveNoCycle(g, Seen(g, c, |g|));
      }
    } else {
      SeenIsFull(g, [c], |g|);
    }
  }

  lemma AcyclicReachesNone(g: Graph, c: Contract)
    requires Acyclic(g)
    ensures !ReachesCycle(g, c)
  {
    forall path ensures !Repeats(g, c, path) {
      if path != [] && path[0] == c && IsChain(g, path) {
        forall i, j | 0 <= i < j < |path| ensures path[i] != path[j] {
          PartIsChain(g, path, i, j);
          assert !IsCycle(g, path[i..j + 1]);
        }
      }
    }
  }

  // --- The lines ---

  // One line of output: how far it is indented, what it names, and whether that is registered.
  datatype Line = Line(depth: nat, contract: Contract, registered: bool)

  // The trees in preorder.
  function Lines(g: Graph, trees: seq<Tree>, depth: nat): seq<Line> {
    if trees == [] then []
    else
      [Line(depth, trees[0].contract, trees[0].contract in g)]
      + Lines(g, trees[0].children, depth + 1)
      + Lines(g, trees[1..], depth)
  }

  lemma {:induction false} LinesOfOneMore(g: Graph, trees: seq<Tree>, tree: Tree, depth: nat)
    ensures Lines(g, trees + [tree], depth)
         == Lines(g, trees, depth) + [Line(depth, tree.contract, tree.contract in g)] + Lines(g, tree.children,
           depth + 1)
    decreases |trees|
  {
    if trees == [] {
      assert [] + [tree] == [tree] && [tree][1..] == [];
    } else {
      LinesOfOneMore(g, trees[1..], tree, depth);
      assert (trees + [tree])[1..] == trees[1..] + [tree];
    }
  }

  datatype Error = Invalid(error: GraphError) | NothingRegistered | NotRegistered | Ambiguous

  datatype Explained = Explained(lines: seq<Line>) | Unexplained(error: Error)

  predicate EndsWith(name: string, suffix: string) {
    |suffix| <= |name| && name[|name| - |suffix|..] == suffix
  }

  // The registered contracts whose full name ends in a dot and the given one.
  function Candidates(g: Graph, contract: string): set<Contract> {
    set name | name in g && EndsWith(name, "." + contract)
  }

  class Walk {
    var lines: seq<Line>

    constructor (first: Line)
      ensures lines == [first]
    {
      lines := [first];
    }

    method DescribeDependencies(g: Graph, c: Contract, depth: nat, remaining: int)
      requires c in g
      modifies this
      ensures lines == old(lines) + Lines(g, Seen(g, c, remaining).children, depth)
      decreases if remaining > 0 then remaining else 0
    {
      if remaining <= 0 {
        return;
      }
      var needs := g[c].dependencies;
      ghost var trees, before := Seen(g, c, remaining).children, lines;
      for k := 0 to |needs|
        invariant lines == before + Lines(g, trees[..k], depth)
      {
        var dependency := needs[k];
        assert trees[..k + 1] == trees[..k] + [trees[k]];
        LinesOfOneMore(g, trees[..k], trees[k], depth);
        assert trees[k] == Seen(g, dependency, remaining - 1) && trees[k].contract == dependency;
        lines := lines + [Line(depth, dependency, dependency in g)];
        if dependency in g {
          DescribeDependencies(g, dependency, depth + 1, remaining - 1);
        } else {
          assert Lines(g, trees[k].children, depth + 1) == [];
        }
      }
      assert trees[..|needs|] == trees;
    }
  }

  // A name given in full wins; otherwise it has to be the end of exactly one.
  method MatchProvider(g: Graph, contract: string) returns (r: Option<Contract>, ambiguous: bool)
    ensures r.Some? ==> r.value in g
    ensures contract in g ==> r == Some(contract)
    ensures contract !in g ==> (r.Some? <==> |Candidates(g, contract)| == 1)
    ensures contract !in g && r.Some? ==> Candidates(g, contract) == {r.value}
    ensures r.None? ==> (ambiguous <==> Candidates(g, contract) != {})
  {
    if contract in g {
      return Some(contract), false;
    }
    var matches := Candidates(g, contract);
    if |matches| == 1 {
      var name :| name in matches;
      OnlyOne(matches, name);
      return Some(name), false;
    }
    r, ambiguous := None, matches != {};
  }

  datatype Option<T> = None | Some(value: T)

  lemma OnlyOne(names: set<Contract>, name: Contract)
    requires name in names && |names| == 1
    ensures names == {name}
  {
    assert names - {name} == {};
    assert names == {name} + (names - {name});
  }

  // What `check --why` prints about one contract of a registry: the full tree of what it needs.
  method ExplainContract(g: Graph, order: seq<Contract>, contract: string) returns (r: Explained, ghost tree: Tree)
    requires forall c :: c in g <==> c in order
    ensures r.Unexplained? && r.error.Invalid? <==> !WellFormed(g)
    ensures WellFormed(g) && g == map[] ==> r == Unexplained(NothingRegistered)
    ensures WellFormed(g) && g != map[] ==> (r.Explained? <==> contract in g || |Candidates(g, contract)| == 1)
    ensures WellFormed(g) && g != map[] && r.Unexplained? ==>
      r.error == if Candidates(g, contract) == {} then NotRegistered else Ambiguous
    ensures r.Unexplained? && r.error.Invalid? ==> Genuine(g, r.error.error)
    ensures r.Explained? ==> Full(g, tree) && tree.contract in g && r.lines == Lines(g, [tree], 0)
    ensures r.Explained? ==>
      if contract in g then tree.contract == contract else Candidates(g, contract) == {tree.contract}
  {
    tree := Node(contract, []);
    var validated := Validate(g, order);
    if validated.Failure? {
      return Unexplained(Invalid(validated.error)), tree;
    }
    if g == map[] {
      return Unexplained(NothingRegistered), tree;
    }
    var matched, ambiguous := MatchProvider(g, contract);
    if matched.None? {
      return Unexplained(if ambiguous then Ambiguous else NotRegistered), tree;
    }
    var c := matched.value;
    var walk := new Walk(Line(0, c, true));
    walk.DescribeDependencies(g, c, 1, |g|);
    tree := Seen(g, c, |g|);
    AcyclicReachesNone(g, c);
    SeesAllExactly(g, c);
    LinesOfOneMore(g, [], tree, 0);
    assert [] + [tree] == [tree];
    r := Explained(walk.lines);
  }
}
