// Layered configuration: the recursive merge, the tables an environment spells out, and what a
// caller may rely on about their precedence.
module Settings {
  datatype Option<T> = None | Some(value: T)

  datatype Value = Leaf(text: string) | Table(entries: map<string, Value>)

  type Path = seq<string>

  type Entries = map<string, Value>

  // --- Looking a path up ---

  function At(value: Value, path: Path): Option<Value>
    decreases |path|
  {
    if path == [] then Some(value)
    else if value.Table? && path[0] in value.entries then At(value.entries[path[0]], path[1..])
    else None
  }

  function LeafAt(value: Value, path: Path): Option<string> {
    var found := At(value, path);
    if found.Some? && found.value.Leaf? then Some(found.value.text) else None
  }

  predicate TableAt(value: Value, path: Path) {
    At(value, path).Some? && At(value, path).value.Table?
  }

  // A value has a leaf on the way to a path, the end included.
  predicate LeafOn(value: Value, path: Path)
    decreases |path|
  {
    value.Leaf? || (path != [] && path[0] in value.entries && LeafOn(value.entries[path[0]], path[1..]))
  }

  // --- Merging ---

  function Merged(base: Entries, over: Entries): (r: Entries)
    ensures r.Keys == base.Keys + over.Keys
    decreases Table(over)
  {
    map k | k in base.Keys + over.Keys ::
      if k !in over then base[k]
      else if k in base && base[k].Table? &&
        over[k].Table? then assert over[k] == Table(over[k].entries); Table(Merged(base[k].entries, over[k].entries))
      else over[k]
  }

  function MergedValue(base: Value, over: Value): Value {
    if base.Table? && over.Table? then Table(Merged(base.entries, over.entries)) else over
  }

  method DeepMerge(base: Entries, over: Entries) returns (merged: Entries)
    ensures merged == Merged(base, over)
    decreases Table(over)
  {
    merged := base;
    var pending := over.Keys;
    while pending != {}
      invariant pending <= over.Keys
      invariant merged.Keys == base.Keys + (over.Keys - pending)
      invariant forall k :: k in merged ==>
        merged[k] == if k in over.Keys - pending then Merged(base, over)[k] else base[k]
      decreases pending
    {
      var key :| key in pending;
      var value := over[key];
      if key in merged && merged[key].Table? && value.Table? {
        var inner := DeepMerge(merged[key].entries, value.entries);
        merged := merged[key := Table(inner)];
      } else {
        merged := merged[key := value];
      }
      pending := pending - {key};
    }
  }

  lemma {:induction false} LeavesAreOn(value: Value, path: Path)
    ensures LeafAt(value, path).Some? ==> LeafOn(value, path)
    decreases |path|
  {
    if path != [] && value.Table? && path[0] in value.entries {
      LeavesAreOn(value.entries[path[0]], path[1..]);
    }
  }

  // What every path of a merge holds, for any two layers: the upper layer's leaf where it has one;
  // nothing where the upper layer has a leaf higher up or a table; the lower layer's leaf otherwise.
  lemma {:induction false} MergedLeaf(base: Value, over: Value, path: Path)
    requires base.Table? && over.Table?
    ensures LeafAt(MergedValue(base, over), path) ==
      if LeafOn(over, path) || TableAt(over, path) then LeafAt(over, path) else LeafAt(base, path)
    decreases |path|
  {
    if path != [] && path[0] in over.entries {
      var o := over.entries[path[0]];
      LeavesAreOn(o, path[1..]);
      if path[0] in base.entries {
        var b := base.entries[path[0]];
        assert MergedValue(base, over).entries[path[0]] == MergedValue(b, o);
        assert At(MergedValue(base, over), path) == At(MergedValue(b, o), path[1..]);
        assert At(base, path) == At(b, path[1..]) && At(over, path) == At(o, path[1..]);
        assert b.Leaf? && path[1..] != [] ==> At(b, path[1..]) == None;
        if b.Table? && o.Table? {
          MergedLeaf(b, o, path[1..]);
        }
      }
    }
  }

  // No layer puts a value where the other puts a table.
  ghost predicate Compatible(a: Value, b: Value) {
    forall path :: !(LeafAt(a, path).Some? && TableAt(b, path)) && !(TableAt(a, path) && LeafAt(b, path).Some?)
  }

  function Layered(file: Value, environment: Value, overrides: Value): Value {
    MergedValue(MergedValue(file, environment), overrides)
  }

  // Where one layer has a leaf above a path, a compatible one has no leaf at it.
  lemma {:induction false} NothingBelowALeaf(a: Value, b: Value, path: Path)
    requires Compatible(a, b) && LeafOn(a, path)
    ensures LeafAt(a, path).Some? || LeafAt(b, path).None?
    decreases |path|
  {
    if path == [] || a.Leaf? {
      assert LeafAt(a, []).Some? || path == [];
      assert a.Leaf? ==> !TableAt(b, []);
    } else if b.Table? && path[0] in b.entries {
      CompatibleBelow(a, b, path[0]);
      NothingBelowALeaf(a.entries[path[0]], b.entries[path[0]], path[1..]);
    }
  }

  lemma CompatibleBelow(a: Value, b: Value, key: string)
    requires Compatible(a, b) && a.Table? && b.Table? && key in a.entries && key in b.entries
    ensures Compatible(a.entries[key], b.entries[key])
  {
    forall path
      ensures !(LeafAt(a.entries[key], path).Some? && TableAt(b.entries[key], path))
      ensures !(TableAt(a.entries[key], path) && LeafAt(b.entries[key], path).Some?)
    {
      assert ([key] + path)[1..] == path;
      assert LeafAt(a, [key] + path) == LeafAt(a.entries[key], path);
      assert LeafAt(b, [key] + path) == LeafAt(b.entries[key], path);
    }
  }

  // The leaf of the upper of two compatible layers, or else of the lower.
  function Upper(upper: Option<string>, lower: Option<string>): Option<string> {
    if upper.Some? then upper else lower
  }

  lemma CompatibleLeaf(base: Value, over: Value, path: Path)
    requires base.Table? && over.Table? && Compatible(base, over)
    ensures LeafAt(MergedValue(base, over), path) == Upper(LeafAt(over, path), LeafAt(base, path))
  {
    MergedLeaf(base, over, path);
    LeavesAreOn(over, path);
    if LeafOn(over, path) {
      assert Compatible(over, base);
      NothingBelowALeaf(over, base, path);
    }
  }

  lemma MergeStaysCompatible(a: Value, b: Value, c: Value)
    requires a.Table? && b.Table? && Compatible(a, c) && Compatible(b, c)
    ensures Compatible(MergedValue(a, b), c)
  {
    forall path
      ensures !(LeafAt(MergedValue(a, b), path).Some? && TableAt(c, path))
      ensures !(TableAt(MergedValue(a, b), path) && LeafAt(c, path).Some?)
    {
      MergedLeaf(a, b, path);
      if TableAt(MergedValue(a, b), path) {
        MergedTable(a, b, path);
      }
    }
  }

  lemma {:induction false} MergedTable(a: Value, b: Value, path: Path)
    requires a.Table? && b.Table? && TableAt(MergedValue(a, b), path)
    ensures TableAt(a, path) || TableAt(b, path)
    decreases |path|
  {
    if path != [] && path[0] in a.entries && path[0] in b.entries {
      var x, y := a.entries[path[0]], b.entries[path[0]];
      assert MergedValue(a, b).entries[path[0]] == MergedValue(x, y);
      if x.Table? && y.Table? {
        MergedTable(x, y, path[1..]);
      }
    }
  }

  // With compatible layers every leaf comes from the highest layer that sets its path: explicit
  // overrides, then the environment, then the file.
  lemma HighestLayerWins(file: Value, environment: Value, overrides: Value, path: Path)
    requires file.Table? && environment.Table? && overrides.Table?
    requires Compatible(file, environment) && Compatible(file, overrides) && Compatible(environment, overrides)
    ensures LeafAt(Layered(file, environment, overrides), path) ==
      Upper(LeafAt(overrides, path), Upper(LeafAt(environment, path), LeafAt(file, path)))
  {
    MergeStaysCompatible(file, environment, overrides);
    CompatibleLeaf(MergedValue(file, environment), overrides, path);
    CompatibleLeaf(file, environment, path);
  }

  // --- When merging is associative ---

  // A table has every key of the one below it, at every depth where both have tables.
  predicate AddsNothing(lower: Value, upper: Value)
    requires lower.Table? && upper.Table?
    decreases lower
  {
    forall k :: k in lower.entries ==>
      && k in upper.entries
      && (lower.entries[k].Table? && upper.entries[k].Table? ==> AddsNothing(lower.entries[k], upper.entries[k]))
  }

  lemma {:induction false} AddsNothingExactly(lower: Value, upper: Value)
    requires lower.Table? && upper.Table?
    ensures AddsNothing(lower, upper) <==> MergedValue(lower, upper) == upper
    decreases lower
  {
    var merged := MergedValue(lower, upper);
    forall k | k in lower.entries && k in upper.entries
      ensures merged.entries[k] == upper.entries[k] <==>
        (lower.entries[k].Table? && upper.entries[k].Table? ==> AddsNothing(lower.entries[k], upper.entries[k]))
    {
      if lower.entries[k].Table? && upper.entries[k].Table? {
        AddsNothingExactly(lower.entries[k], upper.entries[k]);
        assert merged.entries[k] == MergedValue(lower.entries[k], upper.entries[k]);
      }
    }
    if AddsNothing(lower, upper) {
      assert merged.entries.Keys == upper.entries.Keys;
      assert merged.entries == upper.entries;
    } else {
      var k :| k in lower.entries && (k !in upper.entries
        || (lower.entries[k].Table? && upper.entries[k].Table? && !AddsNothing(lower.entries[k], upper.entries[k])));
      assert k in merged.entries;
    }
  }

  // The one obstacle, at some path all three set: a value between two tables, where the lower table
  // would bring something the upper one does not have.
  predicate Associates(x: Value, y: Value, z: Value)
    decreases x
  {
    if !(x.Table? && z.Table?) then true
    else if y.Leaf? then AddsNothing(x, z)
    else forall k :: k in x.entries && k in y.entries && k in z.entries ==>
      Associates(x.entries[k], y.entries[k], z.entries[k])
  }

  lemma {:induction false} AssociativeExactly(x: Value, y: Value, z: Value)
    ensures MergedValue(MergedValue(x, y), z) == MergedValue(x, MergedValue(y, z)) <==> Associates(x, y, z)
    decreases x
  {
    if x.Table? && y.Leaf? && z.Table? {
      AddsNothingExactly(x, z);
    }
    if x.Table? && y.Table? && z.Table? {
      var left, right := MergedValue(MergedValue(x, y), z), MergedValue(x, MergedValue(y, z));
      assert left.entries.Keys == right.entries.Keys;
      forall k | k in left.entries
        ensures (k in x.entries && k in y.entries && k in z.entries) || left.entries[k] == right.entries[k]
        ensures k in x.entries && k in y.entries && k in z.entries ==>
          (left.entries[k] == right.entries[k] <==> Associates(x.entries[k], y.entries[k], z.entries[k]))
      {
        if k in x.entries && k in y.entries && k in z.entries {
          var a, b, c := x.entries[k], y.entries[k], z.entries[k];
          assert left.entries[k] == MergedValue(MergedValue(a, b), c);
          assert right.entries[k] == MergedValue(a, MergedValue(b, c));
          AssociativeExactly(a, b, c);
        }
      }
      assert left == right <==> forall k :: k in left.entries ==> left.entries[k] == right.entries[k];
    }
  }

  // Compatible layers may be merged in any grouping.
  lemma {:induction false} CompatibleAssociates(x: Value, y: Value, z: Value)
    requires Compatible(x, y) && Compatible(y, z)
    ensures Associates(x, y, z)
    decreases x
  {
    if x.Table? && z.Table? {
      assert TableAt(x, []) && (y.Leaf? ==> LeafAt(y, []).Some?);
      forall k | y.Table? && k in x.entries && k in y.entries &&
        k in z.entries ensures Associates(x.entries[k], y.entries[k], z.entries[k]) {
        CompatibleBelow(x, y, k);
        CompatibleBelow(y, z, k);
        CompatibleAssociates(x.entries[k], y.entries[k], z.entries[k]);
      }
    }
  }

  // It is not associative in general: a value in between hides the lower table from one grouping only.
  lemma NotAssociative()
    ensures var x, y, z := Table(map["a" := Table(map["b" := Leaf("1")])]), Table(map["a" := Leaf("2")]),
      Table(map["a" := Table(map[])]);
      && LeafAt(MergedValue(MergedValue(x, y), z), ["a", "b"]) == None
      && LeafAt(MergedValue(x, MergedValue(y, z)), ["a", "b"]) == Some("1")
  {
    var x, y, z := Table(map["a" := Table(map["b" := Leaf("1")])]), Table(map["a" := Leaf("2")]),
      Table(map["a" := Table(map[])]);
    assert MergedValue(MergedValue(x, y), z).entries["a"] == Table(map[]);
    var right := MergedValue(x, MergedValue(y, z));
    assert right.entries["a"] == Table(Merged(map["b" := Leaf("1")], map[]));
    assert right.entries["a"].entries["b"] == Leaf("1");
    assert ["a", "b"][1..] == ["b"] && ["b"][1..] == [];
  }
}
