// The tables that environment variables spell out, and the named sections of the merged settings.
module Environment {
  import opened Settings
  import Text

  const PREFIX := "XYBEROS_"
  const CONFIG_VARIABLE := "XYBEROS_CONFIG"

  datatype Error = InvalidName(name: string) | Conflict(name: string) | BadSection(name: string)

  datatype Result<T> = Success(value: T) | Failure(error: Error)

  datatype Variable = Variable(name: string, value: string)

  datatype Setting = Setting(path: Path, value: string)

  // --- Names ---

  function LowerChar(c: char): char {
    if 'A' <= c <= 'Z' then (c as int + 32) as char else c
  }

  function Lower(s: string): (r: string)
    ensures |r| == |s|
  {
    seq(|s|, k requires 0 <= k < |s| => LowerChar(s[k]))
  }

  // A name split at each double underscore, from the left.
  function Split(s: string): (parts: seq<string>)
    ensures parts != []
  {
    SplitFrom(s, 0)
  }

  function SplitFrom(s: string, k: nat): (parts: seq<string>)
    requires k <= |s|
    ensures parts != []
    decreases |s|, |s| - k
  {
    if k + 2 > |s| then [s]
    else if s[k] == '_' && s[k + 1] == '_' then [s[..k]] + SplitFrom(s[k + 2..], 0)
    else SplitFrom(s, k + 1)
  }

  function Join(parts: seq<string>): string
    requires parts != []
  {
    if |parts| == 1 then parts[0] else parts[0] + "__" + Join(parts[1..])
  }

  lemma {:induction false} JoinOfSplit(s: string, k: nat)
    requires k <= |s|
    ensures Join(SplitFrom(s, k)) == s
    decreases |s|, |s| - k
  {
    if k + 2 <= |s| {
      if s[k] == '_' && s[k + 1] == '_' {
        JoinOfSplit(s[k + 2..], 0);
        assert s == s[..k] + "__" + s[k + 2..];
      } else {
        JoinOfSplit(s, k + 1);
      }
    }
  }

  // No two underscores stand at this place.
  predicate NoSeparatorAt(s: string, k: nat) {
    k + 2 <= |s| ==> s[k] != '_' || s[k + 1] != '_'
  }

  // Parts that nothing but the separators between them could come from: no part holds one, and none but
  // the last ends in an underscore, which would be the separator's first.
  predicate ProperParts(parts: seq<string>) {
    forall k :: 0 <= k < |parts| ==> ProperPart(parts[k], k == |parts| - 1)
  }

  predicate ProperPart(part: string, last: bool) {
    && (forall j :: 0 <= j < |part| ==> NoSeparatorAt(part, j))
    && (!last && part != "" ==> part[|part| - 1] != '_')
  }

  lemma {:induction false} SplitIsProper(s: string, k: nat)
    requires k <= |s| && (forall j :: 0 <= j < k ==> NoSeparatorAt(s, j))
    ensures ProperParts(SplitFrom(s, k))
    decreases |s|, |s| - k
  {
    if k + 2 <= |s| {
      if s[k] == '_' && s[k + 1] == '_' {
        SplitIsProper(s[k + 2..], 0);
        var rest := SplitFrom(s[k + 2..], 0);
        assert k > 0 ==> NoSeparatorAt(s, k - 1);
        forall j | 0 <= j < k ensures NoSeparatorAt(s[..k], j) {
          assert NoSeparatorAt(s, j);
        }
        assert SplitFrom(s, k) == [s[..k]] + rest;
      } else {
        SplitIsProper(s, k + 1);
      }
    }
  }

  lemma {:induction false} SplitAfter(part: string, rest: string, k: nat)
    requires ProperPart(part, false) && k <= |part|
    ensures SplitFrom(part + "__" + rest, k) == [part] + SplitFrom(rest, 0)
    decreases |part| - k
  {
    var s := part + "__" + rest;
    if k == |part| {
      assert s[..k] == part && s[k + 2..] == rest;
    } else {
      assert NoSeparatorAt(part, k);
      assert k + 1 == |part| ==> s[k] != '_';
      SplitAfter(part, rest, k + 1);
    }
  }

  lemma {:induction false} SplitLast(part: string, k: nat)
    requires ProperPart(part, true) && k <= |part|
    ensures SplitFrom(part, k) == [part]
    decreases |part| - k
  {
    if k + 2 <= |part| {
      assert NoSeparatorAt(part, k);
      SplitLast(part, k + 1);
    }
  }

  // Splitting gives back exactly such parts, so it is the only way to read a name.
  lemma {:induction false} SplitOfJoin(parts: seq<string>)
    requires parts != []
    ensures Split(Join(parts)) == parts <==> ProperParts(parts)
    decreases |parts|
  {
    SplitIsProper(Join(parts), 0);
    if ProperParts(parts) {
      if |parts| == 1 {
        SplitLast(parts[0], 0);
      } else {
        assert ProperPart(parts[0], false);
        var rest := parts[1..];
        forall k | 0 <= k < |rest| ensures ProperPart(rest[k], k == |rest| - 1) {
          assert ProperPart(parts[k + 1], k + 1 == |parts| - 1);
        }
        SplitOfJoin(parts[1..]);
        SplitAfter(parts[0], Join(parts[1..]), 0);
      }
    }
  }

  lemma LowersLetters(c: char)
    ensures Lower("ABCDEFGHIJKLMNOPQRSTUVWXYZ") == "abcdefghijklmnopqrstuvwxyz"
    ensures c !in "ABCDEFGHIJKLMNOPQRSTUVWXYZ" ==> LowerChar(c) == c
  {
    var letters := "ABCDEFGHIJKLMNOPQRSTUVWXYZ";
    assert forall k :: 0 <= k < |letters| ==> letters[k] as int == 'A' as int + k;
    if 'A' <= c <= 'Z' {
      assert letters[c as int - 'A' as int] == c;
    }
  }

  predicate Relevant(name: string) {
    name != CONFIG_VARIABLE && PREFIX <= name
  }

  function PathOf(name: string): (path: Path)
    requires Relevant(name)
    ensures path != []
  {
    Split(Lower(name[|PREFIX|..]))
  }

  predicate ValidPath(path: Path) {
    forall k :: 0 <= k < |path| ==> path[k] != ""
  }

  // Which variables are settings, and which of those spell a path.
  lemma RelevantNames(name: string)
    ensures Relevant(name) <==> exists rest :: name == "XYBEROS_" + rest && rest != "CONFIG"
    ensures Relevant(name) ==> forall rest :: name == "XYBEROS_" + rest ==> PathOf(name) == Split(Lower(rest))
    ensures Relevant(name) ==> (ValidPath(PathOf(name)) <==> "" !in PathOf(name))
  {
    if PREFIX <= name {
      assert name == "XYBEROS_" + name[|PREFIX|..];
    }
    forall rest | name == "XYBEROS_" + rest
      ensures name[|PREFIX|..] == rest && (name == CONFIG_VARIABLE <==> rest == "CONFIG")
    {
      assert CONFIG_VARIABLE == "XYBEROS_" + "CONFIG";
      assert name == CONFIG_VARIABLE ==> rest == CONFIG_VARIABLE[|PREFIX|..] == "CONFIG";
    }
  }

  // Two variables mean the same path exactly when their names agree but for case.
  lemma SamePathSameName(a: string, b: string)
    requires Relevant(a) && Relevant(b)
    ensures PathOf(a) == PathOf(b) <==> Lower(a[|PREFIX|..]) == Lower(b[|PREFIX|..])
  {
    JoinOfSplit(Lower(a[|PREFIX|..]), 0);
    JoinOfSplit(Lower(b[|PREFIX|..]), 0);
  }

  // --- The tables ---

  // The table with one more setting. A value on the way is a conflict; a table in its place is lost.
  function Insert(table: Entries, path: Path, value: string): Option<Entries>
    requires path != []
    decreases |path|
  {
    if |path| == 1 then Some(table[path[0] := Leaf(value)])
    else
      var existing := if path[0] in table then table[path[0]] else Table(map[]);
      if existing.Leaf? then None
      else
        var inner := Insert(existing.entries, path[1..], value);
        if inner.None? then None else Some(table[path[0] := Table(inner.value)])
  }

  function Built(settings: seq<Setting>): Option<Entries>
    requires forall k :: 0 <= k < |settings| ==> settings[k].path != []
  {
    if settings == [] then Some(map[])
    else
      var n := |settings| - 1;
      var before := Built(settings[..n]);
      if before.None? then None else Insert(before.value, settings[n].path, settings[n].value)
  }

  predicate Below(short: Path, long: Path) {
    |short| < |long| && short == long[..|short|]
  }

  // Inserting succeeds unless a value is on the way. It sets its own path, takes away what was below
  // it, and changes no other.
  lemma {:induction false} Inserted(table: Entries, path: Path, value: string, other: Path)
    requires path != []
    ensures Insert(table, path, value).Some? <==> !LeafOn(Table(table), path[..|path| - 1])
    ensures Insert(table, path, value).Some? ==>
      LeafAt(Table(Insert(table, path, value).value), other) ==
        if other == path then Some(value) else if Below(path, other) then None else LeafAt(Table(table), other)
    decreases |path|
  {
    if |path| == 1 {
      assert path == [path[0]] && path[..0] == [];
      var inserted := Table(table[path[0] := Leaf(value)]);
      if other == [] {
        assert !Below(path, other);
      } else if other[0] == path[0] {
        assert other == [other[0]] + other[1..];
        assert At(inserted, other) == At(Leaf(value), other[1..]);
        assert Below(path, other) <==> other[1..] != [];
      } else {
        assert !Below(path, other) && At(inserted, other) == At(Table(table), other);
      }
    } else {
      var existing := if path[0] in table then table[path[0]] else Table(map[]);
      var rest := path[1..];
      assert path[..|path| - 1][1..] == rest[..|rest| - 1];
      assert path[0] !in table ==> !LeafOn(Table(map[]), rest[..|rest| - 1]);
      if existing.Table? {
        Inserted(existing.entries, rest, value, if other != [] then other[1..] else []);
        if other != [] && other[0] == path[0] {
          assert other == [other[0]] + other[1..] && path == [path[0]] + rest;
          BelowTail(path, other);
        }
      }
    }
  }

  lemma BelowTail(path: Path, other: Path)
    requires path != [] && other != [] && path[0] == other[0]
    ensures Below(path, other) <==> Below(path[1..], other[1..])
  {
    if |path| < |other| {
      assert other[..|path|] == [other[0]] + other[1..][..|path| - 1];
      assert path == [path[0]] + path[1..];
    }
  }

  // No path stands above another one, and a path has one value.
  predicate PrefixFree(settings: seq<Setting>) {
    forall i, j :: 0 <= i < |settings| && 0 <= j < |settings| ==>
      !Below(settings[i].path, settings[j].path) &&
        (settings[i].path == settings[j].path ==> settings[i].value == settings[j].value)
  }

  predicate NonEmptyPaths(settings: seq<Setting>) {
    forall k :: 0 <= k < |settings| ==> settings[k].path != []
  }

  ghost predicate ReturnsEvery(settings: seq<Setting>)
    requires NonEmptyPaths(settings)
  {
    && Built(settings).Some?
    && forall k :: 0 <= k < |settings| ==>
      LeafAt(Table(Built(settings).value), settings[k].path) == Some(settings[k].value)
  }

  lemma {:induction false} LeafOnHasLeaf(value: Value, path: Path) returns (short: Path)
    requires LeafOn(value, path)
    ensures short <= path && LeafAt(value, short).Some?
    decreases |path|
  {
    if value.Leaf? {
      short := [];
    } else {
      var below := LeafOnHasLeaf(value.entries[path[0]], path[1..]);
      short := [path[0]] + below;
      assert short[1..] == below;
    }
  }

  lemma {:induction false} NothingBelow(value: Value, short: Path, long: Path)
    requires LeafAt(value, short).Some? && Below(short, long)
    ensures LeafAt(value, long).None?
    decreases |short|
  {
    if short != [] {
      BelowTail(short, long);
      NothingBelow(value.entries[short[0]], short[1..], long[1..]);
    }
  }

  // What a prefix-free environment builds holds these settings and no others, whatever their order.
  lemma {:induction false} BuiltHolds(settings: seq<Setting>)
    requires NonEmptyPaths(settings) && PrefixFree(settings)
    ensures Built(settings).Some?
    ensures forall path, value :: LeafAt(Table(Built(settings).value), path) == Some(value) <==>
      Setting(path, value) in settings
  {
    if settings == [] {
      forall path ensures LeafAt(Table(map[]), path).None? {}
    } else {
      var n := |settings| - 1;
      var earlier, last := settings[..n], settings[n];
      assert settings == earlier + [last];
      assert forall k :: 0 <= k < n ==> settings[k] == earlier[k];
      BuiltHolds(earlier);
      var before := Built(earlier).value;
      hide Insert, LeafAt, Below, LeafOn;
      OnTheWay(earlier, last, before);
      hide PrefixFree;
      forall path, value
        ensures LeafAt(Table(Built(settings).value), path) == Some(value) <==> Setting(path, value) in settings
      {
        Inserted(before, last.path, last.value, path);
        HoldsOneMore(settings, path, value);
      }
    }
  }

  lemma OnTheWay(earlier: seq<Setting>, last: Setting, before: Entries)
    requires last.path != [] && PrefixFree(earlier + [last])
    requires forall path, value :: LeafAt(Table(before), path) == Some(value) <==> Setting(path, value) in earlier
    ensures Insert(before, last.path, last.value).Some?
  {
    var all, above := earlier + [last], last.path[..|last.path| - 1];
    Inserted(before, last.path, last.value, []);
    if LeafOn(Table(before), above) {
      var short := LeafOnHasLeaf(Table(before), above);
      var setting := Setting(short, LeafAt(Table(before), short).value);
      assert setting in earlier;
      var i :| 0 <= i < |earlier| && earlier[i] == setting;
      assert all[i] == setting && all[|earlier|] == last;
      assert Below(short, last.path);
    }
  }

  lemma HoldsOneMore(settings: seq<Setting>, path: Path, value: string)
    requires settings != [] && PrefixFree(settings)
    ensures var n := |settings| - 1;
      Setting(path, value) in settings <==>
        if path == settings[n].path then value == settings[n].value
        else !Below(settings[n].path, path) && Setting(path, value) in settings[..n]
  {
    var n := |settings| - 1;
    if Setting(path, value) in settings {
      var i :| 0 <= i < |settings| && settings[i] == Setting(path, value);
      assert !Below(settings[n].path, settings[i].path);
    }
  }

  // An environment gives back all of its settings exactly when their paths are prefix-free.
  lemma ReturnsEveryExactly(settings: seq<Setting>)
    requires NonEmptyPaths(settings)
    ensures ReturnsEvery(settings) <==> PrefixFree(settings)
  {
    if PrefixFree(settings) {
      BuiltHolds(settings);
      forall k | 0 <= k < |settings| ensures LeafAt(Table(Built(settings).value), settings[k].path) ==
        Some(settings[k].value) {
        assert Setting(settings[k].path, settings[k].value) == settings[k] && settings[k] in settings;
      }
    }
    if ReturnsEvery(settings) {
      var table := Table(Built(settings).value);
      forall i, j | 0 <= i < |settings| && 0 <= j < |settings|
        ensures !Below(settings[i].path, settings[j].path) &&
          (settings[i].path == settings[j].path ==> settings[i].value == settings[j].value)
      {
        assert LeafAt(table, settings[i].path).Some? && LeafAt(table, settings[j].path).Some?;
        if Below(settings[i].path, settings[j].path) {
          NothingBelow(table, settings[i].path, settings[j].path);
        }
      }
    }
  }

  // Otherwise what is lost depends on the order: one way a setting silently disappears, the other
  // way the same two settings are refused.
  lemma OrderDecides()
    ensures var deep, shallow := Setting(["plugins", "metrics"], "on"), Setting(["plugins"], "off");
      && Built([shallow, deep]).None?
      && Built([deep, shallow]) == Some(map["plugins" := Leaf("off")])
  {
    var deep, shallow := Setting(["plugins", "metrics"], "on"), Setting(["plugins"], "off");
    BuiltTwo(shallow, deep);
    BuiltTwo(deep, shallow);
    assert deep.path[1..] == ["metrics"];
    assert Insert(map[], ["metrics"], "on") == Some(map["metrics" := Leaf("on")]);
    assert Insert(map[], shallow.path, "off") == Some(map["plugins" := Leaf("off")]);
    var nested: Entries := map["plugins" := Table(map["metrics" := Leaf("on")])];
    assert nested["plugins" := Leaf("off")] == map["plugins" := Leaf("off")];
    assert Insert(map[], deep.path, "on") == Some(map["plugins" := Table(map["metrics" := Leaf("on")])]);
    assert Insert(map["plugins" := Leaf("off")], deep.path, "on").None?;
  }

  lemma BuiltTwo(first: Setting, second: Setting)
    requires first.path != [] && second.path != []
    ensures Built([first, second]) ==
      var before := Insert(map[], first.path, first.value);
      if before.None? then None else Insert(before.value, second.path, second.value)
  {
    assert [first, second][..1] == [first] && [first][..0] == [];
    assert Built([first]) == Insert(map[], first.path, first.value);
  }

  // --- Reading an environment ---

  // The settings among some variables, in order.
  function Chosen(environ: seq<Variable>): (r: seq<Setting>)
    ensures NonEmptyPaths(r)
  {
    if environ == [] then []
    else
      var n := |environ| - 1;
      Chosen(environ[..n]) + if Relevant(environ[n].name)
        then [Setting(PathOf(environ[n].name), environ[n].value)] else []
  }

  predicate ValidNames(environ: seq<Variable>) {
    forall k :: 0 <= k < |environ| && Relevant(environ[k].name) ==> ValidPath(PathOf(environ[k].name))
  }

  // The variable that stops the reading: the first whose name spells no path, or one that does and
  // conflicts with those before it.
  ghost predicate FailsAt(environ: seq<Variable>, k: nat, error: Error)
    requires k < |environ|
  {
    var name := environ[k].name;
    && Relevant(name) && ValidNames(environ[..k]) && Built(Chosen(environ[..k])).Some?
    && if "" in PathOf(name) then error == InvalidName(name)
       else error == Conflict(name) && Built(Chosen(environ[..k + 1])).None?
  }

  method EnvironmentValues(environ: seq<Variable>) returns (r: Result<Entries>)
    ensures r.Success? <==> ValidNames(environ) && Built(Chosen(environ)).Some?
    ensures r.Success? ==> Built(Chosen(environ)) == Some(r.value)
    ensures ValidNames(environ) && PrefixFree(Chosen(environ)) ==> r.Success?
    ensures r.Success? ==>
      ((forall k :: 0 <= k < |Chosen(environ)| ==>
        LeafAt(Table(r.value), Chosen(environ)[k].path) == Some(Chosen(environ)[k].value))
       <==> PrefixFree(Chosen(environ)))
    ensures r.Failure? ==> exists k :: 0 <= k < |environ| && FailsAt(environ, k, r.error)
  {
    ReturnsEveryExactly(Chosen(environ));
    var values: Entries := map[];
    for k := 0 to |environ|
      invariant ValidNames(environ[..k])
      invariant Built(Chosen(environ[..k])) == Some(values)
    {
      ChosenOneMore(environ, k);
      var name := environ[k].name;
      if Relevant(name) {
        var path := PathOf(name);
        if !ValidPath(path) {
          assert FailsAt(environ, k, InvalidName(name));
          return Failure(InvalidName(name));
        }
        var inserted := Insert(values, path, environ[k].value);
        if inserted.None? {
          NeverBuiltAgain(environ, k + 1);
          assert FailsAt(environ, k, Conflict(name));
          return Failure(Conflict(name));
        }
        values := inserted.value;
      }
    }
    assert environ[..|environ|] == environ;
    r := Success(values);
  }

  lemma ChosenOneMore(environ: seq<Variable>, k: nat)
    requires k < |environ|
    ensures Built(Chosen(environ[..k + 1])) ==
      if !Relevant(environ[k].name) || Built(Chosen(environ[..k])).None? then Built(Chosen(environ[..k]))
      else Insert(Built(Chosen(environ[..k])).value, PathOf(environ[k].name), environ[k].value)
  {
    var before := Chosen(environ[..k]);
    assert environ[..k + 1][..k] == environ[..k];
    if Relevant(environ[k].name) {
      var setting := Setting(PathOf(environ[k].name), environ[k].value);
      assert Chosen(environ[..k + 1]) == before + [setting];
      assert (before + [setting])[..|before|] == before;
    } else {
      assert before + [] == before;
    }
  }

  lemma {:induction false} NeverBuiltAgain(environ: seq<Variable>, k: nat)
    requires k <= |environ| && Built(Chosen(environ[..k])).None?
    ensures Built(Chosen(environ)).None?
    decreases |environ| - k
  {
    if k == |environ| {
      assert environ[..k] == environ;
    } else {
      ChosenOneMore(environ, k);
      NeverBuiltAgain(environ, k + 1);
    }
  }

  // --- Sections ---

  datatype Section = Section(name: string, value: Value)

  predicate ValidSection(section: Section) {
    section.value.Table? && !Text.Blank(section.name)
  }

  // Something in the name is not white space.
  predicate HasName(name: string) {
    exists j :: 0 <= j < |name| && !Text.IsSpace(name[j])
  }

  // The sections of a table under their lower-case names; of those whose names agree, the last one.
  function SectionsOf(sections: seq<Section>): map<string, Entries>
    requires forall k :: 0 <= k < |sections| ==> sections[k].value.Table?
  {
    if sections == [] then map[]
    else
      var n := |sections| - 1;
      SectionsOf(sections[..n])[Lower(sections[n].name) := sections[n].value.entries]
  }

  predicate IsBad(section: Section, error: Error) {
    error == BadSection(section.name) && !(section.value.Table? && HasName(section.name))
  }

  method SectionsFrom(sections: seq<Section>) returns (r: Result<map<string, Entries>>)
    ensures r.Success? <==> forall k :: 0 <= k < |sections| ==> sections[k].value.Table? && HasName(sections[k].name)
    ensures r.Success? ==> r.value == SectionsOf(sections)
    ensures r.Failure? ==> exists k :: 0 <= k < |sections| && IsBad(sections[k], r.error)
  {
    var found: map<string, Entries> := map[];
    for k := 0 to |sections|
      invariant forall j :: 0 <= j < k ==> ValidSection(sections[j])
      invariant found == SectionsOf(sections[..k])
    {
      if !ValidSection(sections[k]) {
        return Failure(BadSection(sections[k].name));
      }
      assert sections[..k + 1][..k] == sections[..k];
      found := found[Lower(sections[k].name) := sections[k].value.entries];
    }
    assert sections[..|sections|] == sections;
    r := Success(found);
  }

  predicate SameName(a: Section, b: Section) {
    Lower(a.name) == Lower(b.name)
  }

  // A section is found under its name exactly as long as no later one has that name in other letters
  // with other contents; two such sections are never merged.
  lemma {:induction false} SectionIsFound(sections: seq<Section>, k: nat)
    requires k < |sections| && forall j :: 0 <= j < |sections| ==> sections[j].value.Table?
    ensures Lower(sections[k].name) in SectionsOf(sections)
    ensures (forall j :: k < j < |sections| ==> !SameName(sections[j], sections[k])) ==>
      SectionsOf(sections)[Lower(sections[k].name)] == sections[k].value.entries
    ensures exists j ::
      && k <= j < |sections| && SameName(sections[j], sections[k])
      && SectionsOf(sections)[Lower(sections[k].name)] == sections[j].value.entries
  {
    hide Lower;
    var n := |sections| - 1;
    if k == n {
      assert SameName(sections[n], sections[k]);
    } else {
      var shorter := sections[..n];
      SectionIsFound(shorter, k);
      var j :| k <= j < |shorter| && SameName(shorter[j], shorter[k]) &&
        SectionsOf(shorter)[Lower(shorter[k].name)] == shorter[j].value.entries;
      assert shorter[j] == sections[j] && shorter[k] == sections[k];
      if SameName(sections[n], sections[k]) {
        assert SectionsOf(sections)[Lower(sections[k].name)] == sections[n].value.entries;
      } else {
        assert SameName(sections[j], sections[k]) &&
          SectionsOf(sections)[Lower(sections[k].name)] == sections[j].value.entries;
      }
    }
  }
}
