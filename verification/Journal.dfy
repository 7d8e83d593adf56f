// The journal file's schema and its forward-only migrations.
module Journal {
  datatype Option<T> = None | Some(value: T)

  // A file: its tables, whether the metadata table is among them, and the two values that table holds.
  datatype File<S> = File(tables: S, hasMetadata: bool, version: Option<int>, created: Option<int>)

  // The steps a package knows, by the version they lead to, and what a statement does to a file's
  // tables: it may create the metadata table, and it may fail.
  datatype Package<!S, !Q> = Package(
    target: int, steps: map<int, seq<Q>>, apply: (S, bool, Q) -> Option<(S, bool)>)

  datatype Error = Newer | StepFailed

  datatype Result<T> = Success(value: T) | Failure(error: Error)

  // The version a file records, or none when it has no metadata yet.
  function Recorded<S>(file: File<S>): Option<int> {
    if file.hasMetadata then file.version else None
  }

  function First<S>(file: File<S>): int {
    if Recorded(file).None? then 1 else Recorded(file).value + 1
  }

  function Statements<S, Q>(package: Package<S, Q>, statements: seq<Q>, tables: S, hasMetadata: bool)
      : Option<(S, bool)> {
    if statements == [] then Some((tables, hasMetadata))
    else
      var after := package.apply(tables, hasMetadata, statements[0]);
      if after.None? then None else Statements(package, statements[1..], after.value.0, after.value.1)
  }

  // One step: its statements, and the version it leads to in the metadata table, which has to exist.
  function Step<S, Q>(package: Package<S, Q>, version: int, file: File<S>): Option<File<S>> {
    if version !in package.steps then None
    else
      var after := Statements(package, package.steps[version], file.tables, file.hasMetadata);
      if after.None? || !after.value.1 then None
      else Some(File(after.value.0, true, Some(version), if file.hasMetadata then file.created else None))
  }

  // All steps from one version up to another, or nothing if any of them fails.
  function Steps<S, Q>(package: Package<S, Q>, from: int, upto: int, file: File<S>): Option<File<S>>
    decreases upto - from
  {
    if from > upto then Some(file)
    else
      var after := Step(package, from, file);
      if after.None? then None else Steps(package, from + 1, upto, after.value)
  }

  // The moment of creation is written once and kept.
  function Stamped<S>(file: File<S>, now: int): Option<File<S>> {
    if !file.hasMetadata then None
    else Some(file.(created := if file.created.None? then Some(now) else file.created))
  }

  // What a migration writes, given the version it read before.
  function Written<S, Q>(package: Package<S, Q>, first: int, file: File<S>, now: int): Option<File<S>> {
    var stepped := Steps(package, first, package.target, file);
    if stepped.None? then None else Stamped(stepped.value, now)
  }

  // --- Every statement runs, in order ---

  // What a list of statements does one after the other: what the tables are before the first one, after
  // each, and after the last.
  ghost predicate Ran<S, Q>(package: Package<S, Q>, statements: seq<Q>, trace: seq<(S, bool)>) {
    && |trace| == |statements| + 1
    && forall k :: 0 <= k < |statements| ==>
         package.apply(trace[k].0, trace[k].1, statements[k]) == Some(trace[k + 1])
  }

  lemma {:induction false} StatementsRan<S, Q>(package: Package<S, Q>, statements: seq<Q>, tables: S,
      hasMetadata: bool)
      returns (trace: seq<(S, bool)>)
    requires Statements(package, statements, tables, hasMetadata).Some?
    ensures Ran(package, statements, trace) && trace[0] == (tables, hasMetadata)
    ensures Statements(package, statements, tables, hasMetadata) == Some(trace[|statements|])
  {
    if statements == [] {
      trace := [(tables, hasMetadata)];
    } else {
      var after := package.apply(tables, hasMetadata, statements[0]).value;
      var rest := StatementsRan(package, statements[1..], after.0, after.1);
      trace := [(tables, hasMetadata)] + rest;
    }
  }

  lemma {:induction false} RanIsStatements<S, Q>(package: Package<S, Q>, statements: seq<Q>, trace: seq<(S, bool)>)
    requires Ran(package, statements, trace)
    ensures Statements(package, statements, trace[0].0, trace[0].1) == Some(trace[|statements|])
    decreases |statements|
  {
    if statements != [] {
      assert package.apply(trace[0].0, trace[0].1, statements[0]) == Some(trace[1]);
      RanIsStatements(package, statements[1..], trace[1..]);
    }
  }

  // A step succeeds exactly if all its statements run and leave a metadata table, in which it records its
  // version; a creation time is kept if there was a table to keep it in.
  lemma StepRuns<S, Q>(package: Package<S, Q>, version: int, file: File<S>, after: File<S>)
    ensures Step(package, version, file) == Some(after) <==>
      && version in package.steps && after.hasMetadata && after.version == Some(version)
      && after.created == (if file.hasMetadata then file.created else None)
      && exists trace ::
           && Ran(package, package.steps[version], trace)
           && trace[0] == (file.tables, file.hasMetadata) && trace[|trace| - 1] == (after.tables, true)
  {
    if Step(package, version, file) == Some(after) {
      var trace := StatementsRan(package, package.steps[version], file.tables, file.hasMetadata);
    }
    if version in package.steps {
      forall trace | Ran(package, package.steps[version], trace) && trace[0] == (file.tables, file.hasMetadata)
        ensures Statements(package, package.steps[version], file.tables, file.hasMetadata) ==
          Some(trace[|trace| - 1])
      {
        RanIsStatements(package, package.steps[version], trace);
      }
    }
  }

  // --- Steps compose ---

  lemma {:induction false} StepsCompose<S, Q>(package: Package<S, Q>, from: int, middle: int, upto: int, file: File<S>)
    requires from <= middle + 1 && middle <= upto
    ensures Steps(package, from, upto, file) ==
      var half := Steps(package, from, middle, file);
      if half.None? then None else Steps(package, middle + 1, upto, half.value)
    decreases middle - from
  {
    if from <= middle {
      var after := Step(package, from, file);
      if after.Some? {
        StepsCompose(package, from + 1, middle, upto, after.value);
      }
    }
  }

  lemma {:induction false} StepsRecordTheLast<S, Q>(package: Package<S, Q>, from: int, upto: int, file: File<S>)
    requires from <= upto && Steps(package, from, upto, file).Some?
    ensures Recorded(Steps(package, from, upto, file).value) == Some(upto)
    decreases upto - from
  {
    if from < upto {
      StepsRecordTheLast(package, from + 1, upto, Step(package, from, file).value);
    }
  }

  // When a file was created has no bearing on its steps, and they do not change it.
  lemma {:induction false} StepsKeepCreation<S, Q>(package: Package<S, Q>, from: int, upto: int,
      file: File<S>, created: Option<int>)
    requires file.hasMetadata
    ensures Steps(package, from, upto, file.(created := created)) ==
      var plain := Steps(package, from, upto, file);
      if plain.None? then None else Some(plain.value.(created := created))
    ensures Steps(package, from, upto, file).Some? ==> Steps(package, from, upto, file).value.created == file.created
    decreases upto - from
  {
    if from <= upto {
      var after := Step(package, from, file);
      if after.Some? {
        assert Step(package, from, file.(created := created)) == Some(after.value.(created := created));
        StepsKeepCreation(package, from + 1, upto, after.value, created);
      }
    }
  }

  // A file that some package knowing a prefix of the steps built from an empty one, at some time.
  ghost predicate BuiltBy<S, Q>(package: Package<S, Q>, tables: S, version: int, at: int, file: File<S>) {
    Written(package.(target := version), 1, File(tables, false, None, None), at) == Some(file)
  }

  // Wherever a file stopped on the way, migrating it leads to the very tables and version that
  // migrating an empty one leads to, and keeps the time it was created.
  lemma PathsMeet<S, Q>(package: Package<S, Q>, tables: S, version: int, at: int, file: File<S>, now: int)
    requires 1 <= version <= package.target && BuiltBy(package, tables, version, at, file)
    ensures Recorded(file) == Some(version)
    ensures var direct := Written(package, 1, File(tables, false, None, None), now);
      var migrated := Written(package, First(file), file, now);
      if direct.None? then migrated.None?
      else migrated == Some(direct.value.(created := Some(at))) && direct.value.version == Some(package.target)
  {
    var empty := File(tables, false, None, None);
    var shorter := package.(target := version);
    StepsOfShorter(package, version, 1, version, empty);
    var half := Steps(package, 1, version, empty).value;
    StepsRecordTheLast(package, 1, version, empty);
    StepsCompose(package, 1, version, package.target, empty);
    NewFilesHaveNoStamp(package, 1, version, empty);
    assert file == half.(created := Some(at));
    StepsKeepCreation(package, version + 1, package.target, half, Some(at));
    if Steps(package, 1, package.target, empty).Some? {
      StepsRecordTheLast(package, 1, package.target, empty);
    }
  }

  lemma {:induction false} StepsOfShorter<S, Q>(package: Package<S, Q>, target: int, from: int, upto: int,
      file: File<S>)
    ensures Steps(package.(target := target), from, upto, file) == Steps(package, from, upto, file)
    decreases upto - from
  {
    if from <= upto {
      var s := package.(target := target);
      StatementsOfShorter(package, target, if from in package.steps then package.steps[from]
        else [], file.tables, file.hasMetadata);
      var after := Step(package, from, file);
      assert Step(s, from, file) == after;
      if after.Some? {
        StepsOfShorter(package, target, from + 1, upto, after.value);
      }
    }
  }

  lemma {:induction false} StatementsOfShorter<S, Q>(package: Package<S, Q>, target: int, statements: seq<Q>,
      tables: S, hasMetadata: bool)
    ensures Statements(package.(target := target), statements, tables, hasMetadata) ==
      Statements(package, statements, tables, hasMetadata)
  {
    if statements != [] {
      var after := package.apply(tables, hasMetadata, statements[0]);
      if after.Some? {
        StatementsOfShorter(package, target, statements[1..], after.value.0, after.value.1);
      }
    }
  }

  lemma {:induction false} NewFilesHaveNoStamp<S, Q>(package: Package<S, Q>, from: int, upto: int, file: File<S>)
    requires file.created.None? && Steps(package, from, upto, file).Some?
    ensures Steps(package, from, upto, file).value.created.None?
    decreases upto - from
  {
    if from <= upto {
      NewFilesHaveNoStamp(package, from + 1, upto, Step(package, from, file).value);
    }
  }

  // What a migration that succeeds records, whatever the file held when it was written.
  lemma WrittenRecordsTheTarget<S, Q>(package: Package<S, Q>, first: int, file: File<S>, now: int)
    requires first <= package.target && Written(package, first, file, now).Some?
    ensures Recorded(Written(package, first, file, now).value) == Some(package.target)
  {
    StepsRecordTheLast(package, first, package.target, file);
  }

  predicate SetBack<S>(file: File<S>, written: File<S>) {
    Recorded(file).Some? && Recorded(written).Some? && Recorded(written).value < Recorded(file).value
  }

  // A package that knows one step reads an empty file; a newer one brings the file to version two;
  // the first one then writes. Its statements pass over what is there, and the file says one again.
  lemma OlderPackageSetsBack(now: int)
    ensures var older := Package(1, map[1 := ["create"]],
      (tables: set<string>, _: bool, name: string) => Some((tables + {name}, true)));
      var newer := File({"create", "alter"}, true, Some(2), Some(0));
      var empty: File<set<string>> := File({}, false, None, None);
      var written := Written(older, First(empty), newer, now);
      written.Some? && SetBack(newer, written.value) && Recorded(written.value) == Some(1) &&
        written.value.tables == newer.tables
  {
    var older := Package(1, map[1 := ["create"]],
      (tables: set<string>, _: bool, name: string) => Some((tables + {name}, true)));
    var newer := File({"create", "alter"}, true, Some(2), Some(0));
    assert older.steps[1][1..] == [];
    assert {"create", "alter"} + {"create"} == {"create", "alter"};
    assert Statements(older, [], {"create", "alter"}, true) == Some(({"create", "alter"}, true));
    assert Step(older, 1, newer) == Some(newer.(version := Some(1)));
    assert Steps(older, 2, 1, newer.(version := Some(1))) == Some(newer.(version := Some(1)));
  }

  class JournalFile<S, Q> {
    const package: Package<S, Q>
    const readOnly: bool
    var file: File<S>
    var open: bool

    constructor (package: Package<S, Q>, readOnly: bool, file: File<S>)
      ensures this.package == package && this.readOnly == readOnly && this.file == file && !open
    {
      this.package, this.readOnly, this.file, open := package, readOnly, file, false;
    }

    // Brings the file to this package's version, or writes nothing. A file that is there already is not
    // written to at all, and a newer one is refused. The version is read in one transaction and
    // written in another, and `between` is what others do to the file from the one to the other: a
    // version they brought beyond this package's is set back exactly when the late write succeeds.
    method Migrate(now: int, between: File<S> -> File<S>) returns (r: Result<int>)
      modifies this`file
      ensures r == Failure(Newer) <==>
        old(file).hasMetadata && old(file).version.Some? && old(file).version.value > package.target
      ensures r == Failure(Newer) || Recorded(old(file)) == Some(package.target) ==> file == old(file)
      ensures Recorded(old(file)) == Some(package.target) ==> r == Success(package.target)
      ensures r == Failure(StepFailed) ==> file == between(old(file))
      ensures First(old(file)) <= package.target ==>
        && (r.Success? <==> Written(package, First(old(file)), between(old(file)), now).Some?)
        && (r.Success? ==> Some(file) == Written(package, First(old(file)), between(old(file)), now))
        && (r.Success? ==> Recorded(file) == Some(package.target))
        && (SetBack(between(old(file)), file) <==>
              r.Success? && Recorded(between(old(file))).Some? && Recorded(between(old(file))).value > package.target)
      ensures r.Success? ==> r.value == package.target && file.hasMetadata
    {
      var recorded := Recorded(file);
      if recorded.Some? && recorded.value > package.target {
        return Failure(Newer);
      }
      if recorded == Some(package.target) {
        return Success(package.target);
      }
      var version := First(file);
      file := between(file);
      var working := file;
      ghost var first, found := version, file;
      while version <= package.target
        invariant first <= version && (first <= package.target ==> version <= package.target + 1)
        invariant file == found
        invariant Steps(package, first, package.target, file) == Steps(package, version, package.target, working)
        invariant first > package.target ==> working == file && version == first
        decreases package.target - version
      {
        if version !in package.steps {
          return Failure(StepFailed);
        }
        var statements := package.steps[version];
        var tables, hasMetadata, k := working.tables, working.hasMetadata, 0;
        while k < |statements|
          invariant k <= |statements|
          invariant Statements(package, statements, working.tables, working.hasMetadata)
                 == Statements(package, statements[k..], tables, hasMetadata)
        {
          var after := package.apply(tables, hasMetadata, statements[k]);
          if after.None? {
            return Failure(StepFailed);
          }
          assert statements[k..][1..] == statements[k + 1..];
          tables, hasMetadata, k := after.value.0, after.value.1, k + 1;
        }
        if !hasMetadata {
          return Failure(StepFailed);
        }
        working := File(tables, true, Some(version), if working.hasMetadata then working.created else None);
        version := version + 1;
      }
      var stamped := Stamped(working, now);
      if stamped.None? {
        return Failure(StepFailed);
      }
      if first <= package.target {
        WrittenRecordsTheTarget(package, first, file, now);
      }
      file := stamped.value;
      r := Success(package.target);
    }

    // Opens the journal. One opened for reading is checked and never written; one that is refused is
    // closed again, but one whose migration fails for another reason stays open.
    method Start(now: int, between: File<S> -> File<S>) returns (r: Result<()>)
      modifies this
      ensures readOnly ==> file == old(file) && r != Failure(StepFailed)
      ensures r == Failure(Newer) <==>
        old(file).hasMetadata && old(file).version.Some? && old(file).version.value > package.target
      ensures r == Failure(Newer) ==> file == old(file)
      ensures r == Failure(StepFailed) ==> file == between(old(file))
      ensures open <==> r != Failure(Newer)
      ensures !readOnly && Recorded(old(file)) == Some(package.target) ==> r.Success? && file == old(file)
      ensures !readOnly && First(old(file)) <= package.target ==>
        && (r.Success? <==> Written(package, First(old(file)), between(old(file)), now).Some?)
        && (r.Success? ==> Some(file) == Written(package, First(old(file)), between(old(file)), now))
        && (r.Success? ==> Recorded(file) == Some(package.target))
    {
      open := true;
      if readOnly {
        var recorded := Recorded(file);
        if recorded.Some? && recorded.value > package.target {
          open := false;
          return Failure(Newer);
        }
        return Success(());
      }
      var migrated := Migrate(now, between);
      if migrated == Failure(Newer) {
        open := false;
      }
      r := if migrated.Failure? then Failure(migrated.error) else Success(());
    }
  }
}
