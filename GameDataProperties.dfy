/**
  What the script promises about the modules it discovers, the names it
  stages them under, the file it builds and the metadata it writes, stated
  over the functions that the methods of `GameData` are proved to compute.
 */
module GameDataProperties {
  import opened Wrappers
  import opened PyStrings
  import opened Paths
  import opened GameData

  // ---------------------------------------------------------------------
  // Scanner

  /** A name is kept exactly when it is listed and its lower-cased form contains the marker. */
  lemma {:induction false} GameDirsMembership(dirs: seq<string>, d: string)
    ensures d in GameDirs(dirs) <==> d in dirs && IsGameDir(d)
    decreases |dirs|
  {
    if dirs != [] {
      GameDirsMembership(dirs[1..], d);
      assert dirs == [dirs[0]] + dirs[1..];
    }
  }

  /** The four characters of `d` at `i` lower-case to `game`. */
  ghost predicate MarkerWindowAt(d: string, i: int)
  {
    0 <= i && i + |GameDirPattern| <= |d| && Lower(d[i..i + |GameDirPattern|]) == GameDirPattern
  }

  /** A name is a game directory exactly when some four characters of it lower-case to `game`. */
  lemma MarkerIgnoringCase(d: string)
    ensures IsGameDir(d) <==> exists i :: MarkerWindowAt(d, i)
  {
    var n := |GameDirPattern|;
    ContainsIff(Lower(d), GameDirPattern);
    if IsGameDir(d) {
      var i :| OccursAt(Lower(d), GameDirPattern, i);
      LowerSlice(d, i, i + n);
      assert MarkerWindowAt(d, i);
    }
    if i :| MarkerWindowAt(d, i) {
      LowerSlice(d, i, i + n);
      assert OccursAt(Lower(d), GameDirPattern, i);
    }
  }

  /** Selection does not depend on case: a name and its lower-cased form are selected alike. */
  lemma SelectionIgnoresCase(d: string)
    ensures IsGameDir(Lower(d)) <==> IsGameDir(d)
  {
    LowerIsLowerCase(d);
  }

  /** Filtering commutes with concatenation, so listing order is kept. */
  lemma {:induction false} GameDirsConcat(a: seq<string>, b: seq<string>)
    ensures GameDirs(a + b) == GameDirs(a) + GameDirs(b)
    decreases |a|
  {
    if a != [] {
      GameDirsConcat(a[1..], b);
      assert (a + b)[0] == a[0];
      assert (a + b)[1..] == a[1..] + b;
    } else {
      assert a + b == b;
    }
  }

  /** Every matching name is kept as often as it is listed, and no other name is kept. */
  lemma {:induction false} GameDirsMultiplicity(dirs: seq<string>, d: string)
    ensures multiset(GameDirs(dirs))[d] == if IsGameDir(d) then multiset(dirs)[d] else 0
    decreases |dirs|
  {
    if dirs != [] {
      GameDirsMultiplicity(dirs[1..], d);
      assert dirs == [dirs[0]] + dirs[1..];
    }
  }

  /** `find_all_game_paths` returns exactly the matching first-level names joined onto the source root. */
  lemma GamePathsMembership(source: string, walk: seq<WalkEntry>, p: string)
    ensures p in GamePaths(source, walk) <==>
      walk != [] && exists d :: d in walk[0].dirs && IsGameDir(d) && p == Join(source, d)
  {
    if walk != [] {
      var found := GameDirs(walk[0].dirs);
      if p in GamePaths(source, walk) {
        var i :| 0 <= i < |found| && GamePaths(source, walk)[i] == p;
        GameDirsMembership(walk[0].dirs, found[i]);
      }
      if d :| d in walk[0].dirs && IsGameDir(d) && p == Join(source, d) {
        GameDirsMembership(walk[0].dirs, d);
        var i :| 0 <= i < |found| && found[i] == d;
        assert GamePaths(source, walk)[i] == p;
      }
    }
  }

  /** Triples after the first one (nested directories) never change the result. */
  lemma DeeperLevelsIgnored(source: string, walk: seq<WalkEntry>, other: seq<WalkEntry>)
    requires walk != [] && other != [] && walk[0].dirs == other[0].dirs
    ensures GamePaths(source, walk) == GamePaths(source, other)
  {
  }

  // ---------------------------------------------------------------------
  // Normaliser and the names main derives

  /**
    The names `main` stages and records: one per discovered module, in
    discovery order, each the module's own directory name with `_game`
    deleted.
   */
  lemma DiscoveredNames(source: string, walk: seq<WalkEntry>)
    requires walk != [] && PlainNames(walk[0].dirs)
    ensures |NewNames(GamePaths(source, walk), NameSuffix)| == |GameDirs(walk[0].dirs)|
    ensures forall i :: 0 <= i < |GameDirs(walk[0].dirs)| ==>
      NewNames(GamePaths(source, walk), NameSuffix)[i] == RemoveAll(GameDirs(walk[0].dirs)[i], NameSuffix)
  {
    var dirs := walk[0].dirs;
    var found := GameDirs(dirs);
    NewNamesAt(GamePaths(source, walk), NameSuffix);
    forall i | 0 <= i < |found|
      ensures NewNames(GamePaths(source, walk), NameSuffix)[i] == RemoveAll(found[i], NameSuffix)
    {
      GameDirsMembership(dirs, found[i]);
      var j :| 0 <= j < |dirs| && dirs[j] == found[i];
      BaseNameOfJoin(source, found[i]);
    }
  }

  /** Paths with the same last components get the same names, whatever their directories. */
  lemma {:induction false} NamesDependOnlyOnBaseNames(paths: seq<string>, others: seq<string>, toStrip: string)
    requires |paths| == |others|
    requires forall i :: 0 <= i < |paths| ==> BaseName(paths[i]) == BaseName(others[i])
    ensures NewNames(paths, toStrip) == NewNames(others, toStrip)
    decreases |paths|
  {
    if paths != [] {
      NamesDependOnlyOnBaseNames(paths[1..], others[1..], toStrip);
    }
  }

  /** A directory name without the literal `_game` is staged under its own name. */
  lemma NameKeptWithoutSuffix(root: string, d: string)
    requires Sep !in d && !Contains(d, NameSuffix)
    ensures NormalizedName(Join(root, d), NameSuffix) == d
  {
    BaseNameOfJoin(root, d);
    RemoveAllAbsent(d, NameSuffix);
  }

  /** Normalising is idempotent on names in which `_game` does not occur. */
  lemma NormalizeIdempotentWithoutSuffix(root: string, d: string)
    requires Sep !in d && !Contains(d, NameSuffix)
    ensures NormalizedName(Join(root, NormalizedName(Join(root, d), NameSuffix)), NameSuffix)
         == NormalizedName(Join(root, d), NameSuffix)
  {
    NameKeptWithoutSuffix(root, d);
  }

  /** A character of the pattern that is missing from `s` rules out every occurrence. */
  lemma AbsentCharRulesOut(s: string, sub: string, c: char)
    requires c in sub && c !in s
    ensures !Contains(s, sub)
  {
    ContainsIff(s, sub);
  }

  /** A name without upper-case letters is its own lower-cased form. */
  lemma LowerOfLowercase(s: string)
    requires forall i :: 0 <= i < |s| ==> !('A' <= s[i] <= 'Z')
    ensures Lower(s) == s
  {
  }

  /**
    Selection ignores case, deletion does not: `Foo_GAME` is selected, yet it
    is staged and recorded as `Foo_GAME`.
   */
  lemma SelectedButNotRenamed(root: string, d: string)
    requires d == "Foo_GAME"
    ensures IsGameDir(d)
    ensures NormalizedName(Join(root, d), NameSuffix) == d
  {
    var low := Lower(d);
    assert low[4..8] == GameDirPattern;
    ContainsIff(low, GameDirPattern);
    assert OccursAt(low, GameDirPattern, 4);
    AbsentCharRulesOut(d, NameSuffix, 'g');
    NameKeptWithoutSuffix(root, d);
  }

  // ---------------------------------------------------------------------
  // Build-file picker

  /** The chosen file ends in `.go`, is listed, and every file before it does not end in `.go`. */
  lemma {:induction false} FirstCodeFileIsFirst(files: seq<string>)
    ensures FirstCodeFile(files).Some? ==>
      exists i :: 0 <= i < |files| && files[i] == FirstCodeFile(files).value
        && EndsWith(files[i], GameCodeExtension)
        && forall j :: 0 <= j < i ==> !EndsWith(files[j], GameCodeExtension)
    ensures FirstCodeFile(files) == None <==>
      forall j :: 0 <= j < |files| ==> !EndsWith(files[j], GameCodeExtension)
    decreases |files|
  {
    if files != [] && !EndsWith(files[0], GameCodeExtension) {
      FirstCodeFileIsFirst(files[1..]);
      if FirstCodeFile(files).Some? {
        var i :| 0 <= i < |files[1..]| && files[1..][i] == FirstCodeFile(files).value
          && EndsWith(files[1..][i], GameCodeExtension)
          && forall j :: 0 <= j < i ==> !EndsWith(files[1..][j], GameCodeExtension);
        assert files[i + 1] == files[1..][i];
        forall j | 0 <= j < i + 1 ensures !EndsWith(files[j], GameCodeExtension) {
          if j > 0 { assert files[j] == files[1..][j - 1]; }
        }
      }
      if forall j :: 0 <= j < |files[1..]| ==> !EndsWith(files[1..][j], GameCodeExtension) {
        forall j | 0 <= j < |files| ensures !EndsWith(files[j], GameCodeExtension) {
          if j > 0 { assert files[j] == files[1..][j - 1]; }
        }
      }
    }
  }

  /** A build runs `go build <file>` in the staged directory, and runs exactly when a first-level file ends in `.go`. */
  lemma BuildCommandShape(path: string, walk: seq<WalkEntry>)
    ensures BuildFor(path, walk).Some? <==>
      walk != [] && exists j :: 0 <= j < |walk[0].files| && EndsWith(walk[0].files[j], GameCodeExtension)
    ensures BuildFor(path, walk).Some? ==>
      BuildFor(path, walk).value.cwd == path
      && |BuildFor(path, walk).value.command| == 3
      && BuildFor(path, walk).value.command[..2] == ["go", "build"]
      && EndsWith(BuildFor(path, walk).value.command[2], ".go")
      && BuildFor(path, walk).value.command[2] in walk[0].files
  {
    if walk != [] {
      FirstCodeFileIsFirst(walk[0].files);
    }
  }

  // ---------------------------------------------------------------------
  // Whole runs

  /** A name in which lower-case `game` occurs is a game directory. */
  lemma MarkerInside(d: string, before: string, after: string)
    requires d == before + GameDirPattern + after
    ensures IsGameDir(d)
  {
    var low, i := Lower(d), |before|;
    assert d[i..i + 4] == GameDirPattern;
    forall k | i <= k < i + 4 ensures low[k] == d[k] {
      assert d[k] == GameDirPattern[k - i];
    }
    assert low[i..i + 4] == GameDirPattern;
    ContainsIff(low, GameDirPattern);
    assert OccursAt(low, GameDirPattern, i);
  }

  /** Of three listed names, the scanner keeps the first and the third when only they match. */
  lemma SelectFirstAndThird(dirs: seq<string>)
    requires |dirs| == 3 && IsGameDir(dirs[0]) && !IsGameDir(dirs[1]) && IsGameDir(dirs[2])
    ensures GameDirs(dirs) == [dirs[0], dirs[2]]
  {
    assert dirs[1..][1..] == [dirs[2]];
    assert dirs[1..][1..][1..] == [];
    assert GameDirs(dirs[1..][1..]) == [dirs[2]];
  }

  /** `foo_game` and `baz_game_extra` are game directories; `bar` is not. */
  lemma ThreeDirectoryMatches(a: string, b: string, c: string)
    requires a == "foo_game" && b == "bar" && c == "baz_game_extra"
    ensures IsGameDir(a) && !IsGameDir(b) && IsGameDir(c)
  {
    MarkerInside(a, "foo_", "");
    LowerOfLowercase(b);
    AbsentCharRulesOut(b, GameDirPattern, 'g');
    MarkerInside(c, "baz_", "_extra");
  }

  /**
    Listing `foo_game`, `bar` and `baz_game_extra` stages `foo` and
    `baz_extra` (in that order), leaves `bar` out, and records two games.
   */
  lemma ThreeDirectoryScenario(source: string, walk: seq<WalkEntry>)
    requires walk != [] && walk[0].dirs == ["foo_game", "bar", "baz_game_extra"]
    ensures MakeMetadata(NewNames(GamePaths(source, walk), NameSuffix)) == Metadata(["foo", "baz_extra"], 2)
  {
    var dirs := walk[0].dirs;
    ThreeDirectoryMatches(dirs[0], dirs[1], dirs[2]);
    SelectFirstAndThird(dirs);
    ThreeDirectoriesPlain(dirs);
    SecondOfThreeSkipped(source, walk);
    ThreeDirectoryNames(dirs[0], dirs[2]);
    var names := NewNames(GamePaths(source, walk), NameSuffix);
    assert names == ["foo", "baz_extra"];
  }

  /** None of `foo_game`, `bar` and `baz_game_extra` contains the separator. */
  lemma ThreeDirectoriesPlain(dirs: seq<string>)
    requires dirs == ["foo_game", "bar", "baz_game_extra"]
    ensures PlainNames(dirs)
  {
    assert Sep !in dirs[0] && Sep !in dirs[1] && Sep !in dirs[2];
  }

  /** With the second of three listed directories rejected, the names are those of the first and the third. */
  lemma SecondOfThreeSkipped(source: string, walk: seq<WalkEntry>)
    requires walk != [] && |walk[0].dirs| == 3 && PlainNames(walk[0].dirs)
    requires GameDirs(walk[0].dirs) == [walk[0].dirs[0], walk[0].dirs[2]]
    ensures NewNames(GamePaths(source, walk), NameSuffix)
         == [RemoveAll(walk[0].dirs[0], NameSuffix), RemoveAll(walk[0].dirs[2], NameSuffix)]
  {
    DiscoveredNames(source, walk);
  }

  /** `foo_game` is staged as `foo` and `baz_game_extra` as `baz_extra`. */
  lemma ThreeDirectoryNames(d0: string, d1: string)
    requires d0 == "foo_game" && d1 == "baz_game_extra"
    ensures RemoveAll(d0, NameSuffix) == "foo" && RemoveAll(d1, NameSuffix) == "baz_extra"
  {
    StagedName(d0, "foo", "");
    StagedName(d1, "baz", "_extra");
  }

  /** `head + "_game" + tail` is staged as `head + tail` when `head` has no `_` and `tail` no `g`. */
  lemma StagedName(d: string, head: string, tail: string)
    requires d == head + NameSuffix + tail && '_' !in head && 'g' !in tail
    ensures RemoveAll(d, NameSuffix) == head + tail
  {
    AbsentCharRulesOut(tail, NameSuffix, 'g');
    SuffixRemoved(head, tail);
  }

  /** Deleting `_game` between two parts without it leaves the parts joined. */
  lemma SuffixRemoved(head: string, tail: string)
    requires '_' !in head && !Contains(tail, NameSuffix)
    ensures RemoveAll(head + NameSuffix + tail, NameSuffix) == head + tail
  {
    NoSuffixBeforeFirst(head);
    RemoveAllFirst(head, NameSuffix, tail);
    RemoveAllAbsent(tail, NameSuffix);
  }

  /** Without `_` in `head`, no `_game` starts before the one that follows `head`. */
  lemma NoSuffixBeforeFirst(head: string)
    requires '_' !in head
    ensures !Contains(head + NameSuffix[..|NameSuffix| - 1], NameSuffix)
  {
    var s := head + NameSuffix[..|NameSuffix| - 1];
    ContainsIff(s, NameSuffix);
    forall i | 0 <= i && i + |NameSuffix| <= |s|
      ensures !OccursAt(s, NameSuffix, i)
    {
      assert s[i] == head[i];
      assert s[i..i + |NameSuffix|][0] == s[i];
    }
  }

  /**
    Names are not deduplicated: `x_game` and `x_game_game` are both staged at
    `<target>/x`, and the metadata lists `x` twice.
   */
  lemma CollidingNamesKept(source: string, walk: seq<WalkEntry>)
    requires walk != [] && walk[0].dirs == ["x_game", "x_game_game"]
    ensures |GamePaths(source, walk)| == 2 && GamePaths(source, walk)[0] != GamePaths(source, walk)[1]
    ensures NewNames(GamePaths(source, walk), NameSuffix) == ["x", "x"]
  {
    var dirs := walk[0].dirs;
    assert PlainNames(dirs);
    CollidingSelection(dirs);
    DiscoveredNames(source, walk);
    CollidingNames(dirs[0], dirs[1]);
    BaseNameOfJoin(source, dirs[0]);
    BaseNameOfJoin(source, dirs[1]);
  }

  /**
    Colliding modules are staged one after the other at the same place:
    when `x_game` holds `a.go` and `x_game_game` holds `b.go`, both land at
    `<target>/x`, and each staging builds its own module's file.
   */
  lemma CollidingStagingsBuildOwnFiles(source: string, walk: seq<WalkEntry>, targetRoot: string)
    requires walk != [] && walk[0].dirs == ["x_game", "x_game_game"]
    ensures var paths := GamePaths(source, walk);
      var names := NewNames(paths, NameSuffix);
      var listing := OneGoFilePerStep;
      |paths| == 2 && |names| == 2 &&
      var first := StagingFor(0, paths[0], targetRoot, names[0], listing);
      var second := StagingFor(1, paths[1], targetRoot, names[1], listing);
      && first.src != second.src
      && first.dest == second.dest == Join(targetRoot, "x")
      && first.build == Some(Invocation(["go", "build", "a.go"], first.dest))
      && second.build == Some(Invocation(["go", "build", "b.go"], second.dest))
  {
    CollidingNamesKept(source, walk);
    var dest := Join(targetRoot, "x");
    assert EndsWith("a.go", GameCodeExtension) && EndsWith("b.go", GameCodeExtension);
    assert FirstCodeFile(["a.go"]) == Some("a.go") && FirstCodeFile(["b.go"]) == Some("b.go");
    assert OneGoFilePerStep(0, dest)[0].files == ["a.go"] && OneGoFilePerStep(1, dest)[0].files == ["b.go"];
    assert GameCompileCommand + ["a.go"] == ["go", "build", "a.go"];
    assert GameCompileCommand + ["b.go"] == ["go", "build", "b.go"];
    assert BuildFor(dest, OneGoFilePerStep(0, dest)) == Some(Invocation(["go", "build", "a.go"], dest));
    assert BuildFor(dest, OneGoFilePerStep(1, dest)) == Some(Invocation(["go", "build", "b.go"], dest));
  }

  /** The listing of a staged copy that holds `a.go` after the first staging and `b.go` after any later one. */
  function OneGoFilePerStep(step: nat, p: string): seq<WalkEntry>
  {
    [WalkEntry(p, [], [if step == 0 then "a.go" else "b.go"])]
  }

  /** Both `x_game` and `x_game_game` are game directories. */
  lemma CollidingSelection(dirs: seq<string>)
    requires dirs == ["x_game", "x_game_game"]
    ensures GameDirs(dirs) == dirs
  {
    MarkerInside(dirs[0], "x_", "");
    MarkerInside(dirs[1], "x_", NameSuffix);
    assert dirs[1..] == [dirs[1]];
    assert dirs[1..][1..] == [];
    assert GameDirs(dirs[1..]) == [dirs[1]];
  }

  /** `x_game` and `x_game_game` are both renamed to `x`. */
  lemma CollidingNames(d0: string, d1: string)
    requires d0 == "x_game" && d1 == "x_game_game"
    ensures RemoveAll(d0, NameSuffix) == "x" && RemoveAll(d1, NameSuffix) == "x"
  {
    StagedName(d0, "x", "");
    assert d1[0] != NameSuffix[0];
    assert d1[1..] == NameSuffix + NameSuffix;
    DoubledSuffixVanishes(d1[1..]);
  }

  /** `_game_game` disappears entirely: the scan deletes both copies. */
  lemma DoubledSuffixVanishes(t: string)
    requires t == NameSuffix + NameSuffix
    ensures RemoveAll(t, NameSuffix) == ""
  {
    assert NameSuffix <= t && t[|NameSuffix|..] == NameSuffix;
    var once := t[|NameSuffix|..];
    assert NameSuffix <= once && once[|NameSuffix|..] == "";
  }
}
