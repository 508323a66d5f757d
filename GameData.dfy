/**
  The selection and naming logic of the staging script: which top-level
  directories of the source tree are game modules, the names they are staged
  under, which file of a staged module is built and with what command, the
  metadata record, and the run that `main` carries out. The directory
  listings that `os.walk` would produce are parameters; the copies, the
  compiler process and the JSON file are described, not performed.
 */
module GameData {
  import opened Wrappers
  import opened PyStrings
  import opened Paths

  /** Marker searched for, case-insensitively, in directory names. */
  const GameDirPattern: string := "game"
  /** Extension of the file handed to the compiler. */
  const GameCodeExtension: string := ".go"
  /** Compiler invocation; the chosen file name is appended. */
  const GameCompileCommand: seq<string> := ["go", "build"]
  /** Literal that `main` deletes from every selected directory name. */
  const NameSuffix: string := "_game"
  /** File name of the metadata record in the target root. */
  const MetadataFileName: string := "metadata.json"
  /** Message of the exception raised for a wrong argument count. */
  const UsageError: string := "You must pass a source and target directory only."

  /** One triple yielded by `os.walk`: a directory, its sub-directory names and its file names, in listing order. */
  datatype WalkEntry = WalkEntry(root: string, dirs: seq<string>, files: seq<string>)

  /** A directory listing as real file systems produce it: entry names never contain the separator. */
  predicate PlainNames(names: seq<string>)
  {
    forall i :: 0 <= i < |names| ==> Sep !in names[i]
  }

  // ---------------------------------------------------------------------
  // Path scanner: find_all_game_paths

  /** `GAME_DIR_PATTERN in directory.lower()`. */
  predicate IsGameDir(name: string)
  {
    Contains(Lower(name), GameDirPattern)
  }

  /** The game directories among `dirs`, in listing order. */
  function GameDirs(dirs: seq<string>): seq<string>
  {
    if dirs == [] then []
    else (if IsGameDir(dirs[0]) then [dirs[0]] else []) + GameDirs(dirs[1..])
  }

  /** Each name joined onto `root`, in order. */
  function JoinAll(root: string, names: seq<string>): (r: seq<string>)
    ensures |r| == |names|
    ensures forall i :: 0 <= i < |names| ==> r[i] == Join(root, names[i])
  {
    if names == [] then [] else [Join(root, names[0])] + JoinAll(root, names[1..])
  }

  /** What `find_all_game_paths(source)` returns when `os.walk(source)` yields `walk`. */
  function GamePaths(source: string, walk: seq<WalkEntry>): seq<string>
  {
    if walk == [] then [] else JoinAll(source, GameDirs(walk[0].dirs))
  }

  /**
    `find_all_game_paths`: only the first triple of the walk is read (the loop
    breaks after it), and of it only the directory names.
   */
  method FindAllGamePaths(source: string, walk: seq<WalkEntry>) returns (gamePaths: seq<string>)
    ensures gamePaths == GamePaths(source, walk)
  {
    gamePaths := [];
    // `for root, dirs, files in os.walk(source): ... break` reads the first triple, if any
    if walk != [] {
      var dirs := walk[0].dirs;
      var j := 0;
      while j < |dirs|
        invariant 0 <= j <= |dirs|
        invariant gamePaths == JoinAll(source, GameDirs(dirs[..j]))
      {
        GameDirsSnoc(dirs[..j], dirs[j]);
        assert dirs[..j + 1] == dirs[..j] + [dirs[j]];
        JoinAllAppend(source, GameDirs(dirs[..j]), if IsGameDir(dirs[j]) then [dirs[j]] else []);
        if IsGameDir(dirs[j]) {
          gamePaths := gamePaths + [Join(source, dirs[j])];
        }
        j := j + 1;
      }
      assert dirs[..j] == dirs;
    }
  }

  /** Filtering one more name appends it exactly when it is a game directory. */
  lemma {:induction false} GameDirsSnoc(dirs: seq<string>, d: string)
    ensures GameDirs(dirs + [d]) == GameDirs(dirs) + (if IsGameDir(d) then [d] else [])
    decreases |dirs|
  {
    if dirs == [] {
      assert [d][1..] == [];
    } else {
      GameDirsSnoc(dirs[1..], d);
      assert (dirs + [d])[1..] == dirs[1..] + [d];
    }
  }

  /** Joining every name to `root` distributes over concatenation of the name lists. */
  lemma JoinAllAppend(root: string, a: seq<string>, b: seq<string>)
    ensures JoinAll(root, a + b) == JoinAll(root, a) + JoinAll(root, b)
  {
  }

  // ---------------------------------------------------------------------
  // Name normaliser: get_name_from_paths

  /** `dir_name.replace(to_strip, "")` for the last component of `path`. */
  function NormalizedName(path: string, toStrip: string): string
  {
    RemoveAll(BaseName(path), toStrip)
  }

  /** What `get_name_from_paths(paths, to_strip)` returns. */
  function NewNames(paths: seq<string>, toStrip: string): seq<string>
  {
    if paths == [] then [] else [NormalizedName(paths[0], toStrip)] + NewNames(paths[1..], toStrip)
  }

  /** `get_name_from_paths`: one name per path, appended in order. */
  method GetNameFromPaths(paths: seq<string>, toStrip: string) returns (newNames: seq<string>)
    ensures newNames == NewNames(paths, toStrip)
  {
    newNames := [];
    var i := 0;
    while i < |paths|
      invariant 0 <= i <= |paths|
      invariant newNames == NewNames(paths[..i], toStrip)
    {
      NewNamesSnoc(paths[..i], paths[i], toStrip);
      assert paths[..i + 1] == paths[..i] + [paths[i]];
      newNames := newNames + [NormalizedName(paths[i], toStrip)];
      i := i + 1;
    }
    assert paths[..i] == paths;
  }

  lemma {:induction false} NewNamesSnoc(paths: seq<string>, p: string, toStrip: string)
    ensures NewNames(paths + [p], toStrip) == NewNames(paths, toStrip) + [NormalizedName(p, toStrip)]
    decreases |paths|
  {
    if paths == [] {
      assert [p][1..] == [];
    } else {
      NewNamesSnoc(paths[1..], p, toStrip);
      assert (paths + [p])[1..] == paths[1..] + [p];
    }
  }

  // ---------------------------------------------------------------------
  // Module builder: the file choice and the command of compile_game_code

  /** The external command and the directory it runs in (`run_command(command, path)`). */
  datatype Invocation = Invocation(command: seq<string>, cwd: string)

  /** The first name in `files` that ends with the build extension. */
  function FirstCodeFile(files: seq<string>): Option<string>
  {
    if files == [] then None
    else if EndsWith(files[0], GameCodeExtension) then Some(files[0])
    else FirstCodeFile(files[1..])
  }

  /** What `compile_game_code(path)` runs when `os.walk(path)` yields `walk`: nothing, or one build command. */
  function BuildFor(path: string, walk: seq<WalkEntry>): Option<Invocation>
  {
    if walk == [] then None
    else match FirstCodeFile(walk[0].files)
      case None => None
      case Some(name) => Some(Invocation(GameCompileCommand + [name], path))
  }

  /**
    `compile_game_code` up to the call of `run_command`: scans the top-level
    files in listing order, stops at the first that ends in `.go`, and
    returns without a command when there is none.
   */
  method CompileGameCode(path: string, walk: seq<WalkEntry>) returns (build: Option<Invocation>)
    ensures build == BuildFor(path, walk)
  {
    var codeFileName: Option<string> := None;
    // the outer `os.walk` loop breaks after its first triple
    if walk != [] {
      var files := walk[0].files;
      var k := 0;
      while k < |files|
        invariant 0 <= k <= |files|
        invariant FirstCodeFile(files) == FirstCodeFile(files[k..])
        invariant codeFileName == None
      {
        if EndsWith(files[k], GameCodeExtension) {
          codeFileName := Some(files[k]);
          break;
        }
        assert files[k..][1..] == files[k + 1..];
        k := k + 1;
      }
      assert codeFileName == FirstCodeFile(files);
    }
    if codeFileName == None {
      return None;
    }
    var command := GameCompileCommand + [codeFileName.value];
    build := Some(Invocation(command, path));
  }

  // ---------------------------------------------------------------------
  // Manifest writer: the record of make_json_metadata_file

  /** The JSON object `{"gameNames": ..., "numberOfGames": ...}`. */
  datatype Metadata = Metadata(gameNames: seq<string>, numberOfGames: int)

  /** The record `make_json_metadata_file` serialises: the names as given and their count. */
  function MakeMetadata(gameDirs: seq<string>): (m: Metadata)
    ensures m.gameNames == gameDirs
    ensures m.numberOfGames == |m.gameNames|
  {
    Metadata(gameDirs, |gameDirs|)
  }

  // ---------------------------------------------------------------------
  // Entry point: main and the argument check

  /** One iteration of the loop in `main`: copy `src` over `dest`, then build in `dest`. */
  datatype Staging = Staging(src: string, dest: string, build: Option<Invocation>)

  /**
    Everything a run does when every file-system operation and every build
    launch succeeds, in the order it does it: create `targetRoot` if it is
    missing, then each staging in turn, then write `metadata` to
    `metadataPath`.
   */
  datatype Run = Run(targetRoot: string, staged: seq<Staging>, metadataPath: string, metadata: Metadata)

  /**
    What `main(source, target)` does from `cwd`. `sourceWalk` is what
    `os.walk` yields for the source root. `listing(i, p)` is what it yields
    for `p` right after staging `i` copied its module there; two modules
    staged at the same `p` are listed separately, since the second copy
    replaces the first.
   */
  ghost predicate IsRunOf(run: Run, cwd: string, source: string, target: string,
                          sourceWalk: seq<WalkEntry>, listing: (nat, string) -> seq<WalkEntry>)
  {
    var gamePaths := GamePaths(Join(cwd, source), sourceWalk);
    && run.targetRoot == Join(cwd, target)
    && run.metadataPath == Join(run.targetRoot, MetadataFileName)
    && run.metadata == MakeMetadata(NewNames(gamePaths, NameSuffix))
    && |run.staged| == |run.metadata.gameNames| == |gamePaths|
    && forall i :: 0 <= i < |run.staged| ==>
         run.staged[i] == StagingFor(i, gamePaths[i], run.targetRoot, run.metadata.gameNames[i], listing)
  }

  /** `main(source, target)`: the stagings follow the discovered modules one by one, as `zip` pairs them. */
  method RunMain(cwd: string, source: string, target: string,
                 sourceWalk: seq<WalkEntry>, listing: (nat, string) -> seq<WalkEntry>)
    returns (run: Run)
    ensures IsRunOf(run, cwd, source, target, sourceWalk, listing)
  {
    var sourcePath := Join(cwd, source);
    var targetPath := Join(cwd, target);
    var gamePaths := FindAllGamePaths(sourcePath, sourceWalk);
    var newGameDirs := GetNameFromPaths(gamePaths, NameSuffix);
    NewNamesAt(gamePaths, NameSuffix);
    // zip stops at the shorter of the two lists
    var n := if |gamePaths| <= |newGameDirs| then |gamePaths| else |newGameDirs|;
    var staged: seq<Staging> := [];
    var i := 0;
    while i < n
      invariant 0 <= i <= n
      invariant |staged| == i
      invariant forall k :: 0 <= k < i ==>
        staged[k] == StagingFor(k, gamePaths[k], targetPath, newGameDirs[k], listing)
    {
      var destPath := Join(targetPath, newGameDirs[i]);
      var build := CompileGameCode(destPath, listing(i, destPath));
      staged := staged + [Staging(gamePaths[i], destPath, build)];
      i := i + 1;
    }
    var jsonPath := Join(targetPath, MetadataFileName);
    run := Run(targetPath, staged, jsonPath, MakeMetadata(newGameDirs));
  }

  /** Staging `step`: the module at `src` copied to `name` in `targetRoot`, then built from that copy's listing. */
  function StagingFor(step: nat, src: string, targetRoot: string, name: string,
                      listing: (nat, string) -> seq<WalkEntry>): Staging
  {
    var dest := Join(targetRoot, name);
    Staging(src, dest, BuildFor(dest, listing(step, dest)))
  }

  /** `NewNames` keeps length and order, and name `i` depends only on path `i`'s last component. */
  lemma {:induction false} NewNamesAt(paths: seq<string>, toStrip: string)
    ensures |NewNames(paths, toStrip)| == |paths|
    ensures forall i :: 0 <= i < |paths| ==>
      NewNames(paths, toStrip)[i] == RemoveAll(BaseName(paths[i]), toStrip)
    decreases |paths|
  {
    if paths != [] {
      NewNamesAt(paths[1..], toStrip);
    }
  }

  /**
    The script as invoked: `args` is `sys.argv` including the script name.
    Any count other than three raises before anything is touched.
   */
  method Invoke(args: seq<string>, cwd: string, sourceWalk: seq<WalkEntry>, listing: (nat, string) -> seq<WalkEntry>)
    returns (outcome: Result<Run, string>)
    ensures |args| != 3 <==> outcome == Failure(UsageError)
    ensures |args| == 3 ==> outcome.Success? && IsRunOf(outcome.value, cwd, args[1], args[2], sourceWalk, listing)
  {
    if |args| != 3 {
      return Failure(UsageError);
    }
    var source, target := args[1], args[2];
    var run := RunMain(cwd, source, target, sourceWalk, listing);
    outcome := Success(run);
  }
}
