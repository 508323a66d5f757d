# Game module staging: a Dafny model of `getgamedata.py`

`getgamedata.py` stages the "game" modules of a source tree into a target tree.
It works through a fixed sequence of steps:

- It picks the immediate sub-directories whose lower-cased name contains `game`.
- It derives each module's target name by deleting `_game` from the directory name. It deletes every non-overlapping occurrence, scanning left to right. The result can still contain `_game`.
- It copies each module to `<target>/<name>` and runs `go build <file>` in the copy on the first top-level `.go` file.
- It writes `metadata.json` with the names and their count.

This project models the selection and naming logic and proves what it promises.
Directory listings are inputs. Copies, builds and the JSON file are described
as values, not performed.

Modules:

- `Wrappers`: `Option` and `Result`.
- `PyStrings`: the Python string operations the script uses. These are `str.lower`
  (ASCII only), `sub in s`, `s.endswith(x)`, `s.replace(p, "")` (`RemoveAll`) and
  `s.count(p)` (`Count`, used only to state the length of `RemoveAll`'s result).
- `Paths`: POSIX `os.path.join(a, b)` and the tail part of `os.path.split(p)` (`BaseName`).
- `GameData`: the constants, the scanner (`FindAllGamePaths`), the normaliser
  (`GetNameFromPaths`), the build-file picker (`CompileGameCode`), the metadata
  record (`MakeMetadata`), `RunMain` and the argument check (`Invoke`).
  Each method that has a loop in the script is a Dafny method with a loop.
  `FindAllGamePaths`, `GetNameFromPaths` and `CompileGameCode` are proved equal to a
  specification function: `GamePaths`, `NewNames` or `BuildFor`. `RunMain` is proved
  against the predicate `IsRunOf`, which fixes every part of the run it returns.
- `GameDataProperties`: lemmas about those functions.

`os.walk(top)` is modelled as the sequence of `(root, dirs, files)` triples it yields.
The script reads only the first triple and then breaks out of the loop. The model
therefore uses `if walk != []` where the script has `for … in os.walk(…): … break`.
The inner loops over `dirs` and `files` are kept as loops.

A run is a `Run` value, listed in the order the script performs its steps:
- the target root that `create_dir` ensures;
- one `Staging` per module: the source path, the destination path, and the build
  invocation that `compile_game_code` would make (if any);
- the metadata path and the record written there.

`RunMain` takes two listings as parameters. `sourceWalk` is what `os.walk` yields for the
source root. `listing(i, p)` is what it yields for `p` right after staging `i` copied its
module there. The step index matters when two modules share a name: the second copy replaces
the first, so each staging is built from its own copy.

## Model

| member | source | states |
|---|---|---|
| `PyStrings.ContainsIff` | getgamedata.py:18 | `sub in s` holds exactly when `sub` occurs in `s` at some index (both directions) |
| `PyStrings.RemoveAllLength` | getgamedata.py:31 | `replace(p, "")` shortens the name by exactly `count(p)` copies of `p` (non-overlapping, left to right) |
| `PyStrings.CountZeroIff` | getgamedata.py:31 | the number of deleted occurrences is zero exactly when `p` does not occur |
| `PyStrings.RemoveAllFirst` | getgamedata.py:31 | when `p` first occurs right after `a`, `(a + p + b).replace(p, "")` is `a` followed by `b.replace(p, "")`: the leftmost occurrence is deleted, the characters before it are kept and the scan resumes after it |
| `PyStrings.RemoveAllAbsent` | getgamedata.py:31 | a name in which `p` does not occur is returned unchanged |
| `PyStrings.RemoveAllShrinks` | getgamedata.py:31 | the result is never longer than the name, and at least `len(p)` shorter when a non-empty `p` occurs |
| `PyStrings.RemoveAllIdempotentWhenAbsent` | getgamedata.py:31 | removing twice equals removing once for names in which `p` does not occur |
| `PyStrings.RemovalCanCreateOccurrence` | getgamedata.py:31 | `"_ga_gameme"` becomes `"_game"`, which still contains `"_game"`, and a second pass changes it again |
| `Paths.BaseNameIsLastComponent` | getgamedata.py:30 | the tail of `os.path.split` is the longest separator-free suffix of the path |
| `Paths.BaseNameOfJoin` | getgamedata.py:30 | splitting `os.path.join(dir, name)` gives back `name` for any separator-free entry name |
| `GameData.FindAllGamePaths` | getgamedata.py:13-24 | returns `GamePaths`: nothing for an empty walk, otherwise the first triple's matching directory names, each joined to the source root, in listing order |
| `GameData.GetNameFromPaths` | getgamedata.py:27-34 | returns `NewNames(paths, to_strip)`, one normalised last component per path, in order |
| `GameData.NewNamesAt` | getgamedata.py:29-32 | the names have the paths' length, and name `i` is `replace(to_strip, "")` applied to the last component of path `i` |
| `GameData.CompileGameCode` | getgamedata.py:57-71 | returns `BuildFor`: no invocation when the walk or its first level has no `.go` file, otherwise `go build <first .go file>` run in `path` |
| `GameData.MakeMetadata` | getgamedata.py:48-52 | the record carries the names unchanged, and `numberOfGames` is their count |
| `GameData.RunMain` | getgamedata.py:84-106 | (`IsRunOf`) the target root is `cwd` joined with `target`, and the metadata is written to `metadata.json` in it. The metadata lists the names derived with `_game` from the discovered paths. There is one staging per discovered module. Staging `i` copies path `i` to the target root joined with name `i`, and builds from the listing of that copy after step `i` |
| `GameData.Invoke` | getgamedata.py:109-118 | any argument count other than three ends in the usage error before anything runs. Exactly three arguments give the whole run of `main` (`IsRunOf`) on `argv[1]` and `argv[2]`: target root, stagings, metadata path and metadata |
| `PyStrings.LowerIsLowerCase` | getgamedata.py:18 | `lower()` keeps the length, leaves no upper-case letter, keeps every other character, and is idempotent |
| `GameDataProperties.MarkerIgnoringCase` | getgamedata.py:18 | a directory is selected exactly when some four consecutive characters of its name lower-case to `game`, in any mix of cases |
| `GameDataProperties.SelectionIgnoresCase` | getgamedata.py:18 | a name and its lower-cased form are selected alike |
| `GameDataProperties.GameDirsMembership` | getgamedata.py:17-20 | a name is selected exactly when it is listed and its lower-cased form contains `game` |
| `GameDataProperties.GameDirsConcat` | getgamedata.py:16-20 | selection distributes over concatenation of listings, so listing order is kept |
| `GameDataProperties.GameDirsMultiplicity` | getgamedata.py:17-20 | each matching name is kept as many times as it is listed, and no other name is kept |
| `GameDataProperties.GamePathsMembership` | getgamedata.py:13-24 | a path is returned exactly when it is the source root joined with a matching first-level directory name |
| `GameDataProperties.DeeperLevelsIgnored` | getgamedata.py:16-22 | triples after the first (nested directories) never affect the result |
| `GameDataProperties.DiscoveredNames` | getgamedata.py:90-93 | `main` derives one name per selected directory, in discovery order, and name `i` is directory `i` with `_game` deleted |
| `GameDataProperties.NamesDependOnlyOnBaseNames` | getgamedata.py:27-34 | paths with the same last components get the same names |
| `GameDataProperties.NameKeptWithoutSuffix` | getgamedata.py:31 | a directory name without `_game` is staged under its own name |
| `GameDataProperties.NormalizeIdempotentWithoutSuffix` | getgamedata.py:31 | normalising twice equals normalising once for names without `_game` |
| `GameDataProperties.SelectedButNotRenamed` | getgamedata.py:18-31 | `Foo_GAME` is selected, because matching ignores case, but keeps its name, because deletion is case-sensitive |
| `GameDataProperties.FirstCodeFileIsFirst` | getgamedata.py:59-65 | the chosen file is listed and ends in `.go`, and no earlier file does; none is chosen exactly when no file ends in `.go` |
| `GameDataProperties.BuildCommandShape` | getgamedata.py:57-71 | a build happens exactly when a first-level file ends in `.go`; it is `["go", "build", f]` for a listed `.go` file `f`, run in the staged directory |
| `GameDataProperties.ThreeDirectoryScenario` | getgamedata.py:84-106 | listing `foo_game`, `bar`, `baz_game_extra` yields metadata `{"gameNames": ["foo", "baz_extra"], "numberOfGames": 2}` |
| `GameDataProperties.CollidingNamesKept` | getgamedata.py:99-106 | `x_game` and `x_game_game` are two different source paths that both become `x`; names are not deduplicated |
| `GameDataProperties.CollidingStagingsBuildOwnFiles` | getgamedata.py:99-102 | when `x_game` holds `a.go` and `x_game_game` holds `b.go`, both are staged at `<target>/x`, the first staging builds `a.go` and the second builds `b.go` |

## Left out

- Copying and directory creation are not modelled. This covers `create_dir` and
  `copy_and_overwrite` (`os.mkdir`, `shutil.rmtree`, `shutil.copytree`). A run records
  what would be created and copied, not the resulting file-system state.
- `run_command` is not modelled. It covers `subprocess.run`, `os.chdir`/`os.getcwd`
  and the `print` of the result. A run records the command and the directory it
  would run in.
- `json.dump` and the file write are not modelled. Only the record is modelled, not its JSON text.
- `os.walk` and directory listing are parameters, including their order. The model
  does not check that names in a listing are unique or separator-free. Lemmas that
  need separator-free names require it (`PlainNames`).
- `str.lower` is modelled for ASCII letters only. Python lower-cases all of Unicode.
- `os.path.join` and `os.path.split` follow POSIX with `/` as the only separator.
  Only the tail of `os.path.split` is modelled, because the script discards the head.
- The script never calls `str.replace` with an empty pattern, but the model handles
  that case. `RemoveAll` returns the name unchanged and `Count` is `len + 1`, as in Python.
- `GameData.RunMain`: `os.getcwd()` is the parameter `cwd`.
- `GameData.RunMain`: the listing of a staged copy is the parameter `listing(i, p)`. The
  model does not tie it to the files of the module that staging `i` copied, because
  `shutil.copytree` and its listing order are not modelled.
- `GameData.RunMain`: the model assumes that every file-system operation and every build
  launch succeeds, so a run always holds every staging and the metadata write. In the
  script an exception ends `main` early: `os.mkdir` raises when the target's parent is
  missing (getgamedata.py:39), `shutil.rmtree` and `shutil.copytree` can raise
  (getgamedata.py:44-45), and `subprocess.run` raises `FileNotFoundError` when no `go`
  executable is on the path (getgamedata.py:78). Only a non-zero exit status of the
  build is ignored. After such an exception the later stagings and `metadata.json`
  (getgamedata.py:99-106) never happen.
- `GameData.RunMain`: the model takes `zip`'s truncation to the shorter list as written.
  The lists always have the same length (`NewNamesAt`).
- Running the tool twice and getting the same target tree depends on the file
  system, so that repeat-run property is not modelled.
