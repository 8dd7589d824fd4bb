# C-Builder build driver, modelled in Dafny

`build.c` is a small incremental build driver. It reads `build.json`, a flat
JSON object naming an input directory, an output directory, a compiler, a
source extension, compile flags, link libraries, a target name and a list of
source units (`cpp_source`). It then compiles every unit whose object file is
missing or older than its source, stopping at the first compile that fails, and,
in build mode, links all objects into `outdir + target`. Command-line flags choose
between help, build and recompile, each optionally forced.

The model keeps the program's structure:

- `Host` — the operating system as data. A `Host` value records:
  - which directories `opendir` opens and which files `fopen` opens;
  - the modification time `stat` reports for each path;
  - what `time(NULL)` returns;
  - which command lines `system` runs with a non-zero status.

  The `Os` class holds a fixed host and the log of requests: `Exec(command)` and `MakeDir(path)`.
- `Config` — `load_build_data` as a fold over the key/value pairs of the parsed object
  (`Assign`, `Load`), with the eight global variables as a `Settings` value whose
  fields are `None` while still NULL.
- `Commands` — the compile command of `spec_recompile` and the link command of `build`,
  with `AssembleLinkCommand`, the append loop that builds the latter.
- `Staleness` — the per-unit decision `NeedsCompile`.
- `Orchestrator` — `recompile` and `build` as traces (`CompileLoop`, `RecompileRun`,
  `BuildRun`): the requests made, in order, and the boolean result.
- `Cli` — `in_vector` and the mode choice of `main`.
- `Driver` — the `Builder` class holding the global variables. Its methods
  `LoadBuildData`, `SpecRecompile`, `Recompile`, `Build` and `Run` (the body of `main`)
  work step by step like the C and are proved equal to the traces above.
  `ProgramRun` is the whole invocation as a function.

Points of the code the model keeps as they are:

- the linker is the compiler;
- the target is written into `outdir`;
- loading requires exactly the eight keys `indir`, `outdir`, `compiler`, `format`,
  `libs`, `cflags`, `target`, `cpp_source`;
- `main` returns its boolean result as the exit status. The process exits with 1 when a build or
  recompile succeeds, with 0 when it fails or `--help` is given, and with 1 when the configuration
  does not load or arguments are given but none is recognised (see `Driver.ExitCodeMeaning`).

## Model

| member | source | states |
|---|---|---|
| `Host.LastUpdateTime` | build.c:21-26 | the modification time `stat` reports, or the current time when `stat` fails |
| `Host.FileExists` | build.c:28-35 | whether `fopen` for reading succeeds on the path |
| `Host.DirExists` | build.c:43-50 | whether `opendir` succeeds on the path |
| `Host.Os.CmdExec` | build.c:52-56 | the command is appended to the log and the result is true exactly when its exit status is zero |
| `Host.Os.Mkdir` | build.c:84-86 | a directory creation request is appended to the log; nothing is returned |
| `Commands.ObjectPath` | build.c:95 | the object file of a unit: `outdir + name + ".o"` |
| `Commands.SourcePath` | build.c:99 | the source file of a unit: `indir + name + format` |
| `Staleness.NeedsCompile` | build.c:95-104 | a unit is compiled iff its object file cannot be opened, or the object's time is earlier than the source's, or the run is forced |
| `Staleness.EqualTimesAreFresh` | build.c:102-104 | an existing object stamped at the same time as its source is not recompiled in an unforced run |
| `Staleness.UnreadableSourceIsStale` | build.c:21-26 | a source whose time `stat` cannot report counts as modified now, so an object stamped in the past is rebuilt |
| `Commands.CompileCommand` | build.c:76 | the compile command string, concatenated in the order of the `sprintf` format |
| `Commands.CompileCommandWords` | build.c:76 | the compile command is, word by word: compiler, cflags, `indir+name+format`, `-c`, `-o`, `outdir+name+".o"`; libs play no part |
| `Commands.ObjectList` | build.c:128-131 | each unit's object file followed by a space, in declaration order |
| `Commands.LinkCommand` | build.c:122-136 | the link command string: compiler, space, the object list, libs verbatim, `-o` and `outdir+target` |
| `Commands.LinkCommandWords` | build.c:122-136 | the link command is, word by word: compiler, every unit's object file in declaration order, libs, `-o`, `outdir+target` |
| `Commands.AssembleLinkCommand` | build.c:122-136 | the append loop produces exactly that link command |
| `Orchestrator.CompileLoop` | build.c:94-114 | the requests and result of the unit loop: fresh units skipped, stale ones compiled, stop at the first failing compile |
| `Orchestrator.RecompileRun` | build.c:80-117 | recompile: fail with no request when the input directory is missing, request `mkdir` for a missing output directory, then the unit loop |
| `Orchestrator.BuildRun` | build.c:119-147 | build: the recompile trace, and only after it succeeded the link command, whose result is build's |
| `Orchestrator.CompileLoopIssuesStaleUnitsUntilFailure` | build.c:94-116 | the loop issues the compile commands of the stale units in declaration order, up to and including the first one that fails and none after it; it succeeds iff no stale unit's compile fails |
| `Orchestrator.StaleUnitsMembers` | build.c:94-105 | the units the loop would compile are exactly the stale units of the list |
| `Orchestrator.SuccessfulLoopIssuesNoFailingCommand` | build.c:94-116 | when the loop returns true, none of the compile commands it issued failed |
| `Orchestrator.ForceCompilesEveryUnit` | build.c:102-104 | with force, every unit is stale |
| `Orchestrator.AllFreshCompilesNothing` | build.c:94-105 | when no unit is stale the loop issues nothing and succeeds |
| `Orchestrator.RecompileSucceedsIff` | build.c:80-117 | recompile succeeds iff the input directory exists and no stale unit's compile fails; a missing input directory fails before any request |
| `Orchestrator.BuildSucceedsIff` | build.c:119-147 | build succeeds iff recompile would and the link command succeeds; the link command is issued, as the last request, exactly when recompile succeeded; after a failed recompile build issues nothing more and fails |
| `Config.Assign` | build.c:168-191 | one loop iteration: a recognised key overwrites its global, any other key is ignored |
| `Config.Load` | build.c:157-192 | the globals after resetting them to NULL and visiting every pair in file order |
| `Config.Complete` | build.c:194 | every one of the eight globals is set |
| `Config.LoadLastWins` | build.c:167-192 | each recognised global holds the value of the last pair naming it, or stays NULL when none does; `cpp_source` keeps the array in file order |
| `Config.LoadSucceedsIff` | build.c:194 | loading succeeds iff each of the eight recognised keys occurs in the object |
| `Config.UnknownKeyIgnored` | build.c:170-191 | a pair with an unrecognised key changes nothing, wherever it sits |
| `Cli.InVector` | build.c:58-65 | the search returns true iff the string is an element of the vector |
| `Cli.AnyInVector` | build.c:216-225 | a chain of `in_vector` calls joined by logical or returns true iff some spelling of the group is an argument |
| `Cli.SelectMode` | build.c:210-231 | the mode main picks: with arguments, help, then force build, force recompile, build, recompile, else nothing; without arguments a plain build |
| `Cli.SelectModeFollowsFlagTable` | build.c:210-231 | with arguments, the mode is that of the first row of the usage table, in priority order (help, force build, force recompile, build, recompile), whose spelling is present, or none; without arguments it is a plain build |
| `Cli.NoRecognisedFlagIsIdle` | build.c:207-227 | arguments that contain no recognised spelling run nothing |
| `Cli.ChooseMode` | build.c:210-231 | the dispatch by successive `in_vector` calls picks the mode described by the usage table |
| `Driver.ProgramRun` | build.c:199-241 | the whole invocation: console set-up, configuration load, mode dispatch, and the exit status `main` returns |
| `Driver.ExitCodeMeaning` | build.c:202-240 | the exit status is 0 exactly when the configuration loaded and the run printed help or failed, and 1 otherwise |
| `Driver.NothingRunsWithoutConfiguration` | build.c:199-231 | with an incomplete configuration, with `--help`, or when no argument is recognised, the only request is the console set-up call |
| `Driver.ForcedBuildCompilesEverything` | build.c:199-241 | a forced build, by any of `-fb`, `-bf`, `--force_build`, requests `mkdir` for a missing output directory, compiles every unit in declaration order, then links, and exits with 1 when everything succeeds |
| `Driver.Builder.constructor` | build.c:17-18 | the globals start out NULL |
| `Driver.Builder.LoadBuildData` | build.c:149-195 | the globals end up as the fold of the pairs, and the result is true iff all eight are set |
| `Driver.Builder.SpecRecompile` | build.c:74-78 | runs the unit's compile command and reports its success |
| `Driver.Builder.Recompile` | build.c:80-117 | the requests and result are those of the recompile trace |
| `Driver.Builder.Build` | build.c:119-147 | the requests and result are those of the build trace |
| `Driver.Builder.Run` | build.c:199-241 | the requests and exit status are those of the whole-invocation function, and the globals hold the loaded configuration |

## Left out

- Process spawning (`system`) is the `failing` set of the host: a command's outcome depends only on its text.
  Its effects on the file system are not modelled; in particular an object written by one compile is not seen by a later unit of the same run.
- The file system is fixed for the run. `mkdir` is recorded in the log but does not change the host;
  build.c ignores its result and never asks about the output directory again in the same run.
- `time(NULL)` is one value for the whole run.
- Opening `build.json` and the JSON parser (`json.h`: `read_json`, `vec_meta`, `new_vec`, `vec_add`, `init_json`, `destroy_pages`) are not part of this model.
  The parsed object is given as a sequence of key/value pairs.
  A missing or unreadable file is not modelled.
- `Config.WellTyped`: a recognised key must carry the shape build.c reads from it (a string, or an array of strings for `cpp_source`). Otherwise the C code reads the wrong member of the value's union, which is undefined.
- Command lines are unbounded strings. build.c writes them with `sprintf` into 256- and 512-byte stack buffers without checking; an overflow is not modelled.
- `libs` is passed to `sprintf` as a format string (build.c:133) and error messages to `fprintf` (build.c:38). The model appends `libs` verbatim, so a `%` in it is not expanded.
- Console output (`printf`, colours, `print_info_about`, the messages of `error`) and the elapsed-time measurements with `clock_gettime` are left out.
- `Config.Load` takes an empty `cpp_source` array as assigned, so a configuration with no units loads. This assumes `new_vec` (json.h) returns a non-NULL vector for length 0; json.h is not part of this model.
- Freeing the JSON arena in `error` (`destroy_pages`, which a build whose recompile step fails calls twice) is left out.
