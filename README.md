# elm-test node runner: run configuration and naming

A Dafny model of the run-configuration and naming layer of `elm-test`, the
command-line runner for Elm tests. It covers the front end in
`lib/elm-test.js` and the compiler-launch wrapper in `lib/Compile.js`:

- how `--report` is validated, and which lines and compiler streams each report format lets through;
- how the test files are found: `flatMap`, `resolveFilePath` and `resolveGlobs`, and the `elm-stuff` filter;
- how each run names the local endpoint (named pipe or socket file) its workers connect to, using a per-process run counter;
- how `elm make`'s exit code settles the compile step, and the fixed directories the runner generates code into;
- watch mode:
  - the globs watched;
  - the paths the watcher ignores;
  - the labels of watcher events;
  - the chain of runs that change events extend.

The filesystem, the glob library, the platform, the process id and the
environment are all inputs here:

- a glob is a function from a pattern to the paths it matches;
- a file lookup returns an `Entry` (missing, a non-directory, or a directory with the entries its glob matches);
  - the resolved text of a non-directory, `path.resolve(filename)`, is part of the lookup's answer; nothing ties it to the path looked up;
- platform and pid are fixed fields of the `TestRunner` class, which owns the `runsExecuted` counter.

Modules:

| module | file | contents |
|---|---|---|
| `Outcomes` | `outcomes.dfy` | `Option`, `Result` and a `Failure` carrying a message and an exit status |
| `Text` | `text.dfy` | decimal text of numbers with a parse-back; JavaScript `split` and `join` with their round trips |
| `Paths` | `paths.dfy` | paths as an absolute flag plus segments; `path.join`, `path.resolve`, rendering with a separator; `path.posix.normalize` and `path.posix.join` on text |
| `Compile` | `compile.dfy` | `lib/Compile.js` |
| `CliOptions` | `cli_options.dfy` | `--report` validation, `infoLog`, the worker count, `make`, the no-files message |
| `TestFiles` | `test_files.dfy` | `flatMap`, `resolveFilePath`, `resolveGlobs` |
| `RunEndpoint` | `run_endpoint.dfy` | `runTests` and its endpoint names, as the `TestRunner` class |
| `WatchMode` | `watch_mode.dfy` | watch globs, the ignore pattern, event labels, run settling, and the `RunChain` class |

Two behaviours of the code worth noting:

- **The raw `--report` value goes to the compiler.** `runTests` and `make` hand `lib/Compile.js` the raw `args.report`, not the validated `report`.
  - The `Compile` functions therefore take `Option<string>`, with `None` for a missing option.
  - One consequence, proved in `CliOptions.DefaultReportSilencesCompiler`: without `--report`, info lines are printed, but `elm make`'s stdout is discarded.
- **Each change event appends one run.** The watcher's handler runs `currentRun = currentRun.then(run)` (lib/elm-test.js:424), so a burst of events is not merged into one rerun.
  - `WatchMode.RunChain` models this: a FIFO of runs with at most one in flight.

## Model

| member | source | states |
|---|---|---|
| `CliOptions.ParseReport` | lib/elm-test.js:281-296 | `console`, `json` and `junit` are accepted as given, a missing option becomes console, and anything else fails with the usage message and exit 1 |
| `CliOptions.ParseReporterName` | lib/elm-test.js:283-288 | every report format is accepted under its own name |
| `CliOptions.InfoLog` | lib/elm-test.js:298-302 | a line is printed exactly when the report is console, and it is the message unchanged |
| `CliOptions.InfoLogOnlyForHumanReadable` | lib/Compile.js:105-107 | a validated report is machine-readable exactly when it is not console, and then no info line is printed |
| `CliOptions.DefaultReportSilencesCompiler` | lib/elm-test.js:208-214 | without `--report` info lines are printed, but the compiler, handed the missing option, gets an ignored stdout; `--report console` keeps it |
| `CliOptions.Processes` | lib/elm-test.js:63 | at least one worker, and exactly the cpu count when there is any cpu |
| `CliOptions.ParseCommand` | lib/elm-test.js:308-309 | `make` is recognised only as the first positional argument, and the test globs are the remaining arguments, in order |
| `CliOptions.MakeExitCode` | lib/elm-test.js:343-348 | `make` exits 0 exactly when compiling resolved, and otherwise 1 |
| `CliOptions.MakeExitStatus` | lib/elm-test.js:336-348 | `make` exits 0 exactly when `elm make` exited 0; any other code, or a signal, gives 1 |
| `CliOptions.NoFilesFoundError` | lib/elm-test.js:429-446 | with no globs it is the fixed hint text; otherwise it starts with the header and ends with the footer |
| `CliOptions.NoFilesFoundErrorListsGlobs` | lib/elm-test.js:439-445 | the lines between header and footer are exactly the globs given, in order |
| `CliOptions.CheckTestFilesFound` | lib/elm-test.js:350-353 | outside `make`, an empty list of test files fails with the no-files message and exit 1; any other list passes unchanged |
| `TestFiles.FlatMap` | lib/elm-test.js:65-67 | the `reduce`/`concat` fold is the in-order concatenation of each item's results |
| `TestFiles.FlatMapFrom` | lib/elm-test.js:66 | folding from an accumulated result keeps it in front of the items' results, in order |
| `TestFiles.FlatMapAppend` | lib/elm-test.js:65-67 | the fold over two lists one after the other is the concatenation of the two folds |
| `TestFiles.FlatMapMembership` | lib/elm-test.js:65-67 | a value is produced exactly when some item produces it |
| `TestFiles.OutsideElmStuff` | lib/elm-test.js:91 | a path with no separator passes exactly when it is not `elm-stuff` itself |
| `TestFiles.KeepOutsideElmStuff` | lib/elm-test.js:89-92 | the filter keeps exactly the candidates with no `elm-stuff` component, and no others |
| `TestFiles.KeepAllOutside` | lib/elm-test.js:89-92 | the filter keeps every candidate when none has an `elm-stuff` component |
| `TestFiles.KeepAppend` | lib/elm-test.js:89-92 | the filter keeps order: filtering a concatenation filters each part |
| `TestFiles.ResolveFilePath` | lib/elm-test.js:70-93 | no result has an `elm-stuff` component; a missing path gives nothing; a non-directory gives its resolved path alone, unless that path is inside elm-stuff; a directory gives what its glob matches give |
| `TestFiles.ResolveAll` | lib/elm-test.js:76-84 | what a directory's matches give has no `elm-stuff` component |
| `TestFiles.ResolveAllIsConcat` | lib/elm-test.js:76-84 | a directory's results are the in-order concatenation of its matches' results |
| `TestFiles.DirectoryIsFlatMap` | lib/elm-test.js:75-92 | a directory yields `flatMap(matches, resolveFilePath)`, which the final filter leaves unchanged |
| `TestFiles.GlobMatches` | lib/elm-test.js:255-264 | the given globs are expanded in order, and with none given the default test pattern is expanded under the working directory |
| `TestFiles.ResolveGlobs` | lib/elm-test.js:255-267 | no test file found has an `elm-stuff` component |
| `TestFiles.ResolveGlobsMembership` | lib/elm-test.js:255-267 | a path is found exactly when some path matched by the globs leads to it |
| `TestFiles.GeneratedCodeIsNeverATestFile` | lib/elm-test.js:89-92 | no path under the generated-code directory passes the filter or is ever returned by `resolveFilePath` |
| `RunEndpoint.PipeFilename` | lib/elm-test.js:203-206 | on win32 the name is the pipe prefix, the pid, `-` and the counter; elsewhere it is `/tmp/elm_test-<pid>.sock` |
| `RunEndpoint.WindowsPipeNamesInjective` | lib/elm-test.js:203-205 | a Windows pipe name determines both the pid and the counter |
| `RunEndpoint.SocketNameIgnoresCounter` | lib/elm-test.js:206 | off Windows every run of a process uses the same socket name |
| `RunEndpoint.SocketNamesInjective` | lib/elm-test.js:206 | off Windows different pids still get different socket names |
| `RunEndpoint.TestRunner.constructor` | lib/elm-test.js:188 | the counter starts at 0 with no endpoint issued |
| `RunEndpoint.TestRunner.RunTests` | lib/elm-test.js:188-234 | the counter goes up by exactly one before the name is built, so the n-th run names endpoint n; on win32 the name differs from every earlier one, elsewhere it equals them all; destination, compile call and the failure line are those of the source; the supervisor gets the validated report, one worker per cpu (at least one), and the machine-readable flag exactly when the report is not console |
| `Compile.IsMachineReadableReporter` | lib/Compile.js:105-107 | true exactly for `json` and `junit` |
| `Compile.ProcessOptsForReporter` | lib/Compile.js:97-103 | always the environment; a `stdio` of `[ignore, ignore, stderr]` exactly for a machine-readable report; no other key |
| `Compile.CompilerStdio` | lib/Compile.js:86-90 | stdin and stderr are inherited; stdout is inherited exactly when the report is `console`, and ignored otherwise |
| `Compile.SpawnCompilerOptions` | lib/Compile.js:85-91 | later objects win: the imposed `stdio` replaces any passed in, a passed `env` replaces the default one, and every other passed key is kept |
| `Compile.CompilerStreams` | lib/Compile.js:79-91 | whatever options the wrapper passes on, the compiler keeps the runner's stdin and stderr, and writes to stdout only under `console` |
| `Compile.CompilerEnvironment` | lib/Compile.js:85-103 | the options chosen for the raw report give the compiler the runner's environment; an `env` the wrapper passes wins, and without one the runner's is used |
| `Compile.CompilerReport` | lib/Compile.js:57 | a report is passed to the compiler only when it is `json` |
| `Compile.CompileCall` | lib/Compile.js:8-22 | one source file, the given output, no `cwd` or `report` key, and the spawn and process options chosen for the raw report |
| `Compile.CompileSourcesCall` | lib/Compile.js:49-67 | the test files, output `/dev/null`, the given directory as `cwd` (the generated-code directory at the one call site), a report value only for `json`, and the options chosen for the raw report |
| `Compile.ExitCodeTextInjective` | lib/Compile.js:26 | different exit codes, `null` included, print differently |
| `Compile.ExitCodeText` | lib/Compile.js:26 | a missing code prints `null` and nothing else does; a code prints as its decimal text, after `-` when negative, which reads back as the code and has no leading zero |
| `Compile.ElmMakeFailed` | lib/Compile.js:26 | the rejection message is the fixed words, then the exit code's text, then a full stop |
| `Compile.ElmMakeFailedInjective` | lib/Compile.js:26 | the rejection message determines the exit code it came from |
| `Compile.CompileClosed` | lib/Compile.js:24-30 | resolves exactly on exit code 0; otherwise rejects with the message naming the code |
| `Compile.CompileSourcesClosed` | lib/Compile.js:69-75 | resolves exactly on exit code 0; otherwise rejects with the message naming the code |
| `Compile.ClosedHandlersAgree` | lib/Compile.js:24-30 | both close handlers settle alike for every exit code, and a rejection tells which code caused it |
| `Compile.GeneratedCodeDir` | lib/Compile.js:34-43 | the project root followed by `elm-stuff/generated-code/elm-community/elm-test/<version>` |
| `Compile.TestRootDir` | lib/Compile.js:45-47 | an absolute path ending in `tests`: the root plus `tests`, placed under the working directory when the root is relative |
| `Text.NatToString` | lib/elm-test.js:205 | the decimal text of a number is non-empty, all digits, and starts with `0` only for zero |
| `Text.IntToString` | lib/Compile.js:26 | the `${exitCode}` text of an integer: `-` exactly for a negative number, then the decimal text of its magnitude |
| `Text.ParseIntToString` | lib/Compile.js:26 | the text of an integer reads back as the number, after the `-` of a negative one, and starts with `0` only for zero |
| `Text.ParseNatToString` | lib/elm-test.js:205 | reading the decimal text of a counter or pid gives that number back |
| `Text.NatToStringInjective` | lib/elm-test.js:205 | different numbers have different decimal text |
| `Text.Split` | lib/elm-test.js:91 | JavaScript `split` with a one-character separator: at least one piece, and no piece holds the separator |
| `Text.JoinWith` | lib/elm-test.js:442 | JavaScript `join`: empty for no parts, and otherwise starting with the first part |
| `Text.JoinSplit` | lib/elm-test.js:91 | joining the pieces of a split with the same separator gives back the string |
| `Text.SplitJoin` | lib/elm-test.js:442 | splitting separator-free parts after joining them gives back the parts |
| `Paths.Join` | lib/Compile.js:35-42 | `path.join` of normal paths: the path's segments followed by the names, absolute exactly when the path is |
| `Paths.Resolve` | lib/elm-test.js:191 | `path.resolve`: always absolute; an absolute path is kept, and a relative one is placed under the working directory |
| `Paths.Render` | lib/elm-test.js:191 | an absolute path's text starts with the separator, and a relative one's with its first segment |
| `Paths.NormalizeStep` | lib/elm-test.js:277 | one step of `path.posix.normalize`: a plain name is kept, an empty or `.` piece is dropped; at most one name is added, and no empty or `.` name appears |
| `Paths.NormalizeNames` | lib/elm-test.js:277 | the left-to-right pass of `path.posix.normalize`: at most one name per piece, and no empty or `.` name left behind |
| `Paths.NormalizePlain` | lib/elm-test.js:277 | plain names pass through the normalisation unchanged |
| `Paths.NormalizeAppend` | lib/elm-test.js:277 | the normalisation works left to right, piece by piece |
| `Paths.PosixNormalize` | lib/elm-test.js:277 | never empty, and an absolute text stays absolute |
| `Paths.NormalizeNormal` | lib/elm-test.js:277 | a relative text of plain names that does not end in `/` normalises to itself |
| `Paths.PosixJoin` | lib/elm-test.js:277 | `path.posix.join`: never empty, and `.` when every name is empty |
| `Paths.NonEmptyNames` | lib/elm-test.js:277 | the arguments `path.posix.join` keeps: exactly the non-empty ones, and no more than were given |
| `Paths.NonEmptyNamesAppend` | lib/elm-test.js:277 | the kept arguments stay in their order: dropping empty names from two lists in a row drops them from each |
| `Paths.NonEmptyNamesKeepsNames` | lib/elm-test.js:277 | arguments that are all non-empty are kept as they are, duplicates included |
| `Paths.SplitRender` | lib/elm-test.js:91 | splitting a rendered path at its separator gives back its segments, after an empty piece when the path is absolute |
| `WatchMode.SourceDirectories` | lib/elm-test.js:270-275 | `src` for a package, and otherwise the elm.json `source-directories` |
| `WatchMode.WatchGlob` | lib/elm-test.js:277 | `path.posix.join(dir, '**', '*.elm')`: never empty, and `**/*.elm` for an empty directory |
| `WatchMode.EmptyDirGlob` | lib/elm-test.js:277 | joining an empty directory with `**` and `*.elm` gives `**/*.elm` |
| `WatchMode.WatchGlobOfNormalDir` | lib/elm-test.js:277 | a relative directory of plain names, not ending in `/`, is watched as the directory followed by `/**/*.elm` |
| `WatchMode.WatchGlobDropsTrailingSlash` | lib/elm-test.js:277 | a directory written with a trailing `/` gets the same glob as without it, so `src/` gives `src/**/*.elm` |
| `WatchMode.WatchGlobDropsDotPrefix` | lib/elm-test.js:277 | a directory written with a leading `./` gets the same glob as without it |
| `WatchMode.GetGlobsToWatch` | lib/elm-test.js:269-279 | one glob per source directory, in order, then one for `tests`, each being `WatchMode.WatchGlob` of its directory; no globs when the directories are missing |
| `WatchMode.PackageWatchesSrcAndTests` | lib/elm-test.js:271-278 | a package watches exactly `src/**/*.elm` and `tests/**/*.elm` |
| `WatchMode.IgnoredByWatcher` | lib/elm-test.js:406 | a path the ignore pattern matches holds at least the nine characters of `elm-stuff` |
| `WatchMode.IgnoresElmStuffDirectory` | lib/elm-test.js:406 | `elm-stuff` at the start of a path or after a `/`, and at its end or before a `/`, makes the path ignored |
| `WatchMode.WatchesElmStuffLookalike` | lib/elm-test.js:406 | a slash-free name that begins with `elm-stuff` and goes on, such as `elm-stuffing`, is not ignored |
| `WatchMode.WatcherIgnoresWhatFilterDrops` | lib/elm-test.js:406 | the watcher's ignore pattern matches a path exactly when the test-file filter, splitting with `/` as separator, drops it for an `elm-stuff` component |
| `WatchMode.EventLabel` | lib/elm-test.js:410-419 | `add` and `addDir` become `added`, `change` becomes `changed`, `unlink` and `unlinkDir` become `removed`, and any other event name passes through |
| `WatchMode.EventLabelIdempotent` | lib/elm-test.js:410-419 | labelling a label leaves it as it is, and every known event gets one of the three labels |
| `WatchMode.SettleRun` | lib/elm-test.js:383-391 | a failure prints its message; outside watch mode it then exits 1, and otherwise it is followed like a success by the watching line |
| `WatchMode.WatchModeNeverExits` | lib/elm-test.js:383-391 | in watch mode no outcome ends the process, and after a failure's error line the same things follow as after a success |
| `WatchMode.RebuildMessage` | lib/elm-test.js:421 | the rebuild line is a newline, the file path, a space, the event's label and `. Rebuilding!` |
| `WatchMode.RunChain.constructor` | lib/elm-test.js:394 | the first run is in flight and nothing waits |
| `WatchMode.RunChain.OnChange` | lib/elm-test.js:418-425 | each event prints its rebuild line only under console and appends exactly one run after all earlier ones; it starts at once only when nothing is running |
| `WatchMode.RunChain.Settle` | lib/elm-test.js:383-394 | the running run settles, failed or not, and the next appended run starts; runs start in the order they were appended, and at most one is in flight |

Two methods are worked examples of the contracts above, with no contract of their own:

- `RunEndpoint.ThreeWindowsRuns`: three runs in one Windows process get three different pipes.
- `WatchMode.BurstDuringRun`: three change events during the first run queue three more runs, which still start after that run fails.

## Left out

- `lib/Solve.js`: the dependency-cache helper hashes with SHA-1, reads and writes files and spawns `elm-json`; none of that is part of this model.
- Spawning `elm make`: `cross-spawn` and the compiler wrapper in `ElmCompiler.js` are outside the model. The model covers only the options and arguments handed to them.
- `Supervisor.js`, `Runner.js` and `Generate.js` are not part of this model. The supervisor call, the test-module discovery and the generated main module appear only as the values passed to them or as a run's outcome.
- The filesystem and the glob library (`existsSync`, `lstatSync`, `glob.sync`, `readJsonSync`) are inputs: the `Entry` value a lookup gives and the functions from patterns to matches. Their options (`nocase`, the glob's own `ignore`) are therefore not modelled.
- `which` lookup of the compiler binary is not modelled. Its result is the `pathToElmBinary` input.
- Reading and parsing `elm.json` are not modelled. Its two fields are the `ElmJson` input.
- chokidar itself is not modelled: watching, its stability window and `ignoreInitial`. What is modelled is the globs it watches, its ignore pattern, the event labels and the chain the events extend.
- Promise mechanics are reduced to the order of runs: `RunChain` records which run is in flight and which wait.
- The `uncaughtException` handler, `--help`, `--version`, `install`, `init`, console clearing and the Node version check are left out; they are script plumbing.
- `process.exit` is not modelled as ending the process. Where the source exits, the model returns a `Failure` with the exit status, or an `AfterRun` carrying one.
- Paths.Join, Paths.Resolve: `path.join` and `path.resolve` are modelled on paths that are already normal. `.`, `..`, repeated separators and Windows drive letters are not modelled there. The `path.posix.join` of the watch globs is modelled with its normalisation, in `Paths.PosixJoin`.
- WatchMode.WatchGlob: its lemmas cover relative directories of plain names, with or without a trailing `/` or a leading `./`. Absolute directories and directories containing `..` or `//` are covered by the definition of `Paths.PosixNormalize`, but no lemma states their globs.
- Node's `'' + n` for a pid or counter is modelled for non-negative integers only, which is what both are.
- WatchMode.SourceDirectories: a `source-directories` value that is not an array of strings is not modelled; a missing one, which makes the source throw, is `None`.
- WatchMode.EventLabel: inherited object keys such as `toString` are not modelled. The source would find those through `eventNameMap[event]`, but chokidar never emits them.
- CliOptions.ParseReport: the model takes a single optional text. minimist hands a repeated `--report` over as an array and `--no-report` as `false`, and the source rejects both with the usage message and exit 1 (lib/elm-test.js:289-293); those inputs are not modelled.
- CliOptions.ParseCommand: minimist turns numeric positional arguments into numbers, so `elm-test 42` hands the number 42 to `glob.sync`. The model keeps every positional argument as text.
- chalk's colouring of the watching line is not modelled; the line is kept as plain text.
