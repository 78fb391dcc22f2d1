/** The run configuration the front end settles before any test runs: the
    report format and the info lines it allows, the worker count, the `make`
    subcommand and its exit status, and the message shown when no test file is
    found. */
module CliOptions {

  import opened Outcomes
  import opened Text
  import Compile

  /** The three report formats. */
  datatype Reporter = Console | Json | Junit

  function ReporterName(r: Reporter): string {
    match r
    case Console => "console"
    case Json => "json"
    case Junit => "junit"
  }

  const REPORT_USAGE := "The --report option must be given either 'console', 'junit', or 'json'"

  /** Validating `--report`: the three names are accepted as they are, a
      missing option means console, anything else ends the run with exit 1. */
  function ParseReport(arg: Option<string>): (r: Result<Reporter, Failure>)
    ensures arg.None? ==> r == Ok(Console)
    ensures r.Ok? <==> arg.None? || arg.value == "console" || arg.value == "json" || arg.value == "junit"
    ensures r.Ok? && arg.Some? ==> ReporterName(r.value) == arg.value
    ensures r.Err? ==> r.error == Failure(REPORT_USAGE, 1)
  {
    match arg
    case None => Ok(Console)
    case Some(name) =>
      if name == "console" then Ok(Console)
      else if name == "json" then Ok(Json)
      else if name == "junit" then Ok(Junit)
      else Err(Failure(REPORT_USAGE, 1))
  }

  /** Every report format is accepted under its own name. */
  lemma ParseReporterName(r: Reporter)
    ensures ParseReport(Some(ReporterName(r))) == Ok(r)
  {
  }

  /** `infoLog(msg)`: the line printed on stdout, if any. */
  function InfoLog(report: Reporter, msg: string): (line: Option<string>)
    ensures line.Some? <==> report == Console
    ensures line.Some? ==> line.value == msg
  {
    if report == Console then Some(msg) else None
  }

  /** A validated report is machine-readable exactly when it is not console,
      and then no info line reaches stdout. */
  lemma InfoLogOnlyForHumanReadable(report: Reporter, msg: string)
    ensures Compile.IsMachineReadableReporter(Some(ReporterName(report))) <==> report != Console
    ensures InfoLog(report, msg).Some? <==> !Compile.IsMachineReadableReporter(Some(ReporterName(report)))
  {
  }

  /** Without `--report` the report is console and info lines are printed, but
      the compiler is handed the missing option itself, so its stdout is
      discarded; with `--report console` it is shown. */
  lemma DefaultReportSilencesCompiler(msg: string)
    ensures ParseReport(None) == Ok(Console) && InfoLog(Console, msg) == Some(msg)
    ensures Compile.CompilerStdio(None)[1] == Compile.Ignore
    ensures Compile.CompilerStdio(Some("console"))[1] == Compile.Inherit(Compile.Stdout)
  {
  }

  /** The number of worker processes: one per logical cpu, at least one. */
  function Processes(cpuCount: nat): (n: nat)
    ensures n >= 1 && n >= cpuCount
    ensures n == cpuCount || (cpuCount == 0 && n == 1)
  {
    if cpuCount > 1 then cpuCount else 1
  }

  /** What the positional arguments ask for: `make` followed by globs, or the
      globs of the test files to run. */
  datatype Command = Command(isMake: bool, testFileGlobs: seq<string>)

  function ParseCommand(positional: seq<string>): (c: Command)
    ensures c.isMake <==> |positional| >= 1 && positional[0] == "make"
    ensures c.isMake ==> [positional[0]] + c.testFileGlobs == positional
    ensures !c.isMake ==> c.testFileGlobs == positional
  {
    var isMake := |positional| >= 1 && positional[0] == "make";
    Command(isMake, if isMake then positional[1..] else positional)
  }

  /** The exit status of `elm-test make`: 0 once the sources compiled, 1 otherwise. */
  function MakeExitCode(settled: Compile.Settled): (code: int)
    ensures code == 0 <==> settled.Resolved?
    ensures code == 0 || code == 1
  {
    match settled
    case Resolved => 0
    case Rejected(_) => 1
  }

  /** `elm-test make` exits with 0 exactly when `elm make` exited with 0; a
      compiler killed by a signal counts as a failure. */
  lemma MakeExitStatus(exitCode: Option<int>)
    ensures MakeExitCode(Compile.CompileSourcesClosed(exitCode)) == 0 <==> exitCode == Some(0)
    ensures exitCode != Some(0) ==> MakeExitCode(Compile.CompileSourcesClosed(exitCode)) == 1
  {
  }

  const NO_TESTS_FOUND :=
    "No .elm files found in the tests/ directory.\n\n"
    + "To generate some initial tests to get things going: elm-test init\n\n"
    + "Alternatively, if your project has tests in a different directory,\n"
    + "try calling elm-test with a glob such as: elm-test \"src/**/*Tests.elm\""

  const NO_MATCH_HEADER := "No files found matching:\n\n"

  const NO_MATCH_FOOTER := "\n\nAre the above patterns correct? Maybe try running elm-test with no arguments?"

  /** `noFilesFoundError(testFileGlobs)`, after `trim()`: the trimming only
      removes the leading newline and trailing indentation of the template,
      because the text starts and ends with fixed words. */
  function NoFilesFoundError(testFileGlobs: seq<string>): (msg: string)
    ensures |testFileGlobs| == 0 ==> msg == NO_TESTS_FOUND
    ensures |testFileGlobs| > 0 ==>
      |msg| >= |NO_MATCH_HEADER| + |NO_MATCH_FOOTER|
      && msg[..|NO_MATCH_HEADER|] == NO_MATCH_HEADER
      && msg[|msg| - |NO_MATCH_FOOTER|..] == NO_MATCH_FOOTER
  {
    if |testFileGlobs| == 0 then NO_TESTS_FOUND
    else NO_MATCH_HEADER + JoinWith(testFileGlobs, "\n") + NO_MATCH_FOOTER
  }

  /** The message lists the globs one per line, in order: the lines between
      header and footer are exactly the globs given. */
  lemma NoFilesFoundErrorListsGlobs(testFileGlobs: seq<string>)
    requires |testFileGlobs| > 0
    requires forall i :: 0 <= i < |testFileGlobs| ==> '\n' !in testFileGlobs[i]
    ensures var msg := NoFilesFoundError(testFileGlobs);
      Split(msg[|NO_MATCH_HEADER|..|msg| - |NO_MATCH_FOOTER|], '\n') == testFileGlobs
  {
    var msg := NoFilesFoundError(testFileGlobs);
    var listed := JoinWith(testFileGlobs, "\n");
    assert msg == NO_MATCH_HEADER + listed + NO_MATCH_FOOTER;
    assert msg[|NO_MATCH_HEADER|..|msg| - |NO_MATCH_FOOTER|] == listed;
    SplitJoin(testFileGlobs, '\n');
  }

  /** Before running (not for `make`), an empty list of test files ends the
      run with the message above and exit 1. */
  function CheckTestFilesFound(command: Command, testFilePaths: seq<string>): (r: Result<seq<string>, Failure>)
    ensures r.Err? <==> !command.isMake && |testFilePaths| == 0
    ensures r.Ok? ==> r.value == testFilePaths
    ensures r.Err? ==> r.error == Failure(NoFilesFoundError(command.testFileGlobs), 1)
  {
    if !command.isMake && |testFilePaths| == 0 then Err(Failure(NoFilesFoundError(command.testFileGlobs), 1))
    else Ok(testFilePaths)
  }
}
