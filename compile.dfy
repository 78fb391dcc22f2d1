/** The compiler-launch wrapper: which options `elm make` is started with for a
    given report format, how its exit code settles the compile step, and the
    fixed directories the runner generates code into. `elm make` itself, the
    compiler wrapper that spawns it and the spawn are outside the model; what is
    modelled is the values handed to them. The `report` these functions take is
    the raw `--report` argument, `None` when it was not given. */
module Compile {

  import opened Outcomes
  import opened Text
  import opened Paths

  /** The standard streams of the runner's own process. */
  datatype Stream = Stdin | Stdout | Stderr

  /** One entry of a child's `stdio` array: the string 'ignore', or one of the
      runner's streams handed on to the child. */
  datatype Stdio = Ignore | Inherit(stream: Stream)

  /** The environment variables (`process.env`). */
  type Env = map<string, string>

  datatype OptionValue = EnvValue(env: Env) | StdioValue(stdio: seq<Stdio>) | TextValue(text: string)

  /** A spawn-options object: its keys and their values. */
  type SpawnOptions = map<string, OptionValue>

  /** A report format whose output is a single document on stdout. */
  function IsMachineReadableReporter(reporter: Option<string>): (b: bool)
    ensures b <==> reporter == Some("json") || reporter == Some("junit")
  {
    reporter == Some("json") || reporter == Some("junit")
  }

  /** Options the compiler wrapper passes on to the spawn: the environment
      always, and for a machine-readable report also a `stdio` that keeps only
      stderr. */
  function ProcessOptsForReporter(reporter: Option<string>, env: Env): (opts: SpawnOptions)
    ensures "env" in opts && opts["env"] == EnvValue(env)
    ensures "stdio" in opts <==> IsMachineReadableReporter(reporter)
    ensures "stdio" in opts ==> opts["stdio"] == StdioValue([Ignore, Ignore, Inherit(Stderr)])
    ensures opts.Keys <= {"env", "stdio"}
  {
    if IsMachineReadableReporter(reporter) then
      map["env" := EnvValue(env), "stdio" := StdioValue([Ignore, Ignore, Inherit(Stderr)])]
    else
      map["env" := EnvValue(env)]
  }

  /** The `stdio` that `spawnCompiler` always imposes. */
  function CompilerStdio(report: Option<string>): (stdio: seq<Stdio>)
    ensures |stdio| == 3 && stdio[0] == Inherit(Stdin) && stdio[2] == Inherit(Stderr)
    ensures stdio[1] == Inherit(Stdout) <==> report == Some("console")
    ensures stdio[1] != Inherit(Stdout) ==> stdio[1] == Ignore
  {
    [Inherit(Stdin), if report == Some("console") then Inherit(Stdout) else Ignore, Inherit(Stderr)]
  }

  /** The options `spawnCompiler(report)` spawns `elm make` with, given the
      options the wrapper passes it: `Object.assign({env}, processOpts, {stdio})`,
      so later objects win. */
  function SpawnCompilerOptions(report: Option<string>, env: Env, processOpts: SpawnOptions): (final: SpawnOptions)
    ensures final.Keys == processOpts.Keys + {"env", "stdio"}
    ensures final["stdio"] == StdioValue(CompilerStdio(report))
    ensures final["env"] == if "env" in processOpts then processOpts["env"] else EnvValue(env)
    ensures forall k :: k in processOpts && k != "stdio" ==> final[k] == processOpts[k]
  {
    map["env" := EnvValue(env)] + processOpts + map["stdio" := StdioValue(CompilerStdio(report))]
  }

  /** Whatever options the wrapper passes on, the compiler keeps the
      runner's stdin and stderr, and writes to the runner's stdout only under
      the console report: the `stdio` given last overrides any the wrapper set. */
  lemma CompilerStreams(report: Option<string>, env: Env, processOpts: SpawnOptions)
    ensures var final := SpawnCompilerOptions(report, env, processOpts);
      && final["stdio"].StdioValue?
      && final["stdio"].stdio[0] == Inherit(Stdin)
      && final["stdio"].stdio[2] == Inherit(Stderr)
      && (final["stdio"].stdio[1] == Inherit(Stdout) <==> report == Some("console"))
      && (IsMachineReadableReporter(report) ==> final["stdio"].stdio[1] == Ignore)
  {
  }

  /** The environment is the wrapper's choice; the options chosen for the
      raw report pass the runner's own, so the compiler runs in it. */
  lemma CompilerEnvironment(report: Option<string>, env: Env, wrapperEnv: Env)
    ensures SpawnCompilerOptions(report, env, ProcessOptsForReporter(report, env))["env"] == EnvValue(env)
    ensures SpawnCompilerOptions(report, env, map["env" := EnvValue(wrapperEnv)])["env"] == EnvValue(wrapperEnv)
    ensures SpawnCompilerOptions(report, env, map[])["env"] == EnvValue(env)
  {
  }

  /** The report format handed to the compiler by `compileSources`: only json
      is passed on. */
  function CompilerReport(report: Option<string>): (r: Option<string>)
    ensures r.Some? <==> report == Some("json")
    ensures r.Some? ==> r == report
  {
    if report == Some("json") then report else None
  }

  /** The options `elmCompiler.compile` is called with. `spawnReport` stands
      for the spawn function `spawnCompiler(spawnReport)`; `cwd` is `None`
      where the call leaves it out, and `report` is `None` where its value is
      `undefined`. */
  datatype CompilerCall = CompilerCall(
    sources: seq<string>,
    output: string,
    cwd: Option<string>,
    verbose: bool,
    spawnReport: Option<string>,
    pathToElm: string,
    report: Option<string>,
    processOpts: SpawnOptions)

  /** `compile`: build the one test entry file into `dest`. */
  function CompileCall(testFile: string, dest: string, verbose: bool, pathToElmBinary: string,
                       report: Option<string>, env: Env): (call: CompilerCall)
    ensures call.sources == [testFile] && call.output == dest
    ensures call.cwd.None? && call.report.None?
    ensures call.spawnReport == report && call.pathToElm == pathToElmBinary && call.verbose == verbose
    ensures call.processOpts == ProcessOptsForReporter(report, env)
  {
    CompilerCall([testFile], dest, None, verbose, report, pathToElmBinary, None,
                 ProcessOptsForReporter(report, env))
  }

  /** `compileSources`: type-check the test files in `projectRootDir`,
      discarding the output. */
  function CompileSourcesCall(testFilePaths: seq<string>, projectRootDir: string, verbose: bool,
                              pathToElmBinary: string, report: Option<string>, env: Env): (call: CompilerCall)
    ensures call.sources == testFilePaths && call.output == "/dev/null"
    ensures call.cwd == Some(projectRootDir)
    ensures call.report.Some? <==> report == Some("json")
    ensures call.report.Some? ==> call.report == report
    ensures call.spawnReport == report && call.pathToElm == pathToElmBinary && call.verbose == verbose
    ensures call.processOpts == ProcessOptsForReporter(report, env)
  {
    CompilerCall(testFilePaths, "/dev/null", Some(projectRootDir), verbose, report, pathToElmBinary,
                 CompilerReport(report), ProcessOptsForReporter(report, env))
  }

  /** How the compile promise settles. */
  datatype Settled = Resolved | Rejected(message: string)

  /** The exit code as a template literal prints it; Node reports `null` for a
      compiler killed by a signal. */
  function ExitCodeText(exitCode: Option<int>): (s: string)
    ensures |s| >= 1
    ensures exitCode.None? <==> s == "null"
    ensures exitCode.Some? && exitCode.value < 0 ==> s[0] == '-' && ParseNat(s[1..]) == Some(-exitCode.value)
    ensures exitCode.Some? && exitCode.value >= 0 ==> ParseNat(s) == Some(exitCode.value)
    ensures exitCode.Some? && exitCode.value < 0 ==> s[1] != '0'
    ensures exitCode.Some? && s[0] == '0' ==> exitCode.value == 0
  {
    match exitCode
    case None => "null"
    case Some(code) => ParseIntToString(code); IntToString(code)
  }

  const ELM_MAKE_FAILED := "`elm make` failed with exit code "

  /** The rejection message: fixed words, the exit code as text, a full stop. */
  function ElmMakeFailed(exitCode: Option<int>): (msg: string)
    ensures |msg| == |ELM_MAKE_FAILED| + |ExitCodeText(exitCode)| + 1
    ensures msg[..|ELM_MAKE_FAILED|] == ELM_MAKE_FAILED && msg[|msg| - 1] == '.'
    ensures msg[|ELM_MAKE_FAILED|..|msg| - 1] == ExitCodeText(exitCode)
  {
    ELM_MAKE_FAILED + ExitCodeText(exitCode) + "."
  }

  /** Different exit codes print differently. */
  lemma ExitCodeTextInjective(a: Option<int>, b: Option<int>)
    ensures ExitCodeText(a) == ExitCodeText(b) ==> a == b
  {
    if a.Some? && b.Some? {
      IntToStringInjective(a.value, b.value);
    }
  }

  /** The message of a failed compile names its exit code: different codes
      give different messages. */
  lemma ElmMakeFailedInjective(a: Option<int>, b: Option<int>)
    ensures ElmMakeFailed(a) == ElmMakeFailed(b) ==> a == b
  {
    ExitCodeTextInjective(a, b);
  }

  /** The close handler of `compile`: anything but exit code 0 rejects. */
  function CompileClosed(exitCode: Option<int>): (s: Settled)
    ensures s.Resolved? <==> exitCode == Some(0)
    ensures s.Rejected? ==> s.message == ElmMakeFailed(exitCode)
  {
    if exitCode != Some(0) then Rejected(ElmMakeFailed(exitCode)) else Resolved
  }

  /** The close handler of `compileSources`: only exit code 0 resolves. */
  function CompileSourcesClosed(exitCode: Option<int>): (s: Settled)
    ensures s.Resolved? <==> exitCode == Some(0)
    ensures s.Rejected? ==> s.message == ElmMakeFailed(exitCode)
  {
    if exitCode == Some(0) then Resolved else Rejected(ElmMakeFailed(exitCode))
  }

  /** Both compile steps settle the same way for every exit code, and a
      rejection always carries the code it came from. */
  lemma ClosedHandlersAgree(exitCode: Option<int>, other: Option<int>)
    ensures CompileClosed(exitCode) == CompileSourcesClosed(exitCode)
    ensures (CompileClosed(exitCode).Rejected? && CompileClosed(exitCode) == CompileClosed(other))
              ==> exitCode == other
  {
    ElmMakeFailedInjective(exitCode, other);
  }

  const GENERATED_CODE_SEGMENTS: seq<string> := ["elm-stuff", "generated-code", "elm-community", "elm-test"]

  /** Where generated code goes: `<root>/elm-stuff/generated-code/elm-community/elm-test/<version>`,
      `version` being the runner's package version. */
  function GeneratedCodeDir(projectRootDir: Path, version: string): (dir: Path)
    ensures dir.absolute == projectRootDir.absolute
    ensures dir.segments == projectRootDir.segments + GENERATED_CODE_SEGMENTS + [version]
  {
    Join(projectRootDir, GENERATED_CODE_SEGMENTS + [version])
  }

  /** The `tests` directory of the project, made absolute against `cwd`. */
  function TestRootDir(cwd: Path, projectRootDir: Path): (dir: Path)
    ensures dir.absolute
    ensures |dir.segments| >= 1 && dir.segments[|dir.segments| - 1] == "tests"
    ensures projectRootDir.absolute ==> dir.segments == projectRootDir.segments + ["tests"]
    ensures !projectRootDir.absolute ==> dir.segments == cwd.segments + projectRootDir.segments + ["tests"]
  {
    Resolve(cwd, Join(projectRootDir, ["tests"]))
  }
}
