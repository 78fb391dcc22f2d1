/** `runTests`: each run names the local endpoint its workers connect to
    from the platform, the process id and a per-process count of runs, and
    hands the compiler and the supervisor their arguments. The counter is the
    state of a `TestRunner`; platform and pid are fixed for the process. */
module RunEndpoint {

  import opened Outcomes
  import opened Text
  import opened Paths
  import Compile
  import CliOptions

  const WINDOWS_PIPE_PREFIX := "\\\\.\\pipe\\elm_test-"
  const SOCKET_PREFIX := "/tmp/elm_test-"
  const SOCKET_SUFFIX := ".sock"

  /** The endpoint of the run that made the counter `runsExecuted`: on Windows
      a named pipe carrying pid and counter, elsewhere a socket file carrying
      the pid alone. */
  function PipeFilename(platform: string, pid: nat, runsExecuted: nat): (name: string)
    ensures platform == "win32" ==>
      name == WINDOWS_PIPE_PREFIX + NatToString(pid) + "-" + NatToString(runsExecuted)
    ensures platform != "win32" ==> name == SOCKET_PREFIX + NatToString(pid) + SOCKET_SUFFIX
  {
    if platform == "win32" then WINDOWS_PIPE_PREFIX + NatToString(pid) + "-" + NatToString(runsExecuted)
    else SOCKET_PREFIX + NatToString(pid) + SOCKET_SUFFIX
  }

  /** A Windows pipe name determines both the process and the run: two runs of
      one process, or runs of two processes, never share a pipe. */
  lemma WindowsPipeNamesInjective(pid: nat, n: nat, pid': nat, n': nat)
    ensures PipeFilename("win32", pid, n) == PipeFilename("win32", pid', n') ==> pid == pid' && n == n'
  {
    var tail := NatToString(pid) + ['-'] + NatToString(n);
    var tail' := NatToString(pid') + ['-'] + NatToString(n');
    assert PipeFilename("win32", pid, n) == WINDOWS_PIPE_PREFIX + tail;
    assert PipeFilename("win32", pid', n') == WINDOWS_PIPE_PREFIX + tail';
    if PipeFilename("win32", pid, n) == PipeFilename("win32", pid', n') {
      CancelPrefix(WINDOWS_PIPE_PREFIX, tail, tail');
      assert '-' !in NatToString(pid) && '-' !in NatToString(pid');
      CancelAtSeparator(NatToString(pid), NatToString(n), NatToString(pid'), NatToString(n'), '-');
      NatToStringInjective(pid, pid');
      NatToStringInjective(n, n');
    }
  }

  /** Elsewhere the socket name does not depend on the run: every run of a
      process reuses the one socket path. */
  lemma SocketNameIgnoresCounter(platform: string, pid: nat, n: nat, m: nat)
    requires platform != "win32"
    ensures PipeFilename(platform, pid, n) == PipeFilename(platform, pid, m)
  {
  }

  /** The socket name still tells processes apart. */
  lemma SocketNamesInjective(platform: string, pid: nat, pid': nat, n: nat, n': nat)
    requires platform != "win32"
    ensures PipeFilename(platform, pid, n) == PipeFilename(platform, pid', n') ==> pid == pid'
  {
    var name, name' := PipeFilename(platform, pid, n), PipeFilename(platform, pid', n');
    if name == name' {
      var k := |SOCKET_PREFIX|;
      assert NatToString(pid) == name[k..|name| - |SOCKET_SUFFIX|];
      assert NatToString(pid') == name'[k..|name'| - |SOCKET_SUFFIX|];
      NatToStringInjective(pid, pid');
    }
  }

  /** What the supervisor is started with. */
  datatype SupervisorCall = SupervisorCall(
    version: string,
    pipeFilename: string,
    report: CliOptions.Reporter,
    processes: nat,
    dest: string,
    watch: bool,
    machineReadable: bool)

  /** The values of the command line and the environment that `runTests`
      reads; the report and the worker count are derived from `reportArg` and
      `cpuCount`. */
  datatype Settings = Settings(
    version: string,
    verbose: bool,
    pathToElmBinary: string,
    reportArg: Option<string>,
    cpuCount: nat,
    watch: bool,
    env: Compile.Env,
    sep: char)

  /** One run: the compiled output file, its endpoint, the compile call, the
      supervisor call once compiling succeeds, and the line printed on stderr
      when any step fails. */
  datatype TestRun = TestRun(
    dest: Path,
    pipeFilename: string,
    compile: Compile.CompilerCall,
    supervisor: SupervisorCall,
    failureNotice: string)

  class TestRunner {
    const platform: string
    const pid: nat
    var runsExecuted: nat

    /** The endpoint names handed out so far, oldest first. */
    ghost var issued: seq<string>

    ghost predicate Valid()
      reads this
    {
      && |issued| == runsExecuted
      && forall i :: 0 <= i < |issued| ==> issued[i] == PipeFilename(platform, pid, i + 1)
    }

    constructor (platform: string, pid: nat)
      ensures Valid()
      ensures this.platform == platform && this.pid == pid
      ensures runsExecuted == 0 && issued == []
    {
      this.platform := platform;
      this.pid := pid;
      runsExecuted := 0;
      issued := [];
    }

    /** `runTests(generatedCodeDir, testFile)`: count the run, then name its
        endpoint with the new count. An invalid `--report` has already ended
        the process, so only validated reports get here. */
    method RunTests(generatedCodeDir: Path, testFile: string, cwd: Path, settings: Settings)
      returns (run: TestRun)
      requires Valid()
      requires CliOptions.ParseReport(settings.reportArg).Ok?
      modifies this
      ensures Valid()
      ensures runsExecuted == old(runsExecuted) + 1
      ensures issued == old(issued) + [run.pipeFilename]
      ensures run.pipeFilename == PipeFilename(platform, pid, runsExecuted)
      ensures platform == "win32" ==> run.pipeFilename !in old(issued)
      ensures platform != "win32" ==> forall i :: 0 <= i < |old(issued)| ==> old(issued)[i] == run.pipeFilename
      ensures run.dest == Resolve(cwd, Join(generatedCodeDir, ["elmTestOutput.js"]))
      ensures run.compile == Compile.CompileCall(testFile, Render(run.dest, settings.sep), settings.verbose,
                                                 settings.pathToElmBinary, settings.reportArg, settings.env)
      ensures run.supervisor == SupervisorCall(settings.version, run.pipeFilename,
                                               CliOptions.ParseReport(settings.reportArg).value,
                                               CliOptions.Processes(settings.cpuCount), Render(run.dest, settings.sep),
                                               settings.watch,
                                               CliOptions.ParseReport(settings.reportArg).value != CliOptions.Console)
      ensures run.failureNotice == "Compilation failed for " + testFile
    {
      var dest := Resolve(cwd, Join(generatedCodeDir, ["elmTestOutput.js"]));
      runsExecuted := runsExecuted + 1;
      var pipeFilename := PipeFilename(platform, pid, runsExecuted);
      forall i | 0 <= i < |issued| && platform == "win32" ensures issued[i] != pipeFilename {
        WindowsPipeNamesInjective(pid, i + 1, pid, runsExecuted);
      }
      issued := issued + [pipeFilename];
      var destText := Render(dest, settings.sep);
      var compile := Compile.CompileCall(testFile, destText, settings.verbose, settings.pathToElmBinary,
                                         settings.reportArg, settings.env);
      var report := CliOptions.ParseReport(settings.reportArg).value;
      var isMachineReadable := Compile.IsMachineReadableReporter(Some(CliOptions.ReporterName(report)));
      CliOptions.InfoLogOnlyForHumanReadable(report, "");
      var supervisor := SupervisorCall(settings.version, pipeFilename, report, CliOptions.Processes(settings.cpuCount),
                                       destText, settings.watch, isMachineReadable);
      run := TestRun(dest, pipeFilename, compile, supervisor, "Compilation failed for " + testFile);
    }
  }

  /** Three runs in one Windows process get three different pipes, numbered
      1, 2 and 3. */
  method ThreeWindowsRuns(pid: nat, generatedCodeDir: Path, cwd: Path, settings: Settings)
    requires CliOptions.ParseReport(settings.reportArg).Ok?
  {
    var runner := new TestRunner("win32", pid);
    var first := runner.RunTests(generatedCodeDir, "Main.elm", cwd, settings);
    var second := runner.RunTests(generatedCodeDir, "Main.elm", cwd, settings);
    var third := runner.RunTests(generatedCodeDir, "Main.elm", cwd, settings);
    assert third.pipeFilename == WINDOWS_PIPE_PREFIX + NatToString(pid) + "-" + NatToString(3);
    assert first.pipeFilename != second.pipeFilename;
    assert first.pipeFilename != third.pipeFilename && second.pipeFilename != third.pipeFilename;
  }
}
