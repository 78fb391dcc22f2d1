/** Watch mode: the globs handed to the file watcher, the paths it ignores,
    the labels of its events, what happens after each run, and the chain of
    runs that every change event extends. The watcher itself, its stability
    window and console clearing are outside the model; a run is one call of
    `run()`, from finding the tests to the supervisor settling. */
module WatchMode {

  import opened Outcomes
  import opened Text
  import opened Paths
  import CliOptions
  import TestFiles

  /** The fields of elm.json that decide what is watched; `None` where the
      field is absent. */
  datatype ElmJson = ElmJson(projectType: Option<string>, sourceDirectories: Option<seq<string>>)

  const WATCH_SUFFIX := "/**/*.elm"

  /** The names after the directory in every watched glob. */
  lemma SplitGlobTail()
    ensures Split("**/*.elm", '/') == ["**", "*.elm"]
    ensures AllPlain(["**", "*.elm"])
  {
    SplitTwoNames("**", "*.elm");
    assert "**" + ['/'] + "*.elm" == "**/*.elm";
  }

  lemma SplitTwoNames(a: string, b: string)
    requires '/' !in a && '/' !in b
    ensures Split(a + ['/'] + b, '/') == [a, b]
  {
    SplitWhole(a, '/');
    SplitWhole(b, '/');
    SplitAround(a, b, '/');
  }

  /** A directory name as a user writes it without `.`, `..`, doubled or
      trailing slashes, and not absolute. */
  predicate NormalDir(dir: string) {
    dir != "" && dir[|dir| - 1] != '/' && AllPlain(Split(dir, '/'))
  }

  /** `path.posix.join(dir, '**', '*.elm')`. */
  function WatchGlob(dir: string): (glob: string)
    ensures |glob| >= 1
    ensures dir == "" ==> glob == "**/*.elm"
  {
    EmptyDirGlob(dir);
    PosixJoin([dir, "**", "*.elm"])
  }

  /** With an empty directory only the two glob names are joined. */
  lemma EmptyDirGlob(dir: string)
    ensures dir == "" ==> PosixJoin([dir, "**", "*.elm"]) == "**/*.elm"
  {
    if dir == "" {
      GlobNames(dir);
      SplitGlobTail();
      NormalizeNormal("**/*.elm");
    }
  }

  /** The names `path.posix.join` joins for a watched glob. */
  lemma GlobNames(dir: string)
    ensures NonEmptyNames([dir, "**", "*.elm"]) == (if dir == "" then [] else [dir]) + ["**", "*.elm"]
  {
    var names := [dir, "**", "*.elm"];
    assert names[1..] == ["**", "*.elm"] && names[1..][1..] == ["*.elm"] && names[1..][1..][1..] == [];
    assert NonEmptyNames(["*.elm"]) == ["*.elm"];
    assert NonEmptyNames(["**", "*.elm"]) == ["**", "*.elm"];
  }

  /** The names of `path.posix.join(dir, '**', '*.elm')` for a non-empty `dir`. */
  lemma WatchGlobJoined(dir: string)
    requires dir != ""
    ensures WatchGlob(dir) == PosixNormalize(dir + WATCH_SUFFIX)
    ensures Split(dir + WATCH_SUFFIX, '/') == Split(dir, '/') + ["**", "*.elm"]
  {
    GlobNames(dir);
    GlobText(dir);
    GlobPieces(dir);
  }

  lemma GlobText(dir: string)
    ensures JoinWith([dir, "**", "*.elm"], "/") == dir + WATCH_SUFFIX
  {
    var names := [dir, "**", "*.elm"];
    assert names[1..] == ["**", "*.elm"] && names[1..][1..] == ["*.elm"];
    assert JoinWith(["*.elm"], "/") == "*.elm";
    assert JoinWith(["**", "*.elm"], "/") == "**" + "/" + "*.elm";
    assert JoinWith(names, "/") == dir + "/" + ("**" + "/" + "*.elm");
    assert dir + "/" + ("**" + "/" + "*.elm") == dir + WATCH_SUFFIX;
  }

  lemma GlobPieces(dir: string)
    ensures Split(dir + WATCH_SUFFIX, '/') == Split(dir, '/') + ["**", "*.elm"]
  {
    SplitGlobTail();
    assert dir + WATCH_SUFFIX == dir + ['/'] + "**/*.elm";
    SplitAround(dir, "**/*.elm", '/');
  }

  /** A relative text whose normalised names are those of `t` normalises to `t`. */
  lemma NormalizesTo(s: string, t: string)
    requires s != "" && s[0] != '/' && s[|s| - 1] != '/' && t != ""
    requires NormalizeNames([], Split(s, '/'), false) == Split(t, '/')
    ensures PosixNormalize(s) == t
  {
    JoinSplit(t, '/');
  }

  /** A directory as written is followed by the glob suffix. */
  lemma WatchGlobOfNormalDir(dir: string)
    requires NormalDir(dir)
    ensures WatchGlob(dir) == dir + WATCH_SUFFIX
  {
    WatchGlobJoined(dir);
    SplitGlobTail();
    NormalizeNormal(dir + WATCH_SUFFIX);
  }

  /** A trailing slash on the directory is dropped: `src/` watches `src/**/*.elm`. */
  lemma WatchGlobDropsTrailingSlash(dir: string)
    requires NormalDir(dir)
    ensures WatchGlob(dir + "/") == dir + WATCH_SUFFIX
  {
    var pieces := Split(dir, '/');
    WatchGlobJoined(dir + "/");
    WatchGlobJoined(dir);
    TrailingSlashPieces(dir);
    NormalizeDropsEmpty(pieces);
    assert PlainName(pieces[0]);
    assert (dir + "/" + WATCH_SUFFIX)[0] == dir[0];
    NormalizesTo(dir + "/" + WATCH_SUFFIX, dir + WATCH_SUFFIX);
  }

  lemma TrailingSlashPieces(dir: string)
    ensures Split(dir + "/", '/') == Split(dir, '/') + [""]
  {
    SplitAround(dir, [], '/');
    assert dir + ['/'] + [] == dir + "/";
  }

  lemma NormalizeDropsEmpty(pieces: seq<string>)
    requires AllPlain(pieces)
    ensures NormalizeNames([], pieces + [""] + ["**", "*.elm"], false) == pieces + ["**", "*.elm"]
  {
    SplitGlobTail();
    NormalizeAppend([], pieces + [""], ["**", "*.elm"], false);
    NormalizeAppend([], pieces, [""], false);
    NormalizePlain([], pieces, false);
    NormalizePlain(pieces, ["**", "*.elm"], false);
    assert [] + pieces == pieces;
  }

  /** A leading `./` is dropped: `./src` watches `src/**/*.elm`. */
  lemma WatchGlobDropsDotPrefix(dir: string)
    requires NormalDir(dir)
    ensures WatchGlob("./" + dir) == dir + WATCH_SUFFIX
  {
    var pieces := Split(dir, '/');
    WatchGlobJoined("./" + dir);
    WatchGlobJoined(dir);
    DotPrefixPieces(dir);
    NormalizeDropsDot(pieces);
    assert ("./" + dir + WATCH_SUFFIX)[0] == '.';
    NormalizesTo("./" + dir + WATCH_SUFFIX, dir + WATCH_SUFFIX);
  }

  lemma DotPrefixPieces(dir: string)
    ensures Split("./" + dir, '/') == ["."] + Split(dir, '/')
  {
    SplitWhole(".", '/');
    SplitAround(".", dir, '/');
    assert "." + ['/'] + dir == "./" + dir;
  }

  lemma NormalizeDropsDot(pieces: seq<string>)
    requires AllPlain(pieces)
    ensures NormalizeNames([], ["."] + pieces + ["**", "*.elm"], false) == pieces + ["**", "*.elm"]
  {
    SplitGlobTail();
    assert ["."] + pieces + ["**", "*.elm"] == ["."] + (pieces + ["**", "*.elm"]);
    assert (["."] + (pieces + ["**", "*.elm"]))[1..] == pieces + ["**", "*.elm"];
    assert AllPlain(pieces + ["**", "*.elm"]);
    NormalizePlain([], pieces + ["**", "*.elm"], false);
    assert [] + (pieces + ["**", "*.elm"]) == pieces + ["**", "*.elm"];
  }

  /** The directories whose sources are watched besides `tests`: `src` for a
      package, otherwise the elm.json `source-directories`. Spreading a missing
      `source-directories` throws, which is `None` here. */
  function SourceDirectories(elmJson: ElmJson): (dirs: Option<seq<string>>)
    ensures elmJson.projectType == Some("package") ==> dirs == Some([PACKAGE_SOURCE_DIR])
    ensures elmJson.projectType != Some("package") ==> dirs == elmJson.sourceDirectories
  {
    if elmJson.projectType == Some("package") then Some([PACKAGE_SOURCE_DIR]) else elmJson.sourceDirectories
  }

  /** The one source directory of a package. */
  const PACKAGE_SOURCE_DIR := "src"

  /** The test directory, always watched. */
  const TESTS_DIR := "tests"

  /** `getGlobsToWatch(elmJson)`: one glob per source directory, in order,
      then one for `tests`. */
  function GetGlobsToWatch(elmJson: ElmJson): (globs: Option<seq<string>>)
    ensures globs.None? <==> elmJson.projectType != Some("package") && elmJson.sourceDirectories.None?
    ensures globs.Some? ==>
      && var dirs := SourceDirectories(elmJson).value;
      && |globs.value| == |dirs| + 1
      && (forall i :: 0 <= i < |dirs| + 1 ==> globs.value[i] == WatchGlob((dirs + [TESTS_DIR])[i]))
  {
    match SourceDirectories(elmJson)
    case None => None
    case Some(dirs) =>
      var all := dirs + [TESTS_DIR];
      Some(seq(|all|, i requires 0 <= i < |all| => WatchGlob(all[i])))
  }

  /** A package project watches `src` and `tests`, whatever its elm.json
      lists as source directories. */
  lemma PackageWatchesSrcAndTests(elmJson: ElmJson)
    requires elmJson.projectType == Some("package")
    ensures GetGlobsToWatch(elmJson) == Some([PACKAGE_SOURCE_DIR + WATCH_SUFFIX, TESTS_DIR + WATCH_SUFFIX])
  {
    WatchGlobOfName(PACKAGE_SOURCE_DIR);
    WatchGlobOfName(TESTS_DIR);
    OneDirectoryGlobs(elmJson, PACKAGE_SOURCE_DIR);
  }

  lemma OneDirectoryGlobs(elmJson: ElmJson, dir: string)
    requires SourceDirectories(elmJson) == Some([dir])
    ensures GetGlobsToWatch(elmJson) == Some([WatchGlob(dir), WatchGlob(TESTS_DIR)])
  {
    var all := [dir] + [TESTS_DIR];
    assert all[0] == dir && all[1] == TESTS_DIR;
    GlobAt(elmJson, [dir], 0);
    GlobAt(elmJson, [dir], 1);
    PairEq(GetGlobsToWatch(elmJson).value, WatchGlob(dir), WatchGlob(TESTS_DIR));
  }

  lemma GlobAt(elmJson: ElmJson, dirs: seq<string>, i: int)
    requires SourceDirectories(elmJson) == Some(dirs) && 0 <= i <= |dirs|
    ensures GetGlobsToWatch(elmJson).Some? && |GetGlobsToWatch(elmJson).value| == |dirs| + 1
    ensures GetGlobsToWatch(elmJson).value[i] == WatchGlob((dirs + [TESTS_DIR])[i])
  {
  }

  lemma PairEq<T>(s: seq<T>, a: T, b: T)
    requires |s| == 2 && s[0] == a && s[1] == b
    ensures s == [a, b]
  {
  }

  /** A single plain name is watched under itself. */
  lemma WatchGlobOfName(dir: string)
    requires PlainName(dir) && '/' !in dir
    ensures WatchGlob(dir) == dir + WATCH_SUFFIX
  {
    SplitWhole(dir, '/');
    WatchGlobOfNormalDir(dir);
  }

  /** The watcher's `ignored` pattern `/(\/|^)elm-stuff(\/|$)/`: `elm-stuff`
      at the start or after a slash, and at the end or before a slash. */
  predicate MatchesElmStuffAt(path: string, i: int) {
    && 0 <= i && i + 9 <= |path|
    && path[i..i + 9] == "elm-stuff"
    && (i == 0 || path[i - 1] == '/')
    && (i + 9 == |path| || path[i + 9] == '/')
  }

  predicate IgnoredByWatcher(path: string): (ignored: bool)
    ensures ignored ==> |path| >= 9
  {
    exists i :: 0 <= i < |path| && MatchesElmStuffAt(path, i)
  }

  const ELM_STUFF := "elm-stuff"

  /** An `elm-stuff` directory is ignored wherever it sits, at the start of
      the path or after a slash, and so is everything below it. */
  lemma IgnoresElmStuffDirectory(before: string, after: string)
    requires before == "" || before[|before| - 1] == '/'
    requires after == "" || after[0] == '/'
    ensures IgnoredByWatcher(before + ELM_STUFF + after)
  {
    var path := before + ELM_STUFF + after;
    assert path[|before|..|before| + 9] == ELM_STUFF;
    assert MatchesElmStuffAt(path, |before|);
  }

  /** A longer name that only begins with `elm-stuff`, such as
      `elm-stuffing` or `elm-stuff.old`, is watched. */
  lemma WatchesElmStuffLookalike(rest: string)
    requires rest != [] && '/' !in rest
    ensures !IgnoredByWatcher(ELM_STUFF + rest)
  {
    assert '/' !in ELM_STUFF;
    assert |ELM_STUFF + rest| > |ELM_STUFF|;
    NoSlashMatch(ELM_STUFF + rest);
  }

  /** The first piece of a split ends at the first separator. */
  lemma SplitAtFirst(s: string, sep: char)
    ensures sep !in s ==> Split(s, sep) == [s]
    ensures sep in s ==>
      Split(s, sep) == [s[..FirstIndex(s, sep)]] + Split(s[FirstIndex(s, sep) + 1..], sep)
  {
    if sep !in s {
      SplitPrefix(s, [], sep);
      assert s + [] == s;
    } else {
      var k := FirstIndex(s, sep);
      var rest := s[k + 1..];
      assert s == s[..k] + ([sep] + rest);
      SplitPrefix(s[..k], [sep] + rest, sep);
      assert ([sep] + rest)[1..] == rest;
      assert Split([sep] + rest, sep) == [[]] + Split(rest, sep);
      assert s[..k] + [] == s[..k];
    }
  }

  /** With no slash in the path, the pattern matches only the whole path. */
  lemma NoSlashMatch(path: string)
    requires '/' !in path
    ensures IgnoredByWatcher(path) <==> path == "elm-stuff"
  {
    if IgnoredByWatcher(path) {
      var i :| 0 <= i < |path| && MatchesElmStuffAt(path, i);
      assert i == 0;
      assert i + 9 == |path|;
      assert path == path[i..i + 9];
    }
    if path == "elm-stuff" {
      assert MatchesElmStuffAt(path, 0);
    }
  }

  /** The text of `elm-stuff` holds no slash. */
  lemma ElmStuffHasNoSlash(path: string, i: int)
    requires 0 <= i && i + 9 <= |path| && path[i..i + 9] == "elm-stuff"
    ensures forall j :: i <= j < i + 9 ==> path[j] != '/'
  {
    forall j | i <= j < i + 9 ensures path[j] != '/' {
      assert path[j] == "elm-stuff"[j - i];
    }
  }

  /** A match at or before the first slash, at `k`, is the whole first component. */
  lemma MatchBeforeFirstSlash(path: string, k: int, i: int)
    requires 0 <= k < |path| && path[k] == '/' && forall j :: 0 <= j < k ==> path[j] != '/'
    requires 0 <= i <= k && MatchesElmStuffAt(path, i)
    ensures path[..k] == "elm-stuff"
  {
    assert i == 0;
    ElmStuffHasNoSlash(path, 0);
    assert k >= 9;
    assert path[9] == '/';
    assert k == 9;
  }

  /** A match after a slash is a match in what follows the slash. */
  lemma ShiftMatch(path: string, k: int, i: int)
    requires 0 <= k < i < |path| && MatchesElmStuffAt(path, i)
    ensures MatchesElmStuffAt(path[k + 1..], i - k - 1)
  {
    var rest := path[k + 1..];
    var j := i - k - 1;
    assert rest[j..j + 9] == path[i..i + 9];
    assert j > 0 ==> rest[j - 1] == path[i - 1];
    assert j + 9 < |rest| ==> rest[j + 9] == path[i + 9];
  }

  /** One match is enough for the watcher to ignore the path. */
  lemma MatchIgnored(path: string, i: int)
    requires 0 <= i < |path| && MatchesElmStuffAt(path, i)
    ensures IgnoredByWatcher(path)
  {
  }

  /** A match in what follows a slash is a match in the path. */
  lemma UnshiftMatch(path: string, k: int, j: int)
    requires 0 <= k < |path| && path[k] == '/'
    requires 0 <= j < |path[k + 1..]| && MatchesElmStuffAt(path[k + 1..], j)
    ensures MatchesElmStuffAt(path, j + k + 1)
  {
    var rest := path[k + 1..];
    var i: int := j + k + 1;
    assert path[i..i + 9] == rest[j..j + 9];
    assert j > 0 ==> path[i - 1] == rest[j - 1];
    assert i + 9 < |path| ==> path[i + 9] == rest[j + 9];
  }

  /** A first component `elm-stuff` is a match at the start. */
  lemma FirstComponentMatch(path: string, k: int)
    requires 0 <= k < |path| && path[k] == '/' && path[..k] == "elm-stuff"
    ensures MatchesElmStuffAt(path, 0)
  {
    assert k == 9;
    assert path[..9] == path[0..9];
  }

  /** With the first slash at `k`, a match either is the first component or
      lies wholly after the slash. */
  lemma FirstSlashMatch(path: string, k: int)
    requires 0 <= k < |path| && path[k] == '/' && forall j :: 0 <= j < k ==> path[j] != '/'
    ensures IgnoredByWatcher(path) <==> path[..k] == "elm-stuff" || IgnoredByWatcher(path[k + 1..])
  {
    var rest := path[k + 1..];
    if IgnoredByWatcher(path) {
      var i :| 0 <= i < |path| && MatchesElmStuffAt(path, i);
      if i <= k {
        MatchBeforeFirstSlash(path, k, i);
      } else {
        ShiftMatch(path, k, i);
        MatchIgnored(rest, i - k - 1);
      }
    }
    if path[..k] == "elm-stuff" {
      FirstComponentMatch(path, k);
      MatchIgnored(path, 0);
    }
    if IgnoredByWatcher(rest) {
      var j :| 0 <= j < |rest| && MatchesElmStuffAt(rest, j);
      UnshiftMatch(path, k, j);
      MatchIgnored(path, j + k + 1);
    }
  }

  /** The watcher ignores exactly the paths that the test-file filter drops
      for having an `elm-stuff` component (with `/` as separator). */
  lemma {:induction false} WatcherIgnoresWhatFilterDrops(path: string)
    ensures IgnoredByWatcher(path) <==> !TestFiles.OutsideElmStuff(path, '/')
    decreases |path|
  {
    SplitAtFirst(path, '/');
    if '/' !in path {
      NoSlashMatch(path);
    } else {
      var k := FirstIndex(path, '/');
      FirstSlashMatch(path, k);
      WatcherIgnoresWhatFilterDrops(path[k + 1..]);
    }
  }

  /** `eventNameMap`. */
  const EVENT_NAME_MAP: map<string, string> :=
    map["add" := "added", "addDir" := "added", "change" := "changed", "unlink" := "removed", "unlinkDir" := "removed"]

  /** `eventNameMap[event] || event`. */
  function EventLabel(event: string): (shown: string)
    ensures event == "add" || event == "addDir" ==> shown == "added"
    ensures event == "change" ==> shown == "changed"
    ensures event == "unlink" || event == "unlinkDir" ==> shown == "removed"
    ensures event !in EVENT_NAME_MAP ==> shown == event
  {
    if event in EVENT_NAME_MAP then EVENT_NAME_MAP[event] else event
  }

  /** Labels are left as they are: labelling twice is labelling once, and
      every known event ends up as one of three labels. */
  lemma EventLabelIdempotent(event: string)
    ensures EventLabel(EventLabel(event)) == EventLabel(event)
    ensures event in EVENT_NAME_MAP ==> EventLabel(event) in {"added", "changed", "removed"}
  {
  }

  /** The info line printed for a change event. */
  function RebuildMessage(filePath: string, event: string): (msg: string)
    ensures |msg| == |filePath| + |EventLabel(event)| + 2 + |REBUILDING|
    ensures msg[0] == '\n' && msg[|filePath| + 1] == ' '
    ensures msg[1..|filePath| + 1] == filePath
    ensures msg[|filePath| + 2..|msg| - |REBUILDING|] == EventLabel(event)
    ensures msg[|msg| - |REBUILDING|..] == REBUILDING
  {
    "\n" + filePath + " " + EventLabel(event) + REBUILDING
  }

  const REBUILDING := ". Rebuilding!"

  /** How a run ended: the promise from finding the tests to the supervisor
      resolved, or rejected with an error message. */
  datatype RunOutcome = Passed | Failed(message: string)

  datatype LogLine = Out(text: string) | ErrOut(text: string)

  /** What `run()` does once the run settles: the lines it prints and, when it
      ends the process, the exit status. */
  datatype AfterRun = AfterRun(lines: seq<LogLine>, exitCode: Option<int>)

  const WATCHING := "Watching for changes..."

  /** A failure prints its message; outside watch mode it then exits with 1,
      in watch mode it is swallowed and the run resolves like a success. */
  function SettleRun(outcome: RunOutcome, watch: bool): (after: AfterRun)
    ensures after.exitCode.Some? <==> outcome.Failed? && !watch
    ensures after.exitCode.Some? ==> after.exitCode == Some(1) && after.lines == [ErrOut(outcome.message)]
    ensures after.exitCode.None? ==> |after.lines| >= 1 && after.lines[|after.lines| - 1] == Out(WATCHING)
    ensures outcome.Failed? ==> after.lines[0] == ErrOut(outcome.message)
    ensures outcome.Passed? ==> after.lines == [Out(WATCHING)]
  {
    match outcome
    case Passed => AfterRun([Out(WATCHING)], None)
    case Failed(message) =>
      if watch then AfterRun([ErrOut(message), Out(WATCHING)], None)
      else AfterRun([ErrOut(message)], Some(1))
  }

  /** In watch mode no outcome ends the process, and the outcome makes no
      difference to what follows beyond the error line. */
  lemma WatchModeNeverExits(outcome: RunOutcome)
    ensures SettleRun(outcome, true).exitCode.None?
    ensures outcome.Failed? ==> SettleRun(outcome, true).lines[1..] == SettleRun(Passed, true).lines
  {
  }

  /** The runs 0, 1, ..., n - 1. */
  function Range(n: nat): (r: seq<nat>)
    ensures |r| == n && forall i :: 0 <= i < n ==> r[i] == i
  {
    seq(n, i requires 0 <= i < n => i)
  }

  /** The promise chain `currentRun` in watch mode. Runs are numbered in the
      order they were appended: 0 is the first `run()`, each change event
      appends the next number. `inFlight` is the run the chain waits on,
      `pending` the runs appended after it, `settled` those that are over. */
  class RunChain {
    var settled: seq<nat>
    var inFlight: Option<nat>
    var pending: seq<nat>
    var requested: nat

    ghost function Started(): seq<nat>
      reads this
    {
      settled + (if inFlight.Some? then [inFlight.value] else [])
    }

    /** Runs settle and start in the order they were appended, at most one is
        running, and nothing waits while nothing runs. */
    ghost predicate Valid()
      reads this
    {
      && Started() + pending == Range(requested)
      && (inFlight.None? ==> pending == [])
    }

    /** `var currentRun = run()`. */
    constructor ()
      ensures Valid()
      ensures settled == [] && inFlight == Some(0) && pending == [] && requested == 1
    {
      settled, inFlight, pending, requested := [], Some(0), [], 1;
      assert Range(1) == [0];
    }

    /** A watcher event: print the rebuild line if the report allows it, and
        `currentRun = currentRun.then(run)` -- exactly one more run, after all
        earlier ones; it starts at once only when nothing is running. */
    method OnChange(event: string, filePath: string, report: CliOptions.Reporter) returns (line: Option<string>)
      requires Valid()
      modifies this
      ensures Valid()
      ensures requested == old(requested) + 1
      ensures settled == old(settled)
      ensures old(inFlight).None? ==> inFlight == Some(old(requested)) && pending == []
      ensures old(inFlight).Some? ==> inFlight == old(inFlight) && pending == old(pending) + [old(requested)]
      ensures Started() + pending == old(Started() + pending) + [old(requested)]
      ensures line == CliOptions.InfoLog(report, RebuildMessage(filePath, event))
    {
      line := CliOptions.InfoLog(report, RebuildMessage(filePath, event));
      assert Range(requested + 1) == Range(requested) + [requested];
      if inFlight.None? {
        inFlight := Some(requested);
      } else {
        pending := pending + [requested];
      }
      requested := requested + 1;
    }

    /** The running run settles, failed or not: its lines are printed and the
        next appended run, if any, starts. */
    method Settle(outcome: RunOutcome) returns (lines: seq<LogLine>, next: Option<nat>)
      requires Valid() && inFlight.Some?
      modifies this
      ensures Valid()
      ensures requested == old(requested)
      ensures settled == old(settled) + [old(inFlight).value]
      ensures Started() + pending == old(Started() + pending)
      ensures old(pending) == [] ==> inFlight.None? && pending == []
      ensures old(pending) != [] ==> inFlight == Some(old(pending)[0]) && pending == old(pending)[1..]
      ensures next == inFlight
      ensures lines == SettleRun(outcome, true).lines
    {
      lines := SettleRun(outcome, true).lines;
      settled := settled + [inFlight.value];
      if pending == [] {
        inFlight := None;
      } else {
        inFlight := Some(pending[0]);
        pending := pending[1..];
      }
      next := inFlight;
    }
  }

  /** Three change events while the first run is in flight queue three more
      runs behind it, one per event; when the first run fails, the next one
      starts all the same. */
  method BurstDuringRun(report: CliOptions.Reporter)
  {
    var chain := new RunChain();
    var a := chain.OnChange("change", "src/A.elm", report);
    var b := chain.OnChange("change", "src/B.elm", report);
    var c := chain.OnChange("add", "src/C.elm", report);
    assert chain.inFlight == Some(0) && chain.pending == [1, 2, 3];
    var lines, next := chain.Settle(Failed("compile error"));
    assert next == Some(1) && chain.pending == [2, 3] && chain.settled == [0];
  }
}
