/** Finding the test files: `flatMap`, `resolveFilePath` and `resolveGlobs`.
    The filesystem and glob calls are inputs: a glob is a function from its
    pattern to the paths it matches, and a file lookup gives an `Entry`. */
module TestFiles {

  import opened Text
  import opened Paths
  import Compile

  /** `flatMap(array, f)`: `array.reduce((result, item) => result.concat(f(item)), [])`,
      a left fold that appends each item's results to what came before. */
  function FlatMap<A, B>(xs: seq<A>, f: A -> seq<B>): (r: seq<B>)
    ensures r == Concat(xs, f)
  {
    FlatMapFrom([], xs, f)
  }

  /** The fold from `acc`: what came before, then the items' results in order. */
  function FlatMapFrom<A, B>(acc: seq<B>, xs: seq<A>, f: A -> seq<B>): (r: seq<B>)
    ensures r == acc + Concat(xs, f)
    decreases |xs|
  {
    if xs == [] then acc
    else
      var r := FlatMapFrom(acc + f(xs[0]), xs[1..], f);
      assert acc + f(xs[0]) + Concat(xs[1..], f) == acc + (f(xs[0]) + Concat(xs[1..], f));
      r
  }

  /** The concatenation of the results of `f`, item by item: the reference for `FlatMap`. */
  function Concat<A, B>(xs: seq<A>, f: A -> seq<B>): seq<B>
    decreases |xs|
  {
    if xs == [] then [] else f(xs[0]) + Concat(xs[1..], f)
  }

  lemma {:induction false} ConcatAppend<A, B>(a: seq<A>, b: seq<A>, f: A -> seq<B>)
    ensures Concat(a + b, f) == Concat(a, f) + Concat(b, f)
    decreases |a|
  {
    if a != [] {
      ConcatAppend(a[1..], b, f);
      assert (a + b)[1..] == a[1..] + b;
    } else {
      assert a + b == b;
    }
  }

  /** Splitting the input splits the output at the same place. */
  lemma FlatMapAppend<A, B>(a: seq<A>, b: seq<A>, f: A -> seq<B>)
    ensures FlatMap(a + b, f) == FlatMap(a, f) + FlatMap(b, f)
  {
    ConcatAppend(a, b, f);
  }

  lemma {:induction false} ConcatMembership<A, B>(xs: seq<A>, f: A -> seq<B>, y: B)
    ensures y in Concat(xs, f) <==> exists i :: 0 <= i < |xs| && y in f(xs[i])
    decreases |xs|
  {
    if xs != [] {
      ConcatMembership(xs[1..], f, y);
      if y in f(xs[0]) {
        assert 0 <= 0 < |xs| && y in f(xs[0]);
      }
      if exists i :: 0 <= i < |xs[1..]| && y in f(xs[1..][i]) {
        var i :| 0 <= i < |xs[1..]| && y in f(xs[1..][i]);
        assert y in f(xs[i + 1]);
      }
      if exists i :: 0 <= i < |xs| && y in f(xs[i]) {
        var i :| 0 <= i < |xs| && y in f(xs[i]);
        if i > 0 {
          assert y in f(xs[1..][i - 1]);
        }
      }
    }
  }

  /** A value is produced exactly when some item produces it. */
  lemma FlatMapMembership<A, B>(xs: seq<A>, f: A -> seq<B>, y: B)
    ensures y in FlatMap(xs, f) <==> exists i :: 0 <= i < |xs| && y in f(xs[i])
  {
    ConcatMembership(xs, f, y);
  }

  /** A path none of whose components, split at `sep`, is `elm-stuff`. */
  predicate OutsideElmStuff(candidate: string, sep: char): (outside: bool)
    ensures sep !in candidate ==> (outside <==> candidate != "elm-stuff")
  {
    SplitWhole(candidate, sep);
    "elm-stuff" !in Split(candidate, sep)
  }

  /** The final `filter` of `resolveFilePath`: the candidates outside elm-stuff, in order. */
  function KeepOutsideElmStuff(candidates: seq<string>, sep: char): (kept: seq<string>)
    ensures |kept| <= |candidates|
    ensures forall i :: 0 <= i < |kept| ==> OutsideElmStuff(kept[i], sep)
    ensures forall p {:trigger p in kept} :: p in kept <==> p in candidates && OutsideElmStuff(p, sep)
    decreases |candidates|
  {
    if candidates == [] then []
    else
      var rest := KeepOutsideElmStuff(candidates[1..], sep);
      if OutsideElmStuff(candidates[0], sep) then [candidates[0]] + rest else rest
  }

  /** The filter keeps every candidate when all are outside elm-stuff. */
  lemma {:induction false} KeepAllOutside(candidates: seq<string>, sep: char)
    ensures (forall i :: 0 <= i < |candidates| ==> OutsideElmStuff(candidates[i], sep))
            ==> KeepOutsideElmStuff(candidates, sep) == candidates
    decreases |candidates|
  {
    if candidates != [] {
      KeepAllOutside(candidates[1..], sep);
      assert forall i :: 1 <= i < |candidates| ==> candidates[1..][i - 1] == candidates[i];
    }
  }

  /** The filter keeps order: filtering two lists one after the other is
      filtering their concatenation. */
  lemma {:induction false} KeepAppend(a: seq<string>, b: seq<string>, sep: char)
    ensures KeepOutsideElmStuff(a + b, sep) == KeepOutsideElmStuff(a, sep) + KeepOutsideElmStuff(b, sep)
    decreases |a|
  {
    if a != [] {
      KeepAppend(a[1..], b, sep);
      assert (a + b)[0] == a[0] && (a + b)[1..] == a[1..] + b;
      KeepCons(a + b, sep);
      KeepCons(a, sep);
      var head := if OutsideElmStuff(a[0], sep) then [a[0]] else [];
      assert head + (KeepOutsideElmStuff(a[1..], sep) + KeepOutsideElmStuff(b, sep))
          == (head + KeepOutsideElmStuff(a[1..], sep)) + KeepOutsideElmStuff(b, sep);
    } else {
      assert a + b == b;
    }
  }

  lemma KeepCons(candidates: seq<string>, sep: char)
    requires candidates != []
    ensures KeepOutsideElmStuff(candidates, sep)
            == (if OutsideElmStuff(candidates[0], sep) then [candidates[0]] else [])
               + KeepOutsideElmStuff(candidates[1..], sep)
  {
  }

  /** What `resolveFilePath(filename)` finds at `filename`: nothing
      (`existsSync` is false), a file or other non-directory, carrying
      `path.resolve(filename)`, or a directory, carrying what
      `resolveFilePath` finds at each path `glob.sync('/**/*.elm')` matches
      under it, in the glob's order. */
  datatype Entry = Missing | NonDirectory(resolved: string) | Directory(matches: seq<Entry>)

  /** `resolveFilePath`: all `.elm` files at or under a path, none inside elm-stuff. */
  function ResolveFilePath(entry: Entry, sep: char): (paths: seq<string>)
    ensures forall i :: 0 <= i < |paths| ==> OutsideElmStuff(paths[i], sep)
    ensures entry.Missing? ==> paths == []
    ensures entry.NonDirectory? ==>
      paths == if OutsideElmStuff(entry.resolved, sep) then [entry.resolved] else []
    ensures entry.Directory? ==> paths == ResolveAll(entry.matches, sep)
    decreases entry, 1
  {
    var candidates :=
      match entry
      case Missing => []
      case NonDirectory(resolved) => [resolved]
      case Directory(matches) => ResolveAll(matches, sep);
    KeepAllOutside(candidates, sep);
    KeepOutsideElmStuff(candidates, sep)
  }

  /** The `flatMap(glob results, resolveFilePath)` of a directory. */
  function ResolveAll(matches: seq<Entry>, sep: char): (paths: seq<string>)
    ensures forall i :: 0 <= i < |paths| ==> OutsideElmStuff(paths[i], sep)
    decreases matches, 0
  {
    if matches == [] then []
    else
      var first := ResolveFilePath(matches[0], sep);
      var rest := ResolveAll(matches[1..], sep);
      assert forall i :: 0 <= i < |first + rest| ==>
        (first + rest)[i] == if i < |first| then first[i] else rest[i - |first|];
      first + rest
  }

  lemma {:induction false} ResolveAllIsConcat(matches: seq<Entry>, sep: char)
    ensures ResolveAll(matches, sep) == Concat(matches, (e: Entry) => ResolveFilePath(e, sep))
    decreases |matches|
  {
    if matches != [] {
      ResolveAllIsConcat(matches[1..], sep);
    }
  }

  /** A directory yields `flatMap` of what its glob matches yield, which the
      final filter leaves as it is. */
  lemma DirectoryIsFlatMap(matches: seq<Entry>, sep: char)
    ensures ResolveFilePath(Directory(matches), sep)
            == FlatMap(matches, (e: Entry) => ResolveFilePath(e, sep))
  {
    ResolveAllIsConcat(matches, sep);
  }

  const DEFAULT_TEST_GLOB := "test?(s)/**/*.elm"

  /** The glob patterns `resolveGlobs` expands: the ones given, or the default
      test pattern (under `cwd`) when none is. */
  function GlobMatches(fileGlobs: seq<string>, globify: string -> seq<string>,
                       globifyWithRoot: (string, string) -> seq<string>, cwd: string): (globs: seq<string>)
    ensures |fileGlobs| > 0 ==> globs == FlatMap(fileGlobs, globify)
    ensures |fileGlobs| == 0 ==> globs == globifyWithRoot(cwd, DEFAULT_TEST_GLOB)
  {
    if |fileGlobs| > 0 then FlatMap(fileGlobs, globify) else globifyWithRoot(cwd, DEFAULT_TEST_GLOB)
  }

  /** `resolveGlobs(fileGlobs)`: every test file the globs lead to, in order.
      `lookup` is what `resolveFilePath` finds at a path. */
  function ResolveGlobs(fileGlobs: seq<string>, globify: string -> seq<string>,
                        globifyWithRoot: (string, string) -> seq<string>, cwd: string,
                        lookup: string -> Entry, sep: char): (paths: seq<string>)
    ensures forall i :: 0 <= i < |paths| ==> OutsideElmStuff(paths[i], sep)
  {
    var globs := GlobMatches(fileGlobs, globify, globifyWithRoot, cwd);
    var resolve := (p: string) => ResolveFilePath(lookup(p), sep);
    var found := FlatMap(globs, resolve);
    assert forall i :: 0 <= i < |found| ==> OutsideElmStuff(found[i], sep) by {
      forall i | 0 <= i < |found| ensures OutsideElmStuff(found[i], sep) {
        FoundOutsideElmStuff(globs, lookup, sep, found[i]);
      }
    }
    found
  }

  /** Whatever the lookups of the matched paths give lies outside elm-stuff. */
  lemma FoundOutsideElmStuff(globs: seq<string>, lookup: string -> Entry, sep: char, y: string)
    requires y in FlatMap(globs, (p: string) => ResolveFilePath(lookup(p), sep))
    ensures OutsideElmStuff(y, sep)
  {
    var resolve := (p: string) => ResolveFilePath(lookup(p), sep);
    FlatMapMembership(globs, resolve, y);
    var j :| 0 <= j < |globs| && y in resolve(globs[j]);
    var from := ResolveFilePath(lookup(globs[j]), sep);
    var k :| 0 <= k < |from| && from[k] == y;
  }

  /** A path is found exactly when some path matched by the globs leads to it. */
  lemma ResolveGlobsMembership(fileGlobs: seq<string>, globify: string -> seq<string>,
                               globifyWithRoot: (string, string) -> seq<string>, cwd: string,
                               lookup: string -> Entry, sep: char, p: string)
    ensures var globs := GlobMatches(fileGlobs, globify, globifyWithRoot, cwd);
      p in ResolveGlobs(fileGlobs, globify, globifyWithRoot, cwd, lookup, sep)
      <==> exists i :: 0 <= i < |globs| && p in ResolveFilePath(lookup(globs[i]), sep)
  {
    var globs := GlobMatches(fileGlobs, globify, globifyWithRoot, cwd);
    var resolve := (q: string) => ResolveFilePath(lookup(q), sep);
    FlatMapMembership(globs, resolve, p);
  }

  /** Sep is one of the two separators `path.sep` can be. */
  predicate IsPathSeparator(sep: char) {
    sep == '/' || sep == '\\'
  }

  /** Nothing under the generated-code directory is ever taken for a test
      file: its text has an `elm-stuff` component, which the filter drops. */
  lemma GeneratedCodeIsNeverATestFile(projectRootDir: Path, version: string, rest: seq<string>, sep: char)
    requires IsPathSeparator(sep)
    requires SeparatorFree(projectRootDir, sep) && sep !in version
    requires forall i :: 0 <= i < |rest| ==> sep !in rest[i]
    ensures !OutsideElmStuff(Render(Join(Compile.GeneratedCodeDir(projectRootDir, version), rest), sep), sep)
    ensures forall e :: Render(Join(Compile.GeneratedCodeDir(projectRootDir, version), rest), sep)
                        !in ResolveFilePath(e, sep)
  {
    var generated := Compile.GENERATED_CODE_SEGMENTS + [version];
    forall i | 0 <= i < |generated| ensures sep !in generated[i] {
      if i < 4 {
        assert generated[i] == Compile.GENERATED_CODE_SEGMENTS[i];
      }
    }
    JoinSeparatorFree(projectRootDir, generated, sep);
    var dir := Compile.GeneratedCodeDir(projectRootDir, version);
    JoinSeparatorFree(dir, rest, sep);
    var p := Join(dir, rest);
    assert p.segments[|projectRootDir.segments|] == "elm-stuff";
    SplitRender(p, sep);
    assert "elm-stuff" in Split(Render(p, sep), sep);
  }
}
