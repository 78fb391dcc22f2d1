/** File paths as the runner builds them with Node's `path.join` and
    `path.resolve`: a flag for a leading separator and the list of segments.
    Joining appends segments; this is what `path.join` produces when the base is
    already normal and the added names are plain segments, which is the case
    for every join the runner makes from process.cwd() and literal names. */
module Paths {

  import opened Text

  datatype Path = Path(absolute: bool, segments: seq<string>)

  /** Every segment is free of the separator, as in a path the operating
      system hands out. */
  predicate SeparatorFree(p: Path, sep: char) {
    forall i :: 0 <= i < |p.segments| ==> sep !in p.segments[i]
  }

  /** `path.join(p, names[0], names[1], ...)`. */
  function Join(p: Path, names: seq<string>): (r: Path)
    ensures r.absolute == p.absolute
    ensures |r.segments| == |p.segments| + |names|
    ensures r.segments[..|p.segments|] == p.segments
    ensures r.segments[|p.segments|..] == names
  {
    Path(p.absolute, p.segments + names)
  }

  /** Joining separator-free names to a separator-free path keeps it so. */
  lemma JoinSeparatorFree(p: Path, names: seq<string>, sep: char)
    requires SeparatorFree(p, sep)
    requires forall i :: 0 <= i < |names| ==> sep !in names[i]
    ensures SeparatorFree(Join(p, names), sep)
  {
    var r := Join(p, names);
    forall i | 0 <= i < |r.segments| ensures sep !in r.segments[i] {
      if i < |p.segments| {
        assert r.segments[i] == p.segments[i];
      } else {
        assert r.segments[i] == names[i - |p.segments|];
      }
    }
  }

  /** `path.resolve(p)` with `cwd` as the current directory: an absolute path
      is kept, a relative one is placed under `cwd`. */
  function Resolve(cwd: Path, p: Path): (r: Path)
    ensures r.absolute
    ensures p.absolute ==> r == p
    ensures !p.absolute ==> r.segments == cwd.segments + p.segments
  {
    if p.absolute then p else Path(true, cwd.segments + p.segments)
  }

  /** The text of a path with separator `sep`. */
  function Render(p: Path, sep: char): (r: string)
    ensures p.absolute ==> |r| >= 1 && r[0] == sep
    ensures !p.absolute && |p.segments| >= 1 ==> |r| >= |p.segments[0]| && r[..|p.segments[0]|] == p.segments[0]
  {
    (if p.absolute then [sep] else []) + JoinWith(p.segments, [sep])
  }

  /** Splitting the text of a path at its separator gives back its segments,
      behind an empty first piece when the path is absolute. */
  lemma SplitRender(p: Path, sep: char)
    requires SeparatorFree(p, sep) && |p.segments| >= 1
    ensures Split(Render(p, sep), sep) == (if p.absolute then [""] else []) + p.segments
  {
    var body := JoinWith(p.segments, [sep]);
    SplitJoin(p.segments, sep);
    if p.absolute {
      assert Render(p, sep) == [sep] + body;
      assert ([sep] + body)[1..] == body;
    } else {
      assert Render(p, sep) == body;
    }
  }
  /** A name that `path.posix.normalize` keeps as it is: not empty, not `.`
      and not `..`. */
  predicate PlainName(name: string) {
    name != "" && name != "." && name != ".."
  }

  predicate AllPlain(names: seq<string>) {
    forall i :: 0 <= i < |names| ==> PlainName(names[i])
  }

  /** One step of the normalisation of a slash-separated text: an empty or
      `.` piece is dropped, `..` removes the name before it (or, at the start
      of a relative path, is kept), and anything else is appended. */
  function NormalizeStep(kept: seq<string>, piece: string, absolute: bool): (r: seq<string>)
    ensures PlainName(piece) ==> r == kept + [piece]
    ensures piece == "" || piece == "." ==> r == kept
    ensures |r| <= |kept| + 1
    ensures NoEmptyOrDot(kept) ==> NoEmptyOrDot(r)
  {
    if piece == "" || piece == "." then kept
    else if piece == ".." then
      if |kept| > 0 && kept[|kept| - 1] != ".." then kept[..|kept| - 1]
      else if absolute then kept
      else kept + [".."]
    else kept + [piece]
  }

  /** Names with no empty and no `.` piece, as the normalisation leaves them. */
  predicate NoEmptyOrDot(names: seq<string>) {
    forall i :: 0 <= i < |names| ==> names[i] != "" && names[i] != "."
  }

  /** The left-to-right pass of `path.posix.normalize` over the pieces: it
      never adds more than one name per piece, and leaves no empty or `.`
      name behind. */
  function NormalizeNames(kept: seq<string>, pieces: seq<string>, absolute: bool): (r: seq<string>)
    ensures |r| <= |kept| + |pieces|
    ensures NoEmptyOrDot(kept) ==> NoEmptyOrDot(r)
    decreases |pieces|
  {
    if pieces == [] then kept
    else NormalizeNames(NormalizeStep(kept, pieces[0], absolute), pieces[1..], absolute)
  }

  /** Plain names pass through the normalisation unchanged. */
  lemma {:induction false} NormalizePlain(kept: seq<string>, pieces: seq<string>, absolute: bool)
    requires AllPlain(pieces)
    ensures NormalizeNames(kept, pieces, absolute) == kept + pieces
    decreases |pieces|
  {
    if pieces != [] {
      NormalizePlain(kept + [pieces[0]], pieces[1..], absolute);
      assert kept + [pieces[0]] + pieces[1..] == kept + pieces;
    }
  }

  /** The normalisation works piece by piece, left to right. */
  lemma {:induction false} NormalizeAppend(kept: seq<string>, a: seq<string>, b: seq<string>, absolute: bool)
    ensures NormalizeNames(kept, a + b, absolute) == NormalizeNames(NormalizeNames(kept, a, absolute), b, absolute)
    decreases |a|
  {
    if a == [] {
      assert a + b == b;
    } else {
      assert (a + b)[0] == a[0] && (a + b)[1..] == a[1..] + b;
      NormalizeAppend(NormalizeStep(kept, a[0], absolute), a[1..], b, absolute);
    }
  }

  /** `path.posix.normalize(s)` as Node defines it: `.` for the empty text,
      the normalised names joined by `/`, a leading `/` kept for an absolute
      path and a trailing `/` kept when the text ends in one. */
  function PosixNormalize(s: string): (n: string)
    ensures |n| >= 1
    ensures s != "" && s[0] == '/' ==> n[0] == '/'
  {
    if s == "" then "."
    else
      var absolute := s[0] == '/';
      var trailing := s[|s| - 1] == '/';
      var body := JoinWith(NormalizeNames([], Split(s, '/'), absolute), "/");
      if body == "" then
        if absolute then "/" else if trailing then "./" else "."
      else
        var body' := if trailing then body + "/" else body;
        if absolute then "/" + body' else body'
  }

  /** A relative text of plain names, not ending in `/`, normalises to itself. */
  lemma NormalizeNormal(s: string)
    requires s != "" && s[|s| - 1] != '/' && AllPlain(Split(s, '/'))
    ensures PosixNormalize(s) == s
  {
    var pieces := Split(s, '/');
    assert s[0] != '/' by {
      assert PlainName(pieces[0]);
    }
    NormalizePlain([], pieces, false);
    assert [] + pieces == pieces;
    JoinSplit(s, '/');
  }

  /** `path.posix.join(names...)`: the non-empty names joined by `/`, then
      normalised; `.` when every name is empty. */
  function PosixJoin(names: seq<string>): (j: string)
    ensures |j| >= 1
    ensures NonEmptyNames(names) == [] ==> j == "."
  {
    var given := NonEmptyNames(names);
    if given == [] then "." else PosixNormalize(JoinWith(given, "/"))
  }

  function NonEmptyNames(names: seq<string>): (given: seq<string>)
    ensures |given| <= |names|
    ensures forall i :: 0 <= i < |given| ==> given[i] != ""
    ensures forall x :: x in given <==> x in names && x != ""
    decreases |names|
  {
    if names == [] then []
    else if names[0] == "" then NonEmptyNames(names[1..])
    else [names[0]] + NonEmptyNames(names[1..])
  }

  /** The names are kept in order: dropping the empty names of two lists one
      after the other drops them from each list. */
  lemma {:induction false} NonEmptyNamesAppend(a: seq<string>, b: seq<string>)
    ensures NonEmptyNames(a + b) == NonEmptyNames(a) + NonEmptyNames(b)
    decreases |a|
  {
    if a == [] {
      assert a + b == b;
    } else {
      assert (a + b)[0] == a[0] && (a + b)[1..] == a[1..] + b;
      NonEmptyNamesAppend(a[1..], b);
    }
  }

  /** Names that are all non-empty are kept as they are. */
  lemma {:induction false} NonEmptyNamesKeepsNames(names: seq<string>)
    requires forall i :: 0 <= i < |names| ==> names[i] != ""
    ensures NonEmptyNames(names) == names
    decreases |names|
  {
    if names != [] {
      NonEmptyNamesKeepsNames(names[1..]);
    }
  }
}
