/**
 * The part of `pathlib.PurePosixPath` (CPython 3.12) that derives a sibling
 * path: parsing a string into a root and parts, `parent`, the `/` operator
 * and `str()`. `Path` is this class on POSIX systems; Windows paths are not
 * modelled.
 */
module Paths {
  import opened Text

  /** A path as pathlib holds it: its root ("", "/" or "//") and its parts. */
  datatype PurePath = PurePath(root: string, parts: seq<string>)

  /** A part kept by pathlib: not empty, not ".", no separator. */
  predicate IsPart(s: string) {
    s != "" && s != "." && '/' !in s
  }

  /** What every parsed path satisfies. */
  predicate WellFormed(p: PurePath) {
    && (p.root == "" || p.root == "/" || p.root == "//")
    && forall i :: 0 <= i < |p.parts| ==> IsPart(p.parts[i])
  }

  /**
   * `posixpath.splitroot` (the drive is always empty on POSIX): exactly two
   * leading slashes are kept as the root "//", one or three and more become "/".
   */
  function SplitRoot(s: string): (string, string) {
    if |s| == 0 || s[0] != '/' then ("", s)
    else if |s| == 1 || s[1] != '/' || (|s| >= 3 && s[2] == '/') then ("/", s[1..])
    else ("//", s[2..])
  }

  /** The segments pathlib keeps: it drops empty segments and ".". */
  function KeepParts(segments: seq<string>): seq<string> {
    if segments == [] then []
    else (if segments[0] != "" && segments[0] != "." then [segments[0]] else []) + KeepParts(segments[1..])
  }

  /** `PurePosixPath(s)`. */
  function Parse(s: string): (p: PurePath)
    ensures WellFormed(p)
  {
    var (root, rel) := SplitRoot(s);
    var segments := Split(rel, '/');
    KeptAreParts(segments);
    PurePath(root, KeepParts(segments))
  }

  /** `str(p)`: the root followed by the parts joined with "/", or "." for the empty path. */
  function ToString(p: PurePath): string {
    if p.root == "" && p.parts == [] then "." else p.root + Join(p.parts, '/')
  }

  /** `p.parent`: the path without its last part; a path without parts is its own parent. */
  function Parent(p: PurePath): (q: PurePath)
    ensures WellFormed(p) ==> WellFormed(q)
  {
    if p.parts == [] then p else PurePath(p.root, p.parts[..|p.parts| - 1])
  }

  /** `posixpath.join(a, b)`. */
  function JoinPath(a: string, b: string): string {
    if |b| > 0 && b[0] == '/' then b
    else if a == "" || a[|a| - 1] == '/' then a + b
    else a + "/" + b
  }

  /** `p / rel`: pathlib joins the two strings and parses the result again. */
  function Div(p: PurePath, rel: string): PurePath {
    Parse(JoinPath(ToString(p), rel))
  }

  lemma {:induction false} KeptAreParts(segments: seq<string>)
    requires forall i :: 0 <= i < |segments| ==> '/' !in segments[i]
    ensures forall i :: 0 <= i < |KeepParts(segments)| ==> IsPart(KeepParts(segments)[i])
  {
    if segments != [] {
      KeptAreParts(segments[1..]);
    }
  }

  lemma {:induction false} KeepPartsConcat(a: seq<string>, b: seq<string>)
    ensures KeepParts(a + b) == KeepParts(a) + KeepParts(b)
  {
    if a == [] {
      assert a + b == b;
    } else {
      assert (a + b)[1..] == a[1..] + b;
      KeepPartsConcat(a[1..], b);
    }
  }

  lemma {:induction false} KeepPartsOfParts(parts: seq<string>)
    requires forall i :: 0 <= i < |parts| ==> IsPart(parts[i])
    ensures KeepParts(parts) == parts
  {
    if parts != [] {
      KeepPartsOfParts(parts[1..]);
    }
  }

  /** The joined parts of a well-formed path start with a character other than "/". */
  lemma JoinedPartsStart(parts: seq<string>)
    requires |parts| >= 1
    requires forall i :: 0 <= i < |parts| ==> IsPart(parts[i])
    ensures parts[0] != "" && |Join(parts, '/')| >= 1
    ensures Join(parts, '/')[0] == parts[0][0] != '/'
  {
    assert IsPart(parts[0]);
    JoinStartsWithFirst(parts, '/');
    assert parts[0][0] in parts[0];
  }

  /** The joined parts of a well-formed path end with a character other than "/". */
  lemma JoinedPartsEnd(parts: seq<string>)
    requires |parts| >= 1
    requires forall i :: 0 <= i < |parts| ==> IsPart(parts[i])
    ensures |Join(parts, '/')| >= 1 && Join(parts, '/')[|Join(parts, '/')| - 1] != '/'
  {
    var n := |parts|;
    var last := parts[n - 1];
    assert last[|last| - 1] in last;
    if n > 1 {
      assert parts == parts[..n - 1] + [last];
      JoinSnoc(parts[..n - 1], last, '/');
    }
  }

  /** Splitting the joined parts of a well-formed path and dropping empty segments gives the parts back. */
  lemma PartsRoundTrip(parts: seq<string>)
    requires forall i :: 0 <= i < |parts| ==> IsPart(parts[i])
    ensures KeepParts(Split(Join(parts, '/'), '/')) == parts
  {
    if parts == [] {
      assert Split("", '/') == [""];
    } else {
      SplitJoin(parts, '/');
      KeepPartsOfParts(parts);
    }
  }

  /** Parsing the string of a well-formed path gives the path back. */
  lemma {:induction false} ParseToString(p: PurePath)
    requires WellFormed(p)
    ensures Parse(ToString(p)) == p
  {
    var s := ToString(p);
    PartsRoundTrip(p.parts);
    if p.parts == [] {
      if p.root == "" {
        assert s == ".";
        assert Split(".", '/') == ["."] by { SplitNoSeparator(".", '/'); }
      } else {
        assert SplitRoot(s) == (p.root, "");
      }
    } else {
      var joined := Join(p.parts, '/');
      JoinedPartsStart(p.parts);
      RootThenPart(p.root, joined);
    }
  }

  /** Parsing normalises: a parsed string reads back as the same path. */
  lemma ParseIdempotent(s: string)
    ensures Parse(ToString(Parse(s))) == Parse(s)
  {
    ParseToString(Parse(s));
  }

  /**
   * Appending a relative path with `/` keeps the root and appends the
   * relative path's parts, whatever the base is (also "." and "/").
   */
  lemma {:induction false} DivAppends(p: PurePath, rel: string)
    requires WellFormed(p)
    requires |rel| > 0 && rel[0] != '/'
    ensures Div(p, rel) == PurePath(p.root, p.parts + Parse(rel).parts)
  {
    if p.parts == [] {
      if p.root == "" {
        DivAppendsToDot(rel);
      } else {
        assert JoinPath(ToString(p), rel) == p.root + rel;
        RootThenPart(p.root, rel);
        assert p.parts + Parse(rel).parts == Parse(rel).parts;
      }
    } else {
      DivAppendsToParts(p, rel);
    }
  }

  lemma DivAppendsToDot(rel: string)
    requires |rel| > 0 && rel[0] != '/'
    ensures Div(PurePath("", []), rel) == PurePath("", Parse(rel).parts)
  {
    var s := "." + ['/'] + rel;
    assert JoinPath(".", rel) == s;
    assert SplitRoot(s) == ("", s);
    SplitConcat(".", rel, '/');
    SplitNoSeparator(".", '/');
    KeepPartsConcat(["."], Split(rel, '/'));
    assert KeepParts(["."]) == [];
  }

  lemma DivAppendsToParts(p: PurePath, rel: string)
    requires WellFormed(p) && p.parts != []
    requires |rel| > 0 && rel[0] != '/'
    ensures Div(p, rel) == PurePath(p.root, p.parts + Parse(rel).parts)
  {
    JoinedWithRelative(p, rel);
    KeepPartsOfJoined(p.parts, rel);
  }

  /** `str(p) / rel` is the root followed by the joined parts, "/" and `rel`. */
  lemma JoinedWithRelative(p: PurePath, rel: string)
    requires WellFormed(p) && p.parts != []
    requires |rel| > 0 && rel[0] != '/'
    ensures JoinPath(ToString(p), rel) == p.root + (Join(p.parts, '/') + ['/'] + rel)
    ensures SplitRoot(p.root + (Join(p.parts, '/') + ['/'] + rel)) == (p.root, Join(p.parts, '/') + ['/'] + rel)
  {
    JoinedPartsEnd(p.parts);
    JoinedPartsStart(p.parts);
    RootThenPart(p.root, Join(p.parts, '/') + ['/'] + rel);
  }

  /** Splitting the joined parts followed by "/" and `rel` keeps the parts, then the parts of `rel`. */
  lemma KeepPartsOfJoined(parts: seq<string>, rel: string)
    requires |parts| >= 1
    requires forall i :: 0 <= i < |parts| ==> IsPart(parts[i])
    ensures KeepParts(Split(Join(parts, '/') + ['/'] + rel, '/')) == parts + KeepParts(Split(rel, '/'))
  {
    SplitConcat(Join(parts, '/'), rel, '/');
    SplitJoin(parts, '/');
    KeepPartsConcat(parts, Split(rel, '/'));
    KeepPartsOfParts(parts);
  }

  /** A root followed by a string that does not start with "/" splits back into that root and string. */
  lemma RootThenPart(root: string, rest: string)
    requires root == "" || root == "/" || root == "//"
    requires |rest| >= 1 && rest[0] != '/'
    ensures SplitRoot(root + rest) == (root, rest)
  {
    var s := root + rest;
    assert s[|root|] == rest[0];
    if root == "/" {
      assert s[1..] == rest;
    } else if root == "//" {
      assert |s| >= 3 && s[0] == '/' && s[1] == '/' && s[2] == rest[0];
      assert s[2..] == rest;
      assert !(|s| == 0 || s[0] != '/');
      assert !(|s| == 1 || s[1] != '/' || (|s| >= 3 && s[2] == '/'));
      assert SplitRoot(s) == ("//", s[2..]);
    } else {
      assert s == rest;
    }
  }

  /** A string made of well-formed parts holds only "/" and characters of the parts. */
  lemma ToStringNoneOf(p: PurePath, cs: set<char>)
    requires WellFormed(p) && p.root != ""
    requires '/' !in cs
    requires forall i :: 0 <= i < |p.parts| ==> NoneOf(p.parts[i], cs)
    ensures NoneOf(ToString(p), cs)
  {
    JoinNoneOf(p.parts, '/', cs);
  }

  /** The parts of a parsed path hold only characters of the parsed string. */
  lemma {:induction false} ParseNoneOf(s: string, cs: set<char>)
    requires NoneOf(s, cs)
    ensures forall i :: 0 <= i < |Parse(s).parts| ==> NoneOf(Parse(s).parts[i], cs)
  {
    var (root, rel) := SplitRoot(s);
    assert NoneOf(rel, cs);
    SplitNoneOf(rel, '/', cs);
    KeepNoneOf(Split(rel, '/'), cs);
  }

  lemma {:induction false} KeepNoneOf(segments: seq<string>, cs: set<char>)
    requires forall i :: 0 <= i < |segments| ==> NoneOf(segments[i], cs)
    ensures forall i :: 0 <= i < |KeepParts(segments)| ==> NoneOf(KeepParts(segments)[i], cs)
  {
    if segments != [] {
      KeepNoneOf(segments[1..], cs);
    }
  }
}
