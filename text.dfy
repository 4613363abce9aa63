/**
 * The few operations on Python `str` values that `urllib.parse` and
 * `pathlib` use to take a URI and a path apart: `find`, `rfind`, `split`
 * and `join` with a one-character separator, and ASCII lower-casing.
 */
module Text {

  /** `s.find(c, start)`: the first index at or after `start` holding `c`, or -1. */
  function Find(s: string, c: char, start: nat): (r: int)
    ensures r == -1 || (start <= r < |s| && s[r] == c)
    ensures r == -1 ==> forall j :: start <= j < |s| ==> s[j] != c
    ensures r != -1 ==> forall j :: start <= j < r ==> s[j] != c
    decreases |s| - start
  {
    if start >= |s| then -1
    else if s[start] == c then start
    else Find(s, c, start + 1)
  }

  /** `s.rfind(c)`: the last index holding `c`, or -1. */
  function RFind(s: string, c: char): (r: int)
    ensures r == -1 || (0 <= r < |s| && s[r] == c)
    ensures forall j :: r < j < |s| ==> s[j] != c
  {
    if s == [] then -1
    else if s[|s| - 1] == c then |s| - 1
    else RFind(s[..|s| - 1], c)
  }

  /** The first index at or after `start` holding any of `cs`, or `|s|` when there is none. */
  function FindAny(s: string, cs: set<char>, start: nat): (r: nat)
    requires start <= |s|
    ensures start <= r <= |s|
    ensures r < |s| ==> s[r] in cs
    ensures forall j :: start <= j < r ==> s[j] !in cs
    decreases |s| - start
  {
    if start == |s| then |s|
    else if s[start] in cs then start
    else FindAny(s, cs, start + 1)
  }

  /** The last `c` of `x + [c] + last` is the one after `x` when `last` holds none. */
  lemma {:induction false} RFindBeforeLast(x: string, c: char, last: string)
    requires c !in last
    ensures RFind(x + [c] + last, c) == |x|
  {
    var s := x + [c] + last;
    if last != [] {
      var n := |last|;
      assert s[|s| - 1] == last[n - 1];
      assert s[..|s| - 1] == x + [c] + last[..n - 1];
      RFindBeforeLast(x, c, last[..n - 1]);
    }
  }

  /** No character of `s` is one of `cs`. */
  predicate NoneOf(s: string, cs: set<char>) {
    forall i :: 0 <= i < |s| ==> s[i] !in cs
  }

  /** `sep.join(parts)`. */
  function Join(parts: seq<string>, sep: char): string {
    if parts == [] then ""
    else if |parts| == 1 then parts[0]
    else parts[0] + [sep] + Join(parts[1..], sep)
  }

  /** `s.split(sep)`: the pieces of `s` between occurrences of `sep`, empty pieces included. */
  function Split(s: string, sep: char): (parts: seq<string>)
    ensures |parts| >= 1
    ensures forall i :: 0 <= i < |parts| ==> sep !in parts[i]
    ensures Join(parts, sep) == s
  {
    if s == [] then [""]
    else
      var rest := Split(s[1..], sep);
      if s[0] == sep then
        assert s == [] + [sep] + s[1..];
        [""] + rest
      else
        var parts := [[s[0]] + rest[0]] + rest[1..];
        assert parts[1..] == rest[1..];
        assert |rest| >= 2 ==> rest == [rest[0]] + rest[1..];
        parts
  }

  predicate IsAsciiUpper(c: char) { 'A' <= c <= 'Z' }

  /** `str.lower()` restricted to ASCII: upper-case ASCII letters become lower-case, the rest stays. */
  function AsciiLower(s: string): (r: string)
    ensures |r| == |s|
    ensures forall i :: 0 <= i < |s| ==> r[i] == if IsAsciiUpper(s[i]) then s[i] - 'A' + 'a' else s[i]
  {
    if s == [] then [] else [if IsAsciiUpper(s[0]) then s[0] - 'A' + 'a' else s[0]] + AsciiLower(s[1..])
  }

  /** Splitting a string without separators yields the string itself. */
  lemma {:induction false} SplitNoSeparator(s: string, sep: char)
    requires sep !in s
    ensures Split(s, sep) == [s]
  {
    if s != [] {
      SplitNoSeparator(s[1..], sep);
      assert s == [s[0]] + s[1..];
    }
  }

  /** Splitting `a + sep + b` splits `a` and `b` apart. */
  lemma {:induction false} SplitConcat(a: string, b: string, sep: char)
    ensures Split(a + [sep] + b, sep) == Split(a, sep) + Split(b, sep)
  {
    var s := a + [sep] + b;
    if a == [] {
      assert s[1..] == b;
    } else {
      assert s[1..] == a[1..] + [sep] + b;
      SplitConcat(a[1..], b, sep);
    }
  }

  /** `split` undoes `join` when no piece holds the separator. */
  lemma {:induction false} SplitJoin(parts: seq<string>, sep: char)
    requires |parts| >= 1
    requires forall i :: 0 <= i < |parts| ==> sep !in parts[i]
    ensures Split(Join(parts, sep), sep) == parts
  {
    if |parts| == 1 {
      SplitNoSeparator(parts[0], sep);
    } else {
      SplitJoin(parts[1..], sep);
      SplitConcat(parts[0], Join(parts[1..], sep), sep);
      SplitNoSeparator(parts[0], sep);
    }
  }

  /** Joining one more piece appends the separator and the piece. */
  lemma {:induction false} JoinSnoc(parts: seq<string>, last: string, sep: char)
    requires |parts| >= 1
    ensures Join(parts + [last], sep) == Join(parts, sep) + [sep] + last
  {
    if |parts| > 1 {
      assert (parts + [last])[1..] == parts[1..] + [last];
      JoinSnoc(parts[1..], last, sep);
    }
  }

  /** A joined string ends with the separator and the last piece. */
  lemma JoinLast(parts: seq<string>, sep: char)
    requires |parts| >= 2
    ensures Join(parts, sep) == Join(parts[..|parts| - 1], sep) + [sep] + parts[|parts| - 1]
  {
    assert parts == parts[..|parts| - 1] + [parts[|parts| - 1]];
    JoinSnoc(parts[..|parts| - 1], parts[|parts| - 1], sep);
  }

  /** A joined string starts with the first piece. */
  lemma {:induction false} JoinStartsWithFirst(parts: seq<string>, sep: char)
    requires |parts| >= 1
    ensures |Join(parts, sep)| >= |parts[0]| && Join(parts, sep)[..|parts[0]|] == parts[0]
  {
  }

  /** A joined string holds only the separator and characters of its pieces. */
  lemma {:induction false} JoinNoneOf(parts: seq<string>, sep: char, cs: set<char>)
    requires sep !in cs
    requires forall i :: 0 <= i < |parts| ==> NoneOf(parts[i], cs)
    ensures NoneOf(Join(parts, sep), cs)
  {
    if |parts| > 1 {
      JoinNoneOf(parts[1..], sep, cs);
    }
  }

  /** The pieces of a split string hold only characters of that string. */
  lemma {:induction false} SplitNoneOf(s: string, sep: char, cs: set<char>)
    requires NoneOf(s, cs)
    ensures forall i :: 0 <= i < |Split(s, sep)| ==> NoneOf(Split(s, sep)[i], cs)
  {
    if s != [] {
      SplitNoneOf(s[1..], sep, cs);
    }
  }
}
