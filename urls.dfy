/**
 * The part of `urllib.parse` (CPython 3.12, as of 3.12.13) that `BIAImage.ome_metadata`
 * relies on: `urlsplit`, `urlparse`, `urlunsplit` and `urlunparse` for
 * `str` arguments, with the default scheme "" and fragments allowed.
 */
module Urls {
  import opened Wrappers
  import opened Text

  /** `urlsplit`'s five components. */
  datatype SplitResult = SplitResult(scheme: string, netloc: string, path: string, query: string, fragment: string)

  /** `urlparse`'s six components: `urlsplit`'s with the path's parameters split off. */
  datatype ParseResult = ParseResult(scheme: string, netloc: string, path: string, params: string, query: string, fragment: string)

  /** The `ValueError("Invalid IPv6 URL")` raised for a network location with only one kind of square bracket. */
  datatype UrlError = InvalidIPv6Url(netloc: string)

  /** `_WHATWG_C0_CONTROL_OR_SPACE`: U+0000 to U+0020, stripped from the front of a URL. */
  predicate IsC0ControlOrSpace(c: char) {
    c <= ' '
  }

  /** `_UNSAFE_URL_BYTES_TO_REMOVE`: deleted wherever they occur. */
  const UnsafeChars: set<char> := {'\t', '\r', '\n'}

  /** The delimiters that end a network location in `_splitnetloc`. */
  const NetlocDelimiters: set<char> := {'/', '?', '#'}

  /** `uses_params`: the schemes whose paths carry ";" parameters. */
  const UsesParams: set<string> :=
    {"", "ftp", "hdl", "prospero", "http", "imap", "https", "shttp", "rtsp", "rtsps", "rtspu",
     "sip", "sips", "mms", "sftp", "tel"}

  /** `uses_netloc`: the schemes `urlunsplit` writes with "//" even when the network location is empty. */
  const UsesNetloc: set<string> :=
    {"", "ftp", "http", "gopher", "nntp", "telnet", "imap", "wais", "file", "mms", "https", "shttp",
     "snews", "prospero", "rtsp", "rtsps", "rtspu", "rsync", "svn", "svn+ssh", "sftp", "nfs", "git",
     "git+ssh", "ws", "wss", "itms-services"}

  predicate IsAsciiAlpha(c: char) {
    'a' <= c <= 'z' || 'A' <= c <= 'Z'
  }

  /** `scheme_chars`: ASCII letters, digits, "+", "-" and ".". */
  predicate IsSchemeChar(c: char) {
    IsAsciiAlpha(c) || '0' <= c <= '9' || c == '+' || c == '-' || c == '.'
  }

  predicate AllSchemeChars(s: string) {
    forall i :: 0 <= i < |s| ==> IsSchemeChar(s[i])
  }

  predicate StartsWithTwoSlashes(s: string) {
    |s| >= 2 && s[0] == '/' && s[1] == '/'
  }

  /** `s.lstrip(_WHATWG_C0_CONTROL_OR_SPACE)`. */
  function LStripC0ControlOrSpace(s: string): (r: string)
    ensures r == [] || !IsC0ControlOrSpace(r[0])
  {
    if s != [] && IsC0ControlOrSpace(s[0]) then LStripC0ControlOrSpace(s[1..]) else s
  }

  /** `s` with every tab, carriage return and line feed deleted. */
  function RemoveUnsafe(s: string): (r: string)
    ensures NoneOf(r, UnsafeChars)
  {
    if s == [] then []
    else (if s[0] in UnsafeChars then [] else [s[0]]) + RemoveUnsafe(s[1..])
  }

  /** `url.split(c, 1)` when `c` occurs, `(url, "")` when it does not. */
  function SplitOnce(url: string, c: char): (string, string) {
    var i := Find(url, c, 0);
    if i >= 0 then (url[..i], url[i + 1..]) else (url, "")
  }

  /** The string `urlsplit` works on: leading control characters and spaces stripped, unsafe characters deleted. */
  function Sanitize(url: string): (s: string)
    ensures NoneOf(s, UnsafeChars)
  {
    RemoveUnsafe(LStripC0ControlOrSpace(url))
  }

  /**
   * The scheme test of `urlsplit`: the text before the first ":" is the
   * scheme when it is not empty, starts with an ASCII letter and holds only
   * scheme characters; it is returned lower-cased, with the rest after ":".
   */
  function SplitScheme(s: string): (string, string) {
    var i := Find(s, ':', 0);
    if i > 0 && IsAsciiAlpha(s[0]) && AllSchemeChars(s[..i]) then (AsciiLower(s[..i]), s[i + 1..]) else ("", s)
  }

  /** `_splitnetloc(url, 2)` when the rest starts with "//": the network location runs to the first "/", "?" or "#". */
  function SplitNetloc(s: string): (string, string) {
    if StartsWithTwoSlashes(s) then
      var delim := FindAny(s, NetlocDelimiters, 2);
      (s[2..delim], s[delim..])
    else ("", s)
  }

  /** `urlsplit(url)`. */
  function UrlSplit(url: string): Result<SplitResult, UrlError> {
    var (scheme, afterScheme) := SplitScheme(Sanitize(url));
    var (netloc, rest) := SplitNetloc(afterScheme);
    if ('[' in netloc) != (']' in netloc) then
      Failure(InvalidIPv6Url(netloc))
    else
      var (beforeFragment, fragment) := SplitOnce(rest, '#');
      var (path, query) := SplitOnce(beforeFragment, '?');
      Success(SplitResult(scheme, netloc, path, query, fragment))
  }

  /** `_splitparams(url)`: the parameters start at the first ";" after the last "/". */
  function SplitParams(url: string): (string, string)
    requires ';' in url
  {
    if '/' in url then
      var slash := RFind(url, '/');
      var i := Find(url, ';', slash);
      if i < 0 then (url, "") else (url[..i], url[i + 1..])
    else
      var i := Find(url, ';', 0);
      (url[..i], url[i + 1..])
  }

  /** `urlparse(url)`. */
  function UrlParse(url: string): Result<ParseResult, UrlError> {
    var split :- UrlSplit(url);
    var (path, params) :=
      if split.scheme in UsesParams && ';' in split.path then SplitParams(split.path) else (split.path, "");
    Success(ParseResult(split.scheme, split.netloc, path, params, split.query, split.fragment))
  }

  /**
   * `urlunsplit((scheme, netloc, url, query, fragment))`; an empty component
   * stands for a falsy one. With a network location, "//" and the location
   * go in front of the path (a relative path gets a "/" first). Without one,
   * "//" goes in front of a path that starts with "//", so that it is not
   * read back as a network location, and in front of an empty or absolute
   * path when the scheme is one of `uses_netloc`.
   */
  function UrlUnsplit(scheme: string, netloc: string, url: string, query: string, fragment: string): string {
    var withNetloc :=
      if netloc != "" then "//" + netloc + (if url != "" && url[0] != '/' then "/" + url else url)
      else if StartsWithTwoSlashes(url) then "//" + url
      else if scheme != "" && scheme in UsesNetloc && (url == "" || url[0] == '/') then "//" + url
      else url;
    var withScheme := if scheme != "" then scheme + ":" + withNetloc else withNetloc;
    var withQuery := if query != "" then withScheme + "?" + query else withScheme;
    if fragment != "" then withQuery + "#" + fragment else withQuery
  }

  /** `urlunparse((scheme, netloc, url, params, query, fragment))`. */
  function UrlUnparse(scheme: string, netloc: string, url: string, params: string, query: string, fragment: string): string {
    UrlUnsplit(scheme, netloc, if params != "" then url + ";" + params else url, query, fragment)
  }

  // ---------------------------------------------------------------------------
  // What `urlparse` produces, and when `urlunparse` is its inverse
  // ---------------------------------------------------------------------------

  /** A scheme as `urlsplit` returns it: empty, or lower-case scheme characters starting with a letter. */
  predicate SchemeOk(scheme: string) {
    scheme == [] || (IsAsciiAlpha(scheme[0]) && AllSchemeChars(scheme) && AsciiLower(scheme) == scheme)
  }

  /** A network location as `urlsplit` returns it. */
  predicate NetlocOk(netloc: string) {
    NoneOf(netloc, NetlocDelimiters + UnsafeChars) && (('[' in netloc) <==> (']' in netloc))
  }

  /** The last "/"-separated segment of a path: where `_splitparams` looks for ";". */
  function LastSegment(path: string): string {
    path[RFind(path, '/') + 1..]
  }

  /** The last segment of a string ending in "/" and a piece without "/" is that piece. */
  lemma LastSegmentAfterSlash(s: string, x: string, last: string)
    requires s == x + ['/'] + last && '/' !in last
    ensures LastSegment(s) == last
  {
    RFindBeforeLast(x, '/', last);
    assert s[|x| + 1..] == last;
  }

  /**
   * An absolute path that `urlparse` reads back unchanged from `urlunparse`'s
   * output: it starts with exactly one "/", holds no "?", "#" or unsafe
   * character, and its last segment holds no ";".
   */
  predicate AbsolutePathOk(path: string) {
    && |path| >= 1 && path[0] == '/'
    && !StartsWithTwoSlashes(path)
    && NoneOf(path, PathExcluded)
    && ';' !in LastSegment(path)
  }

  lemma FindAbsent(s: string, c: char, k: nat)
    requires k <= |s|
    requires forall j :: k <= j < |s| ==> s[j] != c
    ensures Find(s, c, k) == -1
  {
  }

  lemma {:induction false} RemoveUnsafeKeeps(s: string)
    requires NoneOf(s, UnsafeChars)
    ensures RemoveUnsafe(s) == s
  {
    if s != [] {
      RemoveUnsafeKeeps(s[1..]);
      assert s == [s[0]] + s[1..];
    }
  }

  lemma {:induction false} AsciiLowerIdempotent(s: string)
    ensures AsciiLower(AsciiLower(s)) == AsciiLower(s)
  {
    var once := AsciiLower(s);
    assert forall i :: 0 <= i < |once| ==> !IsAsciiUpper(once[i]);
  }

  /** Lower-casing a scheme found by `urlsplit` gives a scheme in the form `SchemeOk` describes. */
  lemma LoweredSchemeOk(s: string)
    requires |s| > 0 && IsAsciiAlpha(s[0]) && AllSchemeChars(s)
    ensures SchemeOk(AsciiLower(s))
  {
    AsciiLowerIdempotent(s);
  }

  /** Every successful `urlparse` yields a scheme, network location and path of the shapes above. */
  lemma UrlParseComponents(url: string)
    requires UrlParse(url).Success?
    ensures SchemeOk(UrlParse(url).value.scheme)
    ensures NetlocOk(UrlParse(url).value.netloc)
    ensures NoneOf(UrlParse(url).value.path, PathExcluded)
  {
    var s := Sanitize(url);
    var (scheme, afterScheme) := SplitScheme(s);
    SplitSchemeParts(s);
    var (netloc, rest) := SplitNetloc(afterScheme);
    SplitNetlocParts(afterScheme);
    var (beforeFragment, fragment) := SplitOnce(rest, '#');
    var (path, query) := SplitOnce(beforeFragment, '?');
    SplitOnceBefore(rest, '#', UnsafeChars);
    SplitOnceBefore(beforeFragment, '?', UnsafeChars + {'#'});
    assert NoneOf(path, PathExcluded);
    var split := UrlSplit(url).value;
    assert split.path == path;
    if split.scheme in UsesParams && ';' in split.path {
      SplitParamsPrefix(path);
    }
  }

  /** The characters a path parsed by `urlparse` never holds. */
  const PathExcluded: set<char> := {'?', '#', '\t', '\r', '\n'}

  lemma SplitSchemeParts(s: string)
    requires NoneOf(s, UnsafeChars)
    ensures SchemeOk(SplitScheme(s).0)
    ensures NoneOf(SplitScheme(s).1, UnsafeChars)
  {
    var i := Find(s, ':', 0);
    if i > 0 && IsAsciiAlpha(s[0]) && AllSchemeChars(s[..i]) {
      LoweredSchemeOk(s[..i]);
    }
  }

  lemma SplitNetlocParts(s: string)
    requires NoneOf(s, UnsafeChars)
    ensures NoneOf(SplitNetloc(s).0, NetlocDelimiters + UnsafeChars)
    ensures NoneOf(SplitNetloc(s).1, UnsafeChars)
  {
  }

  lemma SplitOnceBefore(s: string, c: char, cs: set<char>)
    requires NoneOf(s, cs)
    ensures NoneOf(SplitOnce(s, c).0, cs + {c})
  {
  }

  lemma SplitParamsPrefix(path: string)
    requires ';' in path
    requires NoneOf(path, PathExcluded)
    ensures NoneOf(SplitParams(path).0, PathExcluded)
  {
  }

  /** What `urlunparse` writes for a path that starts with "/" and no query, fragment or parameters. */
  function Unparsed(scheme: string, netloc: string, path: string): string {
    var body := if netloc != "" || (scheme != "" && scheme in UsesNetloc) then "//" + netloc + path else path;
    if scheme != "" then scheme + ":" + body else body
  }

  lemma UnparseAbsolute(scheme: string, netloc: string, path: string)
    requires |path| >= 1 && path[0] == '/' && !StartsWithTwoSlashes(path)
    ensures UrlUnparse(scheme, netloc, path, "", "", "") == Unparsed(scheme, netloc, path)
  {
  }

  /** Without a network location, a relative path is written as it is: no "//" is put in front of it. */
  lemma UnsplitRelativePath(scheme: string, url: string)
    requires |url| >= 1 && url[0] != '/'
    ensures UrlUnsplit(scheme, "", url, "", "") == if scheme != "" then scheme + ":" + url else url
  {
  }

  /**
   * Without a network location, a path that starts with "//" gets another
   * "//" in front, so that `urlsplit` reads back an empty network location
   * and the whole path.
   */
  lemma UnsplitDoubleSlashPath(scheme: string, url: string)
    requires StartsWithTwoSlashes(url)
    ensures UrlUnsplit(scheme, "", url, "", "") == if scheme != "" then scheme + ":" + "//" + url else "//" + url
    ensures SplitNetloc("//" + url) == ("", url)
  {
    var s := "//" + url;
    assert StartsWithTwoSlashes(s);
    assert s[2] == '/' && s[2] in NetlocDelimiters;
    assert FindAny(s, NetlocDelimiters, 2) == 2;
    assert s[2..2] == "" && s[2..] == url;
  }

  /** Sanitising leaves a string alone that starts with a visible character and holds no unsafe one. */
  lemma SanitizeKeeps(s: string)
    requires |s| >= 1 && !IsC0ControlOrSpace(s[0])
    requires NoneOf(s, UnsafeChars)
    ensures Sanitize(s) == s
  {
    RemoveUnsafeKeeps(s);
  }

  /** `urlsplit` finds the scheme again at the front of `urlunparse`'s output. */
  lemma SchemeFoundAgain(scheme: string, body: string)
    requires SchemeOk(scheme) && scheme != ""
    ensures SplitScheme(scheme + ":" + body) == (scheme, body)
  {
    var s := scheme + ":" + body;
    forall j | 0 <= j < |scheme| ensures s[j] != ':' {
      assert IsSchemeChar(scheme[j]);
    }
    assert s[|scheme|] == ':';
    assert Find(s, ':', 0) == |scheme|;
    assert s[..|scheme|] == scheme;
    assert s[|scheme| + 1..] == body;
  }

  /** Without a scheme, `urlsplit` finds none in a string that starts with "/". */
  lemma NoSchemeFound(body: string)
    requires |body| >= 1 && body[0] == '/'
    ensures SplitScheme(body) == ("", body)
  {
  }

  /** `urlsplit` finds the network location again after the "//". */
  lemma NetlocFoundAgain(netloc: string, path: string)
    requires NetlocOk(netloc)
    requires |path| >= 1 && path[0] == '/'
    ensures SplitNetloc("//" + netloc + path) == (netloc, path)
  {
    var body := "//" + netloc + path;
    forall j | 2 <= j < 2 + |netloc| ensures body[j] !in NetlocDelimiters {
      assert body[j] == netloc[j - 2];
    }
    assert body[2 + |netloc|] == '/';
    assert FindAny(body, NetlocDelimiters, 2) == 2 + |netloc|;
    assert body[2..2 + |netloc|] == netloc;
    assert body[2 + |netloc|..] == path;
  }

  /** `_splitparams` finds no parameters in a path whose last segment holds no ";". */
  lemma NoParams(path: string)
    requires |path| >= 1 && path[0] == '/'
    requires ';' !in LastSegment(path)
    ensures ';' in path ==> SplitParams(path) == (path, "")
  {
    if ';' in path {
      var slash := RFind(path, '/');
      assert slash >= 0;
      forall j | slash <= j < |path| ensures path[j] != ';' {
        if j > slash {
          assert path[j] == LastSegment(path)[j - slash - 1];
        }
      }
      FindAbsent(path, ';', slash);
    }
  }

  /** The string `urlunparse` writes starts with a visible character and holds no unsafe one. */
  lemma UnparsedIsClean(scheme: string, netloc: string, path: string)
    requires SchemeOk(scheme) && NetlocOk(netloc) && AbsolutePathOk(path)
    ensures var s := Unparsed(scheme, netloc, path); |s| >= 1 && !IsC0ControlOrSpace(s[0]) && NoneOf(s, UnsafeChars)
  {
    var withNetloc := netloc != "" || (scheme != "" && scheme in UsesNetloc);
    var body := if withNetloc then "//" + netloc + path else path;
    assert NoneOf(body, UnsafeChars) by {
      if withNetloc {
        forall j | 0 <= j < |body| ensures body[j] !in UnsafeChars {
          if 2 <= j < 2 + |netloc| {
            assert body[j] == netloc[j - 2];
          } else if j >= 2 + |netloc| {
            assert body[j] == path[j - 2 - |netloc|];
          }
        }
      }
    }
    if scheme != "" {
      var s := scheme + ":" + body;
      forall j | 0 <= j < |s| ensures s[j] !in UnsafeChars {
        if j < |scheme| {
          assert IsSchemeChar(scheme[j]);
        } else if j > |scheme| {
          assert s[j] == body[j - |scheme| - 1];
        }
      }
    }
  }

  /**
   * `urlparse` reads back exactly what `urlunparse` was given, when the
   * scheme and network location are as `urlparse` produces them and the
   * path is absolute: the two functions are inverse on such components.
   */
  lemma ParseUnparse(scheme: string, netloc: string, path: string)
    requires SchemeOk(scheme) && NetlocOk(netloc) && AbsolutePathOk(path)
    ensures UrlParse(UrlUnparse(scheme, netloc, path, "", "", "")) == Success(ParseResult(scheme, netloc, path, "", "", ""))
  {
    UnparseAbsolute(scheme, netloc, path);
    var withNetloc := netloc != "" || (scheme != "" && scheme in UsesNetloc);
    var body := if withNetloc then "//" + netloc + path else path;
    var s := Unparsed(scheme, netloc, path);
    UnparsedIsClean(scheme, netloc, path);
    SanitizeKeeps(s);
    if scheme != "" {
      SchemeFoundAgain(scheme, body);
    } else {
      NoSchemeFound(body);
    }
    assert SplitScheme(Sanitize(s)) == (scheme, body);
    if withNetloc {
      NetlocFoundAgain(netloc, path);
    } else {
      assert SplitNetloc(body) == (netloc, path);
    }
    FindAbsent(path, '#', 0);
    FindAbsent(path, '?', 0);
    assert SplitOnce(path, '#') == (path, "");
    assert SplitOnce(path, '?') == (path, "");
    assert UrlSplit(s) == Success(SplitResult(scheme, netloc, path, "", ""));
    NoParams(path);
  }
}
