/**
 * Where `BIAImage.ome_metadata` looks for the metadata of an OME-Zarr
 * image (models.py:108-115): the file "OME/METADATA.ome.xml" in the
 * directory of the representation's URI path, on the same host.
 */
module OmeLocation {
  import opened Wrappers
  import opened Text
  import Paths
  import Urls

  /** The directory and the name of the metadata file, next to the image's file. */
  const OmeDir: string := "OME"
  const MetadataFile: string := "METADATA.ome.xml"

  /** Where the metadata file sits relative to the directory of the image's file: "OME/METADATA.ome.xml". */
  const MetadataRelpath: string := OmeDir + "/" + MetadataFile

  /** The path of the metadata file: `str(Path(path).parent / "OME/METADATA.ome.xml")`. */
  function MetadataPath(path: string): string {
    Paths.ToString(Paths.Div(Paths.Parent(Paths.Parse(path)), MetadataRelpath))
  }

  /**
   * The metadata URI derived from a representation's URI (models.py:108-115):
   * scheme and network location kept, the path replaced by its parent's
   * "OME/METADATA.ome.xml", parameters, query and fragment dropped.
   */
  function MetadataUri(uri: string): Result<string, Urls.UrlError> {
    var parsed :- Urls.UrlParse(uri);
    Success(Urls.UrlUnparse(parsed.scheme, parsed.netloc, MetadataPath(parsed.path), "", "", ""))
  }

  /** pathlib splits a relative path "a/b" into its two parts. */
  lemma ParseTwoParts(a: string, b: string)
    requires Paths.IsPart(a) && Paths.IsPart(b)
    ensures Paths.Parse(a + "/" + b) == Paths.PurePath("", [a, b])
  {
    var s := a + "/" + b;
    assert s[0] == a[0];
    assert Paths.SplitRoot(s) == ("", s);
    SplitConcat(a, b, '/');
    SplitNoSeparator(a, '/');
    SplitNoSeparator(b, '/');
    Paths.KeepPartsOfParts([a, b]);
  }

  lemma MetadataRelpathParts()
    ensures Paths.Parse(MetadataRelpath) == Paths.PurePath("", [OmeDir, MetadataFile])
  {
    ParseTwoParts(OmeDir, MetadataFile);
  }

  /** The metadata file is "OME/METADATA.ome.xml" inside the directory of the representation's file. */
  lemma MetadataPathParts(path: string)
    ensures var p := Paths.Parse(path);
      Paths.Parse(MetadataPath(path)) == Paths.PurePath(p.root, Paths.Parent(p).parts + [OmeDir, MetadataFile])
  {
    var parent := Paths.Parent(Paths.Parse(path));
    MetadataRelpathParts();
    Paths.DivAppends(parent, MetadataRelpath);
    Paths.ParseToString(Paths.Div(parent, MetadataRelpath));
  }

  /** For a path with a single leading "/", the metadata path is "/" followed by the parent's parts, "OME" and "METADATA.ome.xml". */
  lemma MetadataPathString(path: string)
    requires |path| >= 1 && path[0] == '/' && !Urls.StartsWithTwoSlashes(path)
    ensures MetadataPath(path) == "/" + Join(Paths.Parent(Paths.Parse(path)).parts + [OmeDir, MetadataFile], '/')
  {
    var parent := Paths.Parent(Paths.Parse(path));
    MetadataRelpathParts();
    Paths.DivAppends(parent, MetadataRelpath);
  }

  /** "/" followed by joined parts, the first a well-formed part, starts with exactly one "/". */
  lemma SingleLeadingSlash(parts: seq<string>)
    requires |parts| >= 1 && Paths.IsPart(parts[0])
    ensures var m := "/" + Join(parts, '/'); |m| >= 2 && m[0] == '/' && !Urls.StartsWithTwoSlashes(m)
  {
    JoinStartsWithFirst(parts, '/');
    assert parts[0][0] in parts[0];
  }

  /** The last segment of "/" followed by joined parts is the last part, when it holds no "/". */
  lemma LastSegmentOfJoin(parts: seq<string>)
    requires |parts| >= 2 && '/' !in parts[|parts| - 1]
    ensures Urls.LastSegment("/" + Join(parts, '/')) == parts[|parts| - 1]
  {
    var s, x, last := "/" + Join(parts, '/'), "/" + Join(parts[..|parts| - 1], '/'), parts[|parts| - 1];
    assert s == x + ['/'] + last by {
      JoinLast(parts, '/');
    }
    Urls.LastSegmentAfterSlash(s, x, last);
  }

  /** Well-formed parts that hold none of "?", "#", tab, CR, LF. */
  predicate CleanParts(parts: seq<string>) {
    forall i :: 0 <= i < |parts| ==> Paths.IsPart(parts[i]) && NoneOf(parts[i], Urls.PathExcluded)
  }

  /** "/" followed by clean parts, the last without ";", is a path `urlparse` reads back. */
  lemma AbsoluteJoinOk(parts: seq<string>)
    requires |parts| >= 2 && CleanParts(parts)
    requires ';' !in parts[|parts| - 1]
    ensures Urls.AbsolutePathOk("/" + Join(parts, '/'))
  {
    assert Paths.IsPart(parts[0]) && Paths.IsPart(parts[|parts| - 1]);
    SingleLeadingSlash(parts);
    Paths.ToStringNoneOf(Paths.PurePath("/", parts), Urls.PathExcluded);
    LastSegmentOfJoin(parts);
  }

  /** The two names appended to the parent directory are clean parts, and the file name holds no ";". */
  lemma MetadataNamesClean()
    ensures CleanParts([OmeDir, MetadataFile]) && ';' !in MetadataFile
  {
  }

  /** The parent's parts followed by "OME" and "METADATA.ome.xml" are well-formed parts free of "?", "#", tab, CR, LF. */
  lemma MetadataPartsClean(path: string)
    requires NoneOf(path, Urls.PathExcluded)
    ensures CleanParts(Paths.Parent(Paths.Parse(path)).parts + [OmeDir, MetadataFile])
  {
    var p := Paths.Parse(path);
    var parent := Paths.Parent(p);
    var parts := parent.parts + [OmeDir, MetadataFile];
    Paths.ParseNoneOf(path, Urls.PathExcluded);
    forall i | 0 <= i < |parts| ensures Paths.IsPart(parts[i]) && NoneOf(parts[i], Urls.PathExcluded) {
      if i < |parent.parts| {
        assert parts[i] == p.parts[i];
      }
    }
  }

  /**
   * For a path with a single leading "/" and none of "?", "#", tab, CR, LF,
   * the metadata path is again such a path, and its last segment
   * ("METADATA.ome.xml") holds no ";".
   */
  lemma MetadataPathAbsolute(path: string)
    requires |path| >= 1 && path[0] == '/' && !Urls.StartsWithTwoSlashes(path)
    requires NoneOf(path, Urls.PathExcluded)
    ensures Urls.AbsolutePathOk(MetadataPath(path))
  {
    var parts := Paths.Parent(Paths.Parse(path)).parts + [OmeDir, MetadataFile];
    assert MetadataPath(path) == "/" + Join(parts, '/') by {
      MetadataPathString(path);
    }
    assert Urls.AbsolutePathOk("/" + Join(parts, '/')) by {
      MetadataNamesClean();
      MetadataPartsClean(path);
      AbsoluteJoinOk(parts);
    }
  }

  /**
   * The derived URI of a representation whose URI has an absolute path:
   * `urlparse` reads it back with the representation's scheme and network
   * location, the metadata path, and no parameters, query or fragment.
   */
  lemma MetadataUriRoundTrip(uri: string)
    requires Urls.UrlParse(uri).Success?
    requires var path := Urls.UrlParse(uri).value.path;
      |path| >= 1 && path[0] == '/' && !Urls.StartsWithTwoSlashes(path)
    ensures MetadataUri(uri).Success?
    ensures var p := Urls.UrlParse(uri).value;
      Urls.UrlParse(MetadataUri(uri).value) == Success(Urls.ParseResult(p.scheme, p.netloc, MetadataPath(p.path), "", "", ""))
  {
    var p := Urls.UrlParse(uri).value;
    Urls.UrlParseComponents(uri);
    MetadataPathAbsolute(p.path);
    Urls.ParseUnparse(p.scheme, p.netloc, MetadataPath(p.path));
  }

}
