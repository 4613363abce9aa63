/**
 * The records of `bia_integrator_core/models.py` and the behaviour of a live
 * instance: each pydantic instance keeps its declared fields in its
 * `__dict__`, a mutable mapping from attribute names to values, where
 * anything else can be written too. `BIAImage.ome_metadata` derives the
 * location of an OME-Zarr image's metadata file, fetches it once and caches
 * it in that same `__dict__`.
 */
module Models {
  import opened Wrappers
  import opened Text
  import Paths
  import Urls
  import OmeLocation

  // ---------------------------------------------------------------------------
  // Records (pydantic v1: an `Optional[...]` field without a default defaults to None)
  // ---------------------------------------------------------------------------

  /** A value of a free-form `attributes` dictionary (JSON without floating-point numbers). */
  datatype Json =
    | JNull
    | JBool(b: bool)
    | JInt(i: int)
    | JString(s: string)
    | JArray(items: seq<Json>)
    | JObject(members: map<string, Json>)

  /** A floating-point field, kept as its literal: nothing here computes with it. */
  datatype Float = Float(literal: string)

  datatype ChannelRendering = ChannelRendering(colormapStart: seq<Float>, colormapEnd: seq<Float>, scaleFactor: Float)

  datatype RenderingInfo = RenderingInfo(channelRenders: seq<ChannelRendering>, defaultZ: Option<int>, defaultT: Option<int>)

  /** One representation of an image; `kind` is the source's `type` field (a reserved word here). */
  datatype BIAImageRepresentation = BIAImageRepresentation(
    accessionId: string,
    imageId: string,
    uri: string,
    size: int,
    kind: Option<string>,
    dimensions: Option<string>,
    attributes: Option<map<string, Json>>,
    rendering: Option<RenderingInfo>)

  datatype BIAFileRepresentation = BIAFileRepresentation(accessionId: string, fileId: string, uri: string, size: int)

  datatype BIAFile = BIAFile(
    id: string,
    originalRelpath: Paths.PurePath,
    originalSize: int,
    attributes: map<string, Json>,
    representations: seq<BIAFileRepresentation>)

  /** A reference to an externally hosted file. */
  datatype FileReference = FileReference(
    id: string,
    name: string,
    uri: string,
    sizeInBytes: Option<int>,
    attributes: map<string, Json>)

  datatype BIAImage = BIAImage(
    id: string,
    accessionId: Option<string>,
    name: Option<string>,
    originalRelpath: Paths.PurePath,
    dimensions: Option<string>,
    representations: seq<BIAImageRepresentation>,
    attributes: map<string, Json>)

  /** A short name for an (accession id, image id) pair. */
  datatype BIAImageAlias = BIAImageAlias(name: string, accessionId: string, imageId: string)

  datatype Author = Author(name: string)

  datatype BIAStudy = BIAStudy(
    accessionId: string,
    title: string,
    description: string,
    authors: Option<seq<Author>>,
    organism: string,
    releaseDate: string,
    imagingType: Option<string>,
    attributes: map<string, Json>,
    exampleImageUri: string,
    fileReferences: map<string, FileReference>,
    images: map<string, BIAImage>,
    archiveFiles: map<string, BIAFile>,
    otherFiles: map<string, BIAFile>,
    imageAliases: map<string, BIAImageAlias>,
    tags: set<string>)

  datatype StudyAnnotation = StudyAnnotation(accessionId: string, key: string, value: string)

  datatype ImageAnnotation = ImageAnnotation(accessionId: string, imageId: string, key: string, value: string)

  /** `BIAImageRepresentation(accession_id=…, image_id=…, uri=…, size=…)`: every optional field None. */
  function NewBIAImageRepresentation(accessionId: string, imageId: string, uri: string, size: int): BIAImageRepresentation {
    BIAImageRepresentation(accessionId, imageId, uri, size, None, None, None, None)
  }

  /** `BIAImage(id=…, original_relpath=…)`: pydantic turns the path string into a `Path`. */
  function NewBIAImage(id: string, originalRelpath: string): BIAImage {
    BIAImage(id, None, None, Paths.Parse(originalRelpath), None, [], map[])
  }

  /** `BIAFile(id=…, original_relpath=…, original_size=…)`. */
  function NewBIAFile(id: string, originalRelpath: string, originalSize: int): BIAFile {
    BIAFile(id, Paths.Parse(originalRelpath), originalSize, map[], [])
  }

  /** `FileReference(id=…, name=…, uri=…)`. */
  function NewFileReference(id: string, name: string, uri: string): FileReference {
    FileReference(id, name, uri, None, map[])
  }

  /** `BIAStudy(accession_id=…, title=…, description=…, organism=…, release_date=…)`. */
  function NewBIAStudy(accessionId: string, title: string, description: string, organism: string, releaseDate: string): BIAStudy {
    BIAStudy(accessionId, title, description, Some([]), organism, releaseDate, None, map[], "",
             map[], map[], map[], map[], map[], {})
  }

  // ---------------------------------------------------------------------------
  // Instances: the values an instance's `__dict__` can hold
  // ---------------------------------------------------------------------------

  /** A parsed OME-XML document; its structure is not modelled. */
  datatype OmeDocument = OmeDocument(xml: seq<bv8>)

  /** `from_xml(content, parser='lxml', validate=False)`. */
  function FromXml(content: seq<bv8>): OmeDocument {
    OmeDocument(content)
  }

  /** A value stored under an attribute name in an instance's `__dict__`. */
  datatype Value =
    | NoneValue
    | Str(text: string)
    | PathValue(path: Paths.PurePath)
    | Attributes(attributes: map<string, Json>)
    | Representations(representations: seq<BIAImageRepresentation>)
    | Authors(authors: seq<Author>)
    | FileReferences(fileReferences: map<string, FileReference>)
    | Images(images: map<string, BIAImageObject>)
    | Files(files: map<string, BIAFile>)
    | Aliases(aliases: map<string, BIAImageAlias>)
    | Tags(tags: set<string>)
    | Metadata(ome: OmeDocument)

  /** The exceptions the core can raise. */
  datatype Error =
    | AttributeError(attribute: string)
    | TypeError(operand: string)
    | ValueError(urlError: Urls.UrlError)
    | AssertionError(statusCode: int, uri: string)

  function OptionalStr(o: Option<string>): Value {
    if o.Some? then Str(o.value) else NoneValue
  }

  predicate IsOptionalStr(v: Value) {
    v.NoneValue? || v.Str?
  }

  function AsOptionalStr(v: Value): Option<string>
    requires IsOptionalStr(v)
  {
    if v.Str? then Some(v.text) else None
  }

  /** The declared fields of `BIAImage`, models.py:87-96. */
  const ImageFields: set<string> :=
    {"id", "accession_id", "name", "original_relpath", "dimensions", "representations", "attributes"}

  /** The `__dict__` of a freshly validated `BIAImage`: one entry per declared field. */
  function EncodeImage(r: BIAImage): map<string, Value> {
    map[
      "id" := Str(r.id),
      "accession_id" := OptionalStr(r.accessionId),
      "name" := OptionalStr(r.name),
      "original_relpath" := PathValue(r.originalRelpath),
      "dimensions" := OptionalStr(r.dimensions),
      "representations" := Representations(r.representations),
      "attributes" := Attributes(r.attributes)]
  }

  /** Reads the declared fields of a `BIAImage` back from a `__dict__`; None when one is missing or of the wrong kind. */
  function DecodeImage(ns: map<string, Value>): Option<BIAImage> {
    if && ImageFields <= ns.Keys
       && ns["id"].Str?
       && IsOptionalStr(ns["accession_id"])
       && IsOptionalStr(ns["name"])
       && ns["original_relpath"].PathValue?
       && IsOptionalStr(ns["dimensions"])
       && ns["representations"].Representations?
       && ns["attributes"].Attributes?
    then
      Some(BIAImage(
        ns["id"].text,
        AsOptionalStr(ns["accession_id"]),
        AsOptionalStr(ns["name"]),
        ns["original_relpath"].path,
        AsOptionalStr(ns["dimensions"]),
        ns["representations"].representations,
        ns["attributes"].attributes))
    else None
  }

  /** The `__dict__` of a freshly validated `BIAStudy`; its "images" slot holds the objects `images` built from `r.images`. */
  function EncodeStudy(r: BIAStudy, images: map<string, BIAImageObject>): map<string, Value> {
    map[
      "accession_id" := Str(r.accessionId),
      "title" := Str(r.title),
      "description" := Str(r.description),
      "authors" := if r.authors.Some? then Authors(r.authors.value) else NoneValue,
      "organism" := Str(r.organism),
      "release_date" := Str(r.releaseDate),
      "imaging_type" := OptionalStr(r.imagingType),
      "attributes" := Attributes(r.attributes),
      "example_image_uri" := Str(r.exampleImageUri),
      "file_references" := FileReferences(r.fileReferences),
      "images" := Images(images),
      "archive_files" := Files(r.archiveFiles),
      "other_files" := Files(r.otherFiles),
      "image_aliases" := Aliases(r.imageAliases),
      "tags" := Tags(r.tags)]
  }

  /** Decoding an encoded image gives the record back. */
  lemma DecodeEncodeImage(r: BIAImage)
    ensures DecodeImage(EncodeImage(r)) == Some(r)
  {
  }

  /** The record read from a `__dict__` depends only on the entries of the declared fields. */
  lemma DecodeImageReadsDeclaredFields(ns: map<string, Value>, ns': map<string, Value>)
    requires forall k :: k in ImageFields ==> (k in ns <==> k in ns') && (k in ns ==> ns[k] == ns'[k])
    ensures DecodeImage(ns) == DecodeImage(ns')
  {
  }

  // ---------------------------------------------------------------------------
  // The remote side of `_ome_xml_url_parse`
  // ---------------------------------------------------------------------------

  /** The server's answer to a GET request. */
  datatype Response = Response(statusCode: int, content: seq<bv8>)

  /** The network as `requests.get` sees it: a fixed answer per URI, and the log of the URIs requested so far. */
  class Remote {
    const serve: string -> Response
    var requested: seq<string>

    constructor (serve: string -> Response)
      ensures this.serve == serve && requested == []
    {
      this.serve := serve;
      requested := [];
    }

    /** `requests.get(uri)`. */
    method Get(uri: string) returns (response: Response)
      modifies this
      ensures response == serve(uri)
      ensures requested == old(requested) + [uri]
    {
      requested := requested + [uri];
      response := serve(uri);
    }
  }

  // ---------------------------------------------------------------------------
  // BIAImage.ome_metadata, models.py:98-129
  // ---------------------------------------------------------------------------

  /** The `__dict__` key under which `ome_metadata` caches its result. */
  const MetadataSlot: string := "ome_metadata"

  /** The representation type that marks an OME-Zarr representation. */
  const OmeNgff: string := "ome_ngff"

  predicate IsNgff(rep: BIAImageRepresentation) {
    rep.kind == Some(OmeNgff)
  }

  /** `[rep for rep in representations if rep.type == "ome_ngff"]`. */
  function NgffRepresentations(reps: seq<BIAImageRepresentation>): (ngff: seq<BIAImageRepresentation>)
    ensures |ngff| <= |reps|
    ensures forall i :: 0 <= i < |ngff| ==> IsNgff(ngff[i]) && ngff[i] in reps
  {
    if reps == [] then []
    else
      var last := reps[|reps| - 1];
      NgffRepresentations(reps[..|reps| - 1]) + (if IsNgff(last) then [last] else [])
  }

  /** Values of a `__dict__` that are containers with no elements (iterating them yields nothing). */
  predicate IsEmptyContainer(v: Value) {
    match v
    case Str(s) => s == ""
    case Attributes(a) => a == map[]
    case Authors(a) => a == []
    case FileReferences(m) => m == map[]
    case Images(m) => m == map[]
    case Files(m) => m == map[]
    case Aliases(m) => m == map[]
    case Tags(t) => t == {}
    case _ => false
  }

  /**
   * The representations the comprehension at models.py:102 iterates over:
   * a list of representations as is; None or a path cannot be iterated; an
   * empty container yields nothing; the elements of any other container have
   * no `type` attribute.
   */
  function IterateRepresentations(v: Value): Result<seq<BIAImageRepresentation>, Error> {
    if v.Representations? then Success(v.representations)
    else if v.NoneValue? || v.PathValue? then Failure(TypeError("representations"))
    else if IsEmptyContainer(v) then Success([])
    else Failure(AttributeError("type"))
  }

  /**
   * Lines 100-115 of `ome_metadata`: the metadata URI derived from the last
   * OME-Zarr representation, None when there is none, or the error raised
   * on the way.
   */
  function LocateMetadata(ns: map<string, Value>): Result<Option<string>, Error> {
    if "representations" !in ns then Failure(AttributeError("representations"))
    else match IterateRepresentations(ns["representations"])
      case Failure(e) => Failure(e)
      case Success(reps) =>
        var ngff := NgffRepresentations(reps);
        if ngff == [] then Success(None)
        else match OmeLocation.MetadataUri(ngff[|ngff| - 1].uri)
          case Failure(e) => Failure(ValueError(e))
          case Success(uri) => Success(Some(uri))
  }

  /** What one access to `ome_metadata` does, decided by the `__dict__` it starts from. */
  datatype MetadataAccess =
    | CacheHit(cached: Value)      // returns the cached value, fetches nothing
    | NoNgffRepresentation         // returns None, fetches nothing, caches nothing
    | FetchFrom(uri: string)       // fetches `uri`; caches and returns the document when the status is 200
    | Raises(error: Error)         // raises before fetching anything

  function PlanMetadataAccess(ns: map<string, Value>): MetadataAccess {
    var cached := if MetadataSlot in ns then ns[MetadataSlot] else NoneValue;
    if cached != NoneValue then CacheHit(cached)
    else match LocateMetadata(ns)
      case Failure(e) => Raises(e)
      case Success(None) => NoNgffRepresentation
      case Success(Some(uri)) => FetchFrom(uri)
  }

  // ---------------------------------------------------------------------------
  // What `ome_metadata` promises
  // ---------------------------------------------------------------------------

  /** The filter finds nothing exactly when no representation is of type "ome_ngff". */
  lemma {:induction false} NoNgffIffEmpty(reps: seq<BIAImageRepresentation>)
    ensures NgffRepresentations(reps) == [] <==> forall i :: 0 <= i < |reps| ==> !IsNgff(reps[i])
  {
    if reps != [] {
      var n := |reps|;
      NoNgffIffEmpty(reps[..n - 1]);
      if NgffRepresentations(reps) == [] {
        forall i | 0 <= i < n ensures !IsNgff(reps[i]) {
          if i < n - 1 {
            assert reps[i] == reps[..n - 1][i];
          }
        }
      }
    }
  }

  /** `pop()` takes the LAST representation of type "ome_ngff". */
  lemma {:induction false} LastNgffChosen(reps: seq<BIAImageRepresentation>, i: nat)
    requires i < |reps| && IsNgff(reps[i])
    requires forall j :: i < j < |reps| ==> !IsNgff(reps[j])
    ensures NgffRepresentations(reps) != []
    ensures NgffRepresentations(reps)[|NgffRepresentations(reps)| - 1] == reps[i]
  {
    var n := |reps|;
    if i < n - 1 {
      var prefix := reps[..n - 1];
      assert prefix[i] == reps[i];
      LastNgffChosen(prefix, i);
    }
  }

  /** An image without an OME-Zarr representation and without a cached value yields None and fetches nothing. */
  lemma NoNgffNoFetch(ns: map<string, Value>, reps: seq<BIAImageRepresentation>)
    requires MetadataSlot !in ns || ns[MetadataSlot] == NoneValue
    requires "representations" in ns && ns["representations"] == Representations(reps)
    ensures PlanMetadataAccess(ns) == NoNgffRepresentation <==> forall i :: 0 <= i < |reps| ==> !IsNgff(reps[i])
  {
    NoNgffIffEmpty(reps);
  }

  /** Without a cached value, the URI fetched is the one derived from the last OME-Zarr representation. */
  lemma LastNgffIsFetched(ns: map<string, Value>, reps: seq<BIAImageRepresentation>, i: nat)
    requires MetadataSlot !in ns || ns[MetadataSlot] == NoneValue
    requires "representations" in ns && ns["representations"] == Representations(reps)
    requires i < |reps| && IsNgff(reps[i])
    requires forall j :: i < j < |reps| ==> !IsNgff(reps[j])
    ensures OmeLocation.MetadataUri(reps[i].uri).Success? ==> PlanMetadataAccess(ns) == FetchFrom(OmeLocation.MetadataUri(reps[i].uri).value)
    ensures OmeLocation.MetadataUri(reps[i].uri).Failure? ==> PlanMetadataAccess(ns) == Raises(ValueError(OmeLocation.MetadataUri(reps[i].uri).error))
  {
    var ngff := NgffRepresentations(reps);
    LastNgffChosen(reps, i);
    assert ngff[|ngff| - 1] == reps[i];
    assert IterateRepresentations(ns["representations"]) == Success(reps);
  }

  /** Fresh records carry the declared defaults; a fresh image has nothing to fetch. */
  lemma FreshRecordDefaults(id: string, relpath: string, accessionId: string, title: string, description: string, organism: string, releaseDate: string)
    ensures var image := NewBIAImage(id, relpath);
      && DecodeImage(EncodeImage(image)) == Some(BIAImage(id, None, None, Paths.Parse(relpath), None, [], map[]))
      && PlanMetadataAccess(EncodeImage(image)) == NoNgffRepresentation
    ensures var study := NewBIAStudy(accessionId, title, description, organism, releaseDate);
      && study.authors == Some([]) && study.imagingType == None && study.exampleImageUri == ""
      && study.attributes == map[] && study.fileReferences == map[] && study.images == map[]
      && study.archiveFiles == map[] && study.otherFiles == map[] && study.imageAliases == map[]
      && study.tags == {}
    ensures var rep := NewBIAImageRepresentation(accessionId, id, relpath, 0);
      rep.kind == None && rep.dimensions == None && rep.attributes == None && rep.rendering == None && !IsNgff(rep)
    ensures var file := NewBIAFile(id, relpath, 0);
      file.attributes == map[] && file.representations == [] && file.originalRelpath == Paths.Parse(relpath)
    ensures var reference := NewFileReference(id, title, relpath);
      reference.sizeInBytes == None && reference.attributes == map[]
  {
    NoNgffNoFetch(EncodeImage(NewBIAImage(id, relpath)), []);
  }

  /** A live `BIAImage` instance. */
  class BIAImageObject {
    /** The instance's `__dict__`. */
    var dict: map<string, Value>

    /** Validating a `BIAImage` record stores its declared fields, and nothing else, in `__dict__`. */
    constructor (r: BIAImage)
      ensures dict == EncodeImage(r)
    {
      dict := EncodeImage(r);
    }

    /** `BIAImage._ome_xml_url_parse`, models.py:122-129: fetch, insist on status 200, parse. */
    static method OmeXmlUrlParse(remote: Remote, uri: string) returns (r: Result<OmeDocument, Error>)
      modifies remote
      ensures remote.requested == old(remote.requested) + [uri]
      ensures remote.serve(uri).statusCode == 200 ==> r == Success(FromXml(remote.serve(uri).content))
      ensures remote.serve(uri).statusCode != 200 ==> r == Failure(AssertionError(remote.serve(uri).statusCode, uri))
    {
      var response := remote.Get(uri);
      if response.statusCode != 200 {
        return Failure(AssertionError(response.statusCode, uri));
      }
      r := Success(FromXml(response.content));
    }

    /** The `ome_metadata` property, models.py:98-120. */
    method OmeMetadata(remote: Remote) returns (r: Result<Value, Error>)
      modifies this, remote
      ensures PlanMetadataAccess(old(dict)).CacheHit? ==>
        r == Success(PlanMetadataAccess(old(dict)).cached) && dict == old(dict) && remote.requested == old(remote.requested)
      ensures PlanMetadataAccess(old(dict)).NoNgffRepresentation? ==>
        r == Success(NoneValue) && dict == old(dict) && remote.requested == old(remote.requested)
      ensures PlanMetadataAccess(old(dict)).Raises? ==>
        r == Failure(PlanMetadataAccess(old(dict)).error) && dict == old(dict) && remote.requested == old(remote.requested)
      ensures PlanMetadataAccess(old(dict)).FetchFrom? ==>
        var uri := PlanMetadataAccess(old(dict)).uri;
        var response := remote.serve(uri);
        && remote.requested == old(remote.requested) + [uri]
        && (response.statusCode == 200 ==>
              r == Success(Metadata(FromXml(response.content)))
              && dict == old(dict)[MetadataSlot := Metadata(FromXml(response.content))])
        && (response.statusCode != 200 ==>
              r == Failure(AssertionError(response.statusCode, uri)) && dict == old(dict))
    {
      var metadata := if MetadataSlot in dict then dict[MetadataSlot] else NoneValue;
      if metadata != NoneValue {
        return Success(metadata);
      }
      var located := LocateMetadata(dict);
      if located.Failure? {
        return Failure(located.error);
      }
      if located.value.None? {
        return Success(NoneValue);
      }
      var uri := located.value.value;
      var fetched := OmeXmlUrlParse(remote, uri);
      if fetched.Failure? {
        return Failure(fetched.error);
      }
      metadata := Metadata(fetched.value);
      dict := dict[MetadataSlot := metadata];
      return Success(metadata);
    }
  }

  /** A live `BIAStudy` instance. */
  class BIAStudyObject {
    /** The instance's `__dict__`. */
    var dict: map<string, Value>

    /** Validating a `BIAStudy` record, whose images were validated into the objects `images`. */
    constructor (r: BIAStudy, images: map<string, BIAImageObject>)
      requires images.Keys == r.images.Keys
      requires forall id :: id in images ==> images[id].dict == EncodeImage(r.images[id])
      ensures dict == EncodeStudy(r, images)
    {
      dict := EncodeStudy(r, images);
    }

    /** The image objects in the "images" slot (none when the slot holds something else). */
    function ImageObjects(): map<string, BIAImageObject>
      reads this
    {
      if "images" in dict && dict["images"].Images? then dict["images"].images else map[]
    }

    ghost function ImageSet(): set<BIAImageObject>
      reads this
    {
      ImageObjects().Values
    }

    /** The "images" slot holds an image dictionary, and no image object sits under two ids. */
    ghost predicate HoldsDistinctImages()
      reads this
    {
      && "images" in dict && dict["images"].Images?
      && DistinctObjects(ImageObjects())
    }
  }

  /** No image object sits under two ids. */
  predicate DistinctObjects(images: map<string, BIAImageObject>) {
    forall a, b :: a in images && b in images && a != b ==> images[a] != images[b]
  }

  /**
   * Reading `ome_metadata` twice: once the first read has succeeded, the
   * second returns the same value without another request.
   */
  method ReadTwice(image: BIAImageObject, remote: Remote) returns (first: Result<Value, Error>, second: Result<Value, Error>)
    modifies image, remote
    ensures first.Success? ==> second == first
    ensures first.Success? ==> |remote.requested| <= |old(remote.requested)| + 1
  {
    first := image.OmeMetadata(remote);
    ghost var between := remote.requested;
    second := image.OmeMetadata(remote);
    if first.Success? {
      assert remote.requested == between;
    }
  }
}
