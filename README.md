# bia-integrator core in Dafny

This project models the core of `bia_integrator_core`, the BioImage Archive
integrator library, and proves properties about it. The core has two parts.

- `load_and_annotate_study` (`integrator.py`) loads a study. It writes the
  study's annotations over the study's attributes. For every image it writes
  that image's annotations over the image's attributes, then appends the
  image's additional representations to its list of representations.
- The records of `models.py`: studies, images, representations, files,
  file references, aliases, authors and annotations, with their default
  values. It also models the lazily computed and cached `BIAImage.ome_metadata`
  accessor. That accessor takes the OME-Zarr ("ome_ngff") representation of an
  image and derives the URI of its `OME/METADATA.ome.xml` file from the
  representation's URI. It then fetches the file once and keeps the parsed
  document in the image's `__dict__`.

Files and modules:

| file | module | what it holds |
|---|---|---|
| `wrappers.dfy` | `Wrappers` | `Option` and `Result` |
| `text.dfy` | `Text` | `str.find`, `rfind`, `split`, `join` and ASCII `lower` |
| `paths.dfy` | `Paths` | `pathlib.PurePosixPath`: parsing, `str()`, `parent`, `/` |
| `urls.dfy` | `Urls` | `urllib.parse` of CPython 3.12.13: `urlsplit`, `urlparse`, `urlunsplit`, `urlunparse` |
| `ome_location.dfy` | `OmeLocation` | the metadata URI derived in `ome_metadata` |
| `models.dfy` | `Models` | records, live instances and their `__dict__`, `ome_metadata` |
| `integrator.dfy` | `Integrator` | `load_and_annotate_study` |

A pydantic instance keeps its declared fields in its `__dict__`, and anything
else can be written there too. A live instance is therefore a class whose one
field `dict` maps attribute names to values. The annotation loops write into
that map. `ome_metadata` reads its cache from there and writes it back there.

The collaborators of `load_and_annotate_study` become inputs:
- `get_study` becomes the study object it returns.
- `get_study_annotations` becomes the list of study annotations.
- `get_image_annotations` and `get_representations` become functions of
  (accession id, image id).

The network seen by `requests.get` is a `Remote` object. It holds a fixed
answer per URI and a log of the URIs requested so far.

The code picks the LAST representation of type "ome_ngff", because it calls
`pop()` on the filtered list (models.py:107). The comment at models.py:106
assumes that every OME-Zarr representation of an image carries the same
metadata, so which one is chosen is not meant to matter.

A consequence of keeping the cache in `__dict__`, proved below: an image
annotation with the key "ome_metadata" makes `ome_metadata` return that
annotation's string without fetching anything.

## Model

| member | source | states |
|---|---|---|
| Integrator.BuildAnnotationsDict | bia_integrator_core/integrator.py:13-15 | the loop builds exactly `AnnotationsDict(annotations)`, the dictionary described by `AnnotationsDictLastWins` |
| Integrator.AnnotationsDictLastWins | bia_integrator_core/integrator.py:13-15 | a key is in `annotations_dict` if and only if some study annotation has it, and it holds the value of the last annotation with that key |
| Integrator.StudyAnnotationsLastWins | bia_integrator_core/integrator.py:16 | after `study.__dict__.update`, the keys are the old keys plus the annotated ones; an annotated key, declared (such as "organism") or not, holds the string of its last annotation; every other key keeps its value |
| Integrator.EmptyInputsKeepStudy | bia_integrator_core/integrator.py:12-16 | with no study annotations, the study's `__dict__` is unchanged |
| Integrator.WriteAnnotations | bia_integrator_core/integrator.py:20-21 | the image's `__dict__` becomes the old one with the annotations written in order (`WriteImageAnnotations`) |
| Integrator.ImageAnnotationsLastWins | bia_integrator_core/integrator.py:20-21 | after the writes, the keys are the old keys plus the annotated ones; an annotated key holds the string of its last annotation; every other key keeps its value |
| Integrator.VisitImage | bia_integrator_core/integrator.py:19-23 | one loop pass leaves the image's `__dict__` as `AfterVisit` says and reports the error of `AnnotateImage`, if any |
| Integrator.AnnotateImage | bia_integrator_core/integrator.py:19-23 | one loop pass on an image's `__dict__`: the annotations written, then the additional representations appended, or the error line 23 raises; `AnnotateImageOutcome` states when it fails and what it yields |
| Integrator.AnnotateImageOutcome | bia_integrator_core/integrator.py:19-23 | for a loaded image, line 23 raises TypeError exactly when an image annotation has the key "representations"; otherwise the representations become the old ones followed by the additional ones, and every other key is as the annotations left it |
| Integrator.EmptyInputsKeepImage | bia_integrator_core/integrator.py:19-23 | with no annotations and no additional representations, a loaded image's `__dict__` is unchanged |
| Integrator.UndeclaredAnnotationsKeepRecord | bia_integrator_core/integrator.py:19-23 | annotations whose keys are not declared fields leave the image record as it was, apart from the appended representations |
| Integrator.DimensionsAnnotation | bia_integrator_core/integrator.py:20-21 | an annotation "dimensions" replaces the image record's dimensions with the value of the last such annotation; the representations are extended |
| Integrator.AnnotationShadowsMetadata | bia_integrator_core/integrator.py:21 | after an image annotation "ome_metadata", an access to `ome_metadata` is a cache hit that returns the annotation's string |
| Integrator.AnnotateImages | bia_integrator_core/integrator.py:18-23 | the loop succeeds if and only if every image's annotation succeeds, and then each image holds exactly its own annotations and representations; on failure, the failing image holds its annotations and every other image is either untouched or fully and successfully annotated |
| Integrator.LoadAndAnnotateStudy | bia_integrator_core/integrator.py:7-25 | the study's `__dict__` is the old one updated with the annotations; an annotation "images" raises AttributeError at line 18 and touches no image; otherwise the images are as `AnnotateImages` states, and on success the result is the same study object |
| Models.FreshRecordDefaults | bia_integrator_core/models.py:29-165 | fresh records carry every declared default: None for the optional fields, empty lists, dictionaries and sets, "" for `example_image_uri` and `authors == []`; a fresh image has nothing to fetch |
| Models.DecodeEncodeImage | bia_integrator_core/models.py:87-96 | the `__dict__` of a validated image holds its record: reading the declared fields back gives the record |
| Models.DecodeImageReadsDeclaredFields | bia_integrator_core/models.py:87-96 | the record read from a `__dict__` depends only on the entries of the declared fields |
| Models.BIAImageObject.constructor | bia_integrator_core/models.py:72-96 | a validated image's `__dict__` holds its declared fields and nothing else |
| Models.BIAStudyObject.constructor | bia_integrator_core/models.py:144-165 | a validated study's `__dict__` holds its declared fields, with the image objects in "images" |
| Models.Remote.Get | bia_integrator_core/models.py:124 | a GET returns the server's answer for the URI and logs the request |
| Models.NgffRepresentations | bia_integrator_core/models.py:102 | the comprehension keeps only representations of type "ome_ngff", taken from the list and no more of them than the list holds; `NoNgffIffEmpty` and `LastNgffChosen` state when it is empty and what `pop()` takes from it |
| Models.IterateRepresentations | bia_integrator_core/models.py:102 | what iterating `self.representations` yields: the list itself, nothing for an empty container, TypeError for None or a path, AttributeError on `rep.type` for the elements of any other container; `LastNgffIsFetched` uses the list case |
| Models.LocateMetadata | bia_integrator_core/models.py:102-115 | the metadata URI of the last "ome_ngff" representation, None when there is none, or the error raised on the way; `NoNgffNoFetch` and `LastNgffIsFetched` state both outcomes |
| Models.PlanMetadataAccess | bia_integrator_core/models.py:100-117 | a cached value that is not None is returned as it is; otherwise the access goes as `LocateMetadata` says; `OmeMetadata` is proved to act on each case |
| Models.NoNgffIffEmpty | bia_integrator_core/models.py:102-103 | the filtered list is empty if and only if no representation has type "ome_ngff" |
| Models.LastNgffChosen | bia_integrator_core/models.py:107 | `pop()` yields the last representation of type "ome_ngff" |
| Models.NoNgffNoFetch | bia_integrator_core/models.py:100-104 | without a cached value, the access returns None and fetches nothing if and only if no representation has type "ome_ngff" |
| Models.LastNgffIsFetched | bia_integrator_core/models.py:100-117 | without a cached value, the URI fetched is the one derived from the last "ome_ngff" representation; a URI `urlparse` rejects raises ValueError |
| Models.BIAImageObject.OmeXmlUrlParse | bia_integrator_core/models.py:122-129 | exactly one request; status 200 gives the parsed document; any other status raises AssertionError |
| Models.BIAImageObject.OmeMetadata | bia_integrator_core/models.py:98-120 | a cached value is returned with no request; no "ome_ngff" representation gives None with no request and no cache write; otherwise one request to the derived URI, caching the document only on status 200 |
| Models.ReadTwice | bia_integrator_core/models.py:100-118 | once an access has succeeded, the next returns the same value and the two together made at most one request |
| OmeLocation.MetadataPath | bia_integrator_core/models.py:109 | `str(Path(path).parent / "OME/METADATA.ome.xml")`; `MetadataPathParts` states its parts for every path |
| OmeLocation.MetadataUri | bia_integrator_core/models.py:108-115 | the URI with the same scheme and network location and the metadata path, without parameters, query or fragment, or `urlparse`'s ValueError; `MetadataUriRoundTrip` states what `urlparse` reads back from it |
| OmeLocation.MetadataRelpathParts | bia_integrator_core/models.py:109 | "OME/METADATA.ome.xml" is the relative path of the two parts "OME" and "METADATA.ome.xml" |
| OmeLocation.MetadataPathParts | bia_integrator_core/models.py:109 | the metadata path keeps the root and is the parent's parts followed by "OME" and "METADATA.ome.xml" |
| OmeLocation.MetadataPathString | bia_integrator_core/models.py:109 | for a path with one leading "/", the metadata path is "/" and the parent's parts with "OME" and "METADATA.ome.xml", joined by "/" |
| OmeLocation.MetadataPathAbsolute | bia_integrator_core/models.py:109-115 | for an absolute path as `urlparse` returns it, the metadata path is one that `urlparse` reads back unchanged |
| OmeLocation.MetadataUriRoundTrip | bia_integrator_core/models.py:108-115 | for a URI with an absolute path, `urlparse` of the derived URI gives the same scheme and network location, the metadata path, and no parameters, query or fragment |
| Paths.ToString | bia_integrator_core/models.py:111 | `str()` of a path: the root and the parts joined by "/", or "." for the empty path; `ParseToString` states that parsing it gives the path back |
| Paths.Div | bia_integrator_core/models.py:109 | `p / rel`: the two strings joined and parsed again; `DivAppends` states that it appends the parts of a relative `rel` |
| Paths.Parse | bia_integrator_core/models.py:109 | a parsed path has a root of "", "/" or "//", and parts that are non-empty, not "." and free of "/" |
| Paths.Parent | bia_integrator_core/models.py:109 | the parent of a well-formed path is well-formed |
| Paths.ParseToString | bia_integrator_core/models.py:109 | parsing the string of a well-formed path gives the path back |
| Paths.ParseIdempotent | bia_integrator_core/models.py:109 | a parsed path, printed and parsed again, is unchanged |
| Paths.DivAppends | bia_integrator_core/models.py:109 | `p / rel` for a relative `rel` keeps the root of `p` and appends the parts of `rel` |
| Text.Split | bia_integrator_core/models.py:109 | `split` yields at least one piece, no piece holds the separator, and joining the pieces gives the string back |
| Text.SplitJoin | bia_integrator_core/models.py:109 | `split` undoes `join` when no piece holds the separator |
| Urls.UrlParse | bia_integrator_core/models.py:108 | `urlparse` of CPython 3.12.13 for a string; `UrlParseComponents` states the shapes of its components, `ParseUnparse` that it reads `urlunparse`'s output back |
| Urls.UrlUnparse | bia_integrator_core/models.py:110-115 | `urlunparse` of CPython 3.12.13 with parameters, query and fragment None; `ParseUnparse`, `UnsplitRelativePath` and `UnsplitDoubleSlashPath` state what it writes |
| Urls.UnsplitRelativePath | bia_integrator_core/models.py:110-115 | without a network location, a relative path is written with no "//" in front, whatever the scheme |
| Urls.UnsplitDoubleSlashPath | bia_integrator_core/models.py:110-115 | without a network location, a path starting with "//" gets another "//" in front, so `urlsplit` reads back an empty network location and the whole path |
| Urls.UrlParseComponents | bia_integrator_core/models.py:108 | `urlparse` yields a lower-case scheme, a network location without "/", "?", "#" and with balanced brackets, and a path without "?", "#", tab, CR or LF |
| Urls.ParseUnparse | bia_integrator_core/models.py:110-115 | `urlparse(urlunparse((scheme, netloc, path, None, None, None)))` gives back scheme, network location and path for the components `urlparse` produces with an absolute path |

## Left out

- XML parsing: `from_xml` becomes a function that keeps the fetched bytes. An OME-XML document that fails to parse is not modelled.
- Pydantic validation and serialisation are not modelled. This covers `ValidationError`, `json()` and its `ensure_ascii=False` default, and the coercion of input values. Records are built already valid.
- Floating-point values are not modelled as numbers. The fields of `ChannelRendering` are kept as their literals. The free-form `attributes` dictionaries (models.py:43, 58, 69, 96, 154) hold `Json` values without floating-point numbers, although the source accepts any value there. Nothing in the core computes with these values.
- `BIACollection` and `StudyTag` are records the core does not use, so they are not part of this model.
- `uri: Union[str, List[str]]`: only the `str` form is modelled. `ome_metadata` passes the URI straight to `urlparse`, which accepts only a string.
- `urllib.parse`: bracketed network locations are checked only for holding both kinds of square bracket or neither; one kind alone raises `ValueError`. The other checks of `_check_bracketed_netloc` are not modelled: text before "[" (as in "http://a[::1]/x"), text after "]" that is not a port, and a host inside the brackets that is not an IP address. Network locations with non-ASCII characters are not NFKC-checked.
- Integrator.LoadAndAnnotateStudy: does not model the order of Python's dictionary iteration. The images are visited in an unspecified order. When line 23 raises for one image, the model states which images may be untouched, but not which ones.
- Integrator.LoadAndAnnotateStudy: requires that no image object sits under two ids. A validated study always holds distinct objects, so aliasing between images is not modelled.
- Integrator.AnnotateImage: treats only a list of representations as something line 23 can extend. After the image annotations, the "representations" slot holds either the validated list or an annotation's string.
- The collaborators `get_study`, `get_study_annotations`, `get_image_annotations` and `get_representations` read from storage that is not part of this model. Their results are inputs, and their own failures are not modelled.
- The network is a fixed function from URI to response. Timeouts, connection errors and responses that change between requests are not modelled.
- Models.Remote.Get: always returns the server's answer for the URI. `requests.get` raises before sending anything for some URIs `MetadataUri` can produce, and the model does not: `MissingSchema` for a URI with no scheme ("OME/METADATA.ome.xml", derived from an empty URI), `InvalidURL` for a URI with no host ("http:"), and `InvalidSchema` for schemes other than http and https ("file:", "s3:").
- Models.BIAImageObject.OmeXmlUrlParse: always raises `AssertionError` for a status other than 200. Under `python -O` the `assert` at models.py:125 is removed, the body is parsed and may be cached; that mode is not modelled.
- Paths: models `pathlib.PurePosixPath` only. `Path` at models.py:109 is `PosixPath` on POSIX systems only; on Windows it is `WindowsPath`, whose `str()` writes "\\" separators into the derived URI. Windows paths are not modelled.
- Models.FreshRecordDefaults: states the defaults of pydantic v1, under which an `Optional` field without a default is None. Under pydantic v2 such a field is required; v2 is not modelled.
- OmeLocation.MetadataUriRoundTrip: holds only for URIs whose path starts with exactly one "/". Relative paths and paths starting with "//" are not covered by the round trip. `MetadataPathParts` still describes the derived path for every input.
