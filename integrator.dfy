/**
 * `load_and_annotate_study` (bia_integrator_core/integrator.py): load a
 * study, write its study-level annotations over its attributes, write each
 * image's annotations over that image's attributes, and append each image's
 * additional representations to its list of representations.
 *
 * The collaborators become inputs: the loaded study object, the study's
 * annotations, and the image annotations and additional representations as
 * functions of (accession id, image id).
 */
module Integrator {
  import opened Wrappers
  import opened Models

  // ---------------------------------------------------------------------------
  // Study annotations, integrator.py:12-16
  // ---------------------------------------------------------------------------

  /** Some annotation has the key `k`. */
  predicate AnnotatesStudy(annotations: seq<StudyAnnotation>, k: string) {
    exists i :: 0 <= i < |annotations| && annotations[i].key == k
  }

  /** `annotations[i]` is the last annotation with its key. */
  predicate IsLastStudyKey(annotations: seq<StudyAnnotation>, i: int) {
    0 <= i < |annotations| && forall j :: i < j < |annotations| ==> annotations[j].key != annotations[i].key
  }

  /** `annotations_dict` after the loop at lines 14-15: each key mapped to the value of its last annotation. */
  function AnnotationsDict(annotations: seq<StudyAnnotation>): map<string, string> {
    if annotations == [] then map[]
    else
      var last := annotations[|annotations| - 1];
      AnnotationsDict(annotations[..|annotations| - 1])[last.key := last.value]
  }

  /** The loop at lines 13-15. */
  method BuildAnnotationsDict(annotations: seq<StudyAnnotation>) returns (annotationsDict: map<string, string>)
    ensures annotationsDict == AnnotationsDict(annotations)
  {
    annotationsDict := map[];
    for i := 0 to |annotations|
      invariant annotationsDict == AnnotationsDict(annotations[..i])
    {
      assert annotations[..i + 1][..i] == annotations[..i];
      annotationsDict := annotationsDict[annotations[i].key := annotations[i].value];
    }
    assert annotations[..|annotations|] == annotations;
  }

  /** A key is in the dictionary exactly when some annotation has it. */
  lemma {:induction false} AnnotationsDictKey(annotations: seq<StudyAnnotation>, k: string)
    ensures k in AnnotationsDict(annotations) <==> AnnotatesStudy(annotations, k)
  {
    if annotations != [] {
      var n := |annotations|;
      var init := annotations[..n - 1];
      AnnotationsDictKey(init, k);
      if AnnotatesStudy(init, k) {
        var i :| 0 <= i < n - 1 && init[i].key == k;
        assert annotations[i].key == k;
      }
      if AnnotatesStudy(annotations, k) && annotations[n - 1].key != k {
        var i :| 0 <= i < n && annotations[i].key == k;
        assert init[i].key == k;
      }
    }
  }

  /** The last annotation with a key decides the key's value. */
  lemma {:induction false} AnnotationsDictLast(annotations: seq<StudyAnnotation>, i: int)
    requires IsLastStudyKey(annotations, i)
    ensures annotations[i].key in AnnotationsDict(annotations)
    ensures AnnotationsDict(annotations)[annotations[i].key] == annotations[i].value
  {
    var n := |annotations|;
    if i < n - 1 {
      var init := annotations[..n - 1];
      assert IsLastStudyKey(init, i);
      AnnotationsDictLast(init, i);
    }
  }

  /** The dictionary holds exactly the annotated keys, and each holds the value of its last annotation. */
  lemma AnnotationsDictLastWins(annotations: seq<StudyAnnotation>)
    ensures forall k :: k in AnnotationsDict(annotations) <==> AnnotatesStudy(annotations, k)
    ensures forall i :: IsLastStudyKey(annotations, i) ==>
      annotations[i].key in AnnotationsDict(annotations) && AnnotationsDict(annotations)[annotations[i].key] == annotations[i].value
  {
    forall k ensures k in AnnotationsDict(annotations) <==> AnnotatesStudy(annotations, k) {
      AnnotationsDictKey(annotations, k);
    }
    forall i | IsLastStudyKey(annotations, i)
      ensures annotations[i].key in AnnotationsDict(annotations)
      ensures AnnotationsDict(annotations)[annotations[i].key] == annotations[i].value
    {
      AnnotationsDictLast(annotations, i);
    }
  }

  /** The annotation values as they land in the study's `__dict__`. */
  function StrValues(d: map<string, string>): map<string, Value> {
    map k | k in d :: Str(d[k])
  }

  /**
   * `study.__dict__.update(annotations_dict)`: an annotated key, declared
   * field or not, now holds the value of its last annotation; every other
   * key keeps its value; no key is lost.
   */
  lemma StudyAnnotationsLastWins(ns: map<string, Value>, annotations: seq<StudyAnnotation>)
    ensures var updated := ns + StrValues(AnnotationsDict(annotations));
      && (forall k :: k in updated <==> k in ns || AnnotatesStudy(annotations, k))
      && (forall k :: k in ns && !AnnotatesStudy(annotations, k) ==> k in updated && updated[k] == ns[k])
      && (forall i :: IsLastStudyKey(annotations, i) ==>
            annotations[i].key in updated && updated[annotations[i].key] == Str(annotations[i].value))
  {
    AnnotationsDictLastWins(annotations);
  }

  // ---------------------------------------------------------------------------
  // Image annotations and representations, integrator.py:18-23
  // ---------------------------------------------------------------------------

  /** Some annotation has the key `k`. */
  predicate AnnotatesImage(annotations: seq<ImageAnnotation>, k: string) {
    exists i :: 0 <= i < |annotations| && annotations[i].key == k
  }

  /** `annotations[i]` is the last annotation with its key. */
  predicate IsLastImageKey(annotations: seq<ImageAnnotation>, i: int) {
    0 <= i < |annotations| && forall j :: i < j < |annotations| ==> annotations[j].key != annotations[i].key
  }

  /** An image's `__dict__` after the writes at lines 20-21, in order. */
  function WriteImageAnnotations(ns: map<string, Value>, annotations: seq<ImageAnnotation>): map<string, Value> {
    if annotations == [] then ns
    else
      var last := annotations[|annotations| - 1];
      WriteImageAnnotations(ns, annotations[..|annotations| - 1])[last.key := Str(last.value)]
  }

  /** The writes at lines 20-21 into one image's `__dict__`. */
  method WriteAnnotations(image: BIAImageObject, annotations: seq<ImageAnnotation>)
    modifies image
    ensures image.dict == WriteImageAnnotations(old(image.dict), annotations)
  {
    for i := 0 to |annotations|
      invariant image.dict == WriteImageAnnotations(old(image.dict), annotations[..i])
    {
      assert annotations[..i + 1][..i] == annotations[..i];
      image.dict := image.dict[annotations[i].key := Str(annotations[i].value)];
    }
    assert annotations[..|annotations|] == annotations;
  }

  /** A key is present after the writes exactly when it was before or some annotation has it. */
  lemma {:induction false} WrittenKey(ns: map<string, Value>, annotations: seq<ImageAnnotation>, k: string)
    ensures k in WriteImageAnnotations(ns, annotations) <==> k in ns || AnnotatesImage(annotations, k)
  {
    if annotations != [] {
      var n := |annotations|;
      var init := annotations[..n - 1];
      WrittenKey(ns, init, k);
      if AnnotatesImage(init, k) {
        var i :| 0 <= i < n - 1 && init[i].key == k;
        assert annotations[i].key == k;
      }
      if AnnotatesImage(annotations, k) && annotations[n - 1].key != k {
        var i :| 0 <= i < n && annotations[i].key == k;
        assert init[i].key == k;
      }
    }
  }

  /** A key no annotation has keeps its value. */
  lemma {:induction false} WrittenUntouched(ns: map<string, Value>, annotations: seq<ImageAnnotation>, k: string)
    requires k in ns && !AnnotatesImage(annotations, k)
    ensures k in WriteImageAnnotations(ns, annotations) && WriteImageAnnotations(ns, annotations)[k] == ns[k]
  {
    if annotations != [] {
      var n := |annotations|;
      var init := annotations[..n - 1];
      assert !AnnotatesImage(init, k) by {
        forall i | 0 <= i < n - 1 ensures init[i].key != k {
          assert init[i] == annotations[i];
        }
      }
      WrittenUntouched(ns, init, k);
    }
  }

  /** The last annotation with a key decides the key's value. */
  lemma {:induction false} WrittenLast(ns: map<string, Value>, annotations: seq<ImageAnnotation>, i: int)
    requires IsLastImageKey(annotations, i)
    ensures annotations[i].key in WriteImageAnnotations(ns, annotations)
    ensures WriteImageAnnotations(ns, annotations)[annotations[i].key] == Str(annotations[i].value)
  {
    var n := |annotations|;
    if i < n - 1 {
      var init := annotations[..n - 1];
      assert IsLastImageKey(init, i);
      WrittenLast(ns, init, i);
    }
  }

  /**
   * After the writes an annotated key holds the value of its last
   * annotation, every other key keeps its value, and no key is lost.
   */
  lemma ImageAnnotationsLastWins(ns: map<string, Value>, annotations: seq<ImageAnnotation>)
    ensures forall k :: k in WriteImageAnnotations(ns, annotations) <==> k in ns || AnnotatesImage(annotations, k)
    ensures forall k :: k in ns && !AnnotatesImage(annotations, k) ==>
      k in WriteImageAnnotations(ns, annotations) && WriteImageAnnotations(ns, annotations)[k] == ns[k]
    ensures forall i :: IsLastImageKey(annotations, i) ==>
      && annotations[i].key in WriteImageAnnotations(ns, annotations)
      && WriteImageAnnotations(ns, annotations)[annotations[i].key] == Str(annotations[i].value)
  {
    forall k ensures k in WriteImageAnnotations(ns, annotations) <==> k in ns || AnnotatesImage(annotations, k) {
      WrittenKey(ns, annotations, k);
    }
    forall k | k in ns && !AnnotatesImage(annotations, k)
      ensures k in WriteImageAnnotations(ns, annotations) && WriteImageAnnotations(ns, annotations)[k] == ns[k]
    {
      WrittenUntouched(ns, annotations, k);
    }
    forall i | IsLastImageKey(annotations, i)
      ensures annotations[i].key in WriteImageAnnotations(ns, annotations)
      ensures WriteImageAnnotations(ns, annotations)[annotations[i].key] == Str(annotations[i].value)
    {
      WrittenLast(ns, annotations, i);
    }
  }

  /**
   * Lines 19-23 for one image: the annotations written, then the additional
   * representations appended to the list in the "representations" slot. A
   * string written there by an annotation cannot be extended with a list.
   */
  function AnnotateImage(ns: map<string, Value>, annotations: seq<ImageAnnotation>, extra: seq<BIAImageRepresentation>): Result<map<string, Value>, Error> {
    var written := WriteImageAnnotations(ns, annotations);
    if "representations" !in written then Failure(AttributeError("representations"))
    else if written["representations"].Representations? then
      Success(written["representations" := Representations(written["representations"].representations + extra)])
    else Failure(TypeError("representations"))
  }

  /** What one pass of the loop body leaves in an image's `__dict__`, also when line 23 raises. */
  function AfterVisit(ns: map<string, Value>, annotations: seq<ImageAnnotation>, extra: seq<BIAImageRepresentation>): map<string, Value> {
    match AnnotateImage(ns, annotations, extra)
    case Success(after) => after
    case Failure(_) => WriteImageAnnotations(ns, annotations)
  }

  /**
   * For an image as loaded (its representations a list), annotating fails
   * exactly when an annotation has the key "representations"; otherwise the
   * new representations are the old ones followed by the additional ones,
   * and every other key is as the annotations left it.
   */
  lemma AnnotateImageOutcome(ns: map<string, Value>, reps: seq<BIAImageRepresentation>, annotations: seq<ImageAnnotation>, extra: seq<BIAImageRepresentation>)
    requires "representations" in ns && ns["representations"] == Representations(reps)
    ensures AnnotateImage(ns, annotations, extra).Failure? <==> AnnotatesImage(annotations, "representations")
    ensures AnnotateImage(ns, annotations, extra).Failure? ==> AnnotateImage(ns, annotations, extra).error == TypeError("representations")
    ensures AnnotateImage(ns, annotations, extra).Success? ==>
      var after := AnnotateImage(ns, annotations, extra).value;
      && after["representations"] == Representations(reps + extra)
      && (forall k :: k != "representations" ==>
            (k in after <==> k in WriteImageAnnotations(ns, annotations))
            && (k in after ==> after[k] == WriteImageAnnotations(ns, annotations)[k]))
  {
    ImageAnnotationsLastWins(ns, annotations);
    var written := WriteImageAnnotations(ns, annotations);
    if AnnotatesImage(annotations, "representations") {
      var i :| 0 <= i < |annotations| && annotations[i].key == "representations";
      var last := LastOfKey(annotations, i);
      assert written["representations"] == Str(annotations[last].value);
    }
  }

  /** Every annotation has a last annotation with the same key at or after it. */
  lemma {:induction false} LastOfKeyExists(annotations: seq<ImageAnnotation>, i: nat)
    requires i < |annotations|
    ensures exists j :: i <= j < |annotations| && annotations[j].key == annotations[i].key && IsLastImageKey(annotations, j)
    decreases |annotations| - i
  {
    if !IsLastImageKey(annotations, i) {
      var j :| i < j < |annotations| && annotations[j].key == annotations[i].key;
      LastOfKeyExists(annotations, j);
    }
  }

  function LastOfKey(annotations: seq<ImageAnnotation>, i: nat): (j: nat)
    requires i < |annotations|
    ensures i <= j < |annotations| && annotations[j].key == annotations[i].key && IsLastImageKey(annotations, j)
  {
    LastOfKeyExists(annotations, i);
    var j :| i <= j < |annotations| && annotations[j].key == annotations[i].key && IsLastImageKey(annotations, j);
    j
  }

  /** With no annotations and no additional representations, a loaded image is left as it was. */
  lemma EmptyInputsKeepImage(ns: map<string, Value>, reps: seq<BIAImageRepresentation>)
    requires "representations" in ns && ns["representations"] == Representations(reps)
    ensures AnnotateImage(ns, [], []) == Success(ns)
  {
    var none: seq<ImageAnnotation> := [];
    assert WriteImageAnnotations(ns, none) == ns;
    assert reps + [] == reps;
    assert ns["representations" := Representations(reps)] == ns;
  }

  /** With no annotations, the study's `__dict__` is left as it was. */
  lemma EmptyInputsKeepStudy(ns: map<string, Value>)
    ensures ns + StrValues(AnnotationsDict([])) == ns
  {
  }

  /**
   * The cached metadata is an ordinary attribute: an image annotation with
   * the key "ome_metadata" makes `ome_metadata` return the annotation's
   * value without fetching anything.
   */
  lemma AnnotationShadowsMetadata(ns: map<string, Value>, annotations: seq<ImageAnnotation>, extra: seq<BIAImageRepresentation>, i: nat)
    requires IsLastImageKey(annotations, i) && annotations[i].key == MetadataSlot
    requires AnnotateImage(ns, annotations, extra).Success?
    ensures PlanMetadataAccess(AnnotateImage(ns, annotations, extra).value) == CacheHit(Str(annotations[i].value))
  {
    ImageAnnotationsLastWins(ns, annotations);
  }

  /**
   * Annotations whose keys are not declared fields leave the image record
   * as it was, apart from the appended representations.
   */
  lemma UndeclaredAnnotationsKeepRecord(r: BIAImage, annotations: seq<ImageAnnotation>, extra: seq<BIAImageRepresentation>)
    requires forall i :: 0 <= i < |annotations| ==> annotations[i].key !in ImageFields
    ensures AnnotateImage(EncodeImage(r), annotations, extra).Success?
    ensures DecodeImage(AnnotateImage(EncodeImage(r), annotations, extra).value)
      == Some(r.(representations := r.representations + extra))
  {
    var ns := EncodeImage(r);
    ImageAnnotationsLastWins(ns, annotations);
    AnnotateImageOutcome(ns, r.representations, annotations, extra);
    var after := AnnotateImage(ns, annotations, extra).value;
    DecodeImageReadsDeclaredFields(after, EncodeImage(r.(representations := r.representations + extra)));
    DecodeEncodeImage(r.(representations := r.representations + extra));
  }

  /**
   * An annotation "dimensions" is what the image record then reports as its
   * dimensions, whatever it said before.
   */
  lemma DimensionsAnnotation(r: BIAImage, annotations: seq<ImageAnnotation>, extra: seq<BIAImageRepresentation>, i: nat)
    requires IsLastImageKey(annotations, i) && annotations[i].key == "dimensions"
    requires forall j :: 0 <= j < |annotations| ==> annotations[j].key !in ImageFields - {"dimensions"}
    ensures AnnotateImage(EncodeImage(r), annotations, extra).Success?
    ensures DecodeImage(AnnotateImage(EncodeImage(r), annotations, extra).value)
      == Some(r.(dimensions := Some(annotations[i].value), representations := r.representations + extra))
  {
    var ns := EncodeImage(r);
    var r' := r.(dimensions := Some(annotations[i].value), representations := r.representations + extra);
    ImageAnnotationsLastWins(ns, annotations);
    AnnotateImageOutcome(ns, r.representations, annotations, extra);
    var after := AnnotateImage(ns, annotations, extra).value;
    DecodeImageReadsDeclaredFields(after, EncodeImage(r'));
    DecodeEncodeImage(r');
  }

  /**
   * One pass of the loop body at lines 19-23 on one image: its annotations
   * written, then its additional representations appended; the error line
   * 23 raises, if any.
   */
  method VisitImage(image: BIAImageObject, annotations: seq<ImageAnnotation>, extra: seq<BIAImageRepresentation>)
    returns (failure: Option<Error>)
    modifies image
    ensures image.dict == AfterVisit(old(image.dict), annotations, extra)
    ensures failure == match AnnotateImage(old(image.dict), annotations, extra)
      case Success(_) => None
      case Failure(e) => Some(e)
  {
    WriteAnnotations(image, annotations);
    if "representations" !in image.dict {
      return Some(AttributeError("representations"));
    }
    var current := image.dict["representations"];
    if !current.Representations? {
      return Some(TypeError("representations"));
    }
    image.dict := image.dict["representations" := Representations(current.representations + extra)];
    return None;
  }

  // ---------------------------------------------------------------------------
  // load_and_annotate_study, integrator.py:7-25
  // ---------------------------------------------------------------------------

  /**
   * The loop at lines 18-23 over the study's image objects: each image is
   * visited once and receives its own annotations and additional
   * representations, until line 23 raises for one of them. Then the images
   * visited before it are fully annotated, that image holds its
   * annotations, and the rest are untouched.
   */
  method AnnotateImages(
    accessionId: string,
    images: map<string, BIAImageObject>,
    imageAnnotations: (string, string) -> seq<ImageAnnotation>,
    additionalRepresentations: (string, string) -> seq<BIAImageRepresentation>)
    returns (failure: Option<Error>)
    requires DistinctObjects(images)
    modifies images.Values
    ensures failure.None? <==>
      forall id :: id in images ==>
        AnnotateImage(old(images[id].dict), imageAnnotations(accessionId, id), additionalRepresentations(accessionId, id)).Success?
    ensures failure.None? ==>
      forall id :: id in images ==>
        images[id].dict == AnnotateImage(old(images[id].dict), imageAnnotations(accessionId, id), additionalRepresentations(accessionId, id)).value
    ensures failure.Some? ==>
      exists id :: id in images
        && AnnotateImage(old(images[id].dict), imageAnnotations(accessionId, id), additionalRepresentations(accessionId, id)) == Failure(failure.value)
        && images[id].dict == WriteImageAnnotations(old(images[id].dict), imageAnnotations(accessionId, id))
        && forall other :: other in images && other != id ==>
             || images[other].dict == old(images[other].dict)
             || (&& AnnotateImage(old(images[other].dict), imageAnnotations(accessionId, other), additionalRepresentations(accessionId, other)).Success?
                 && images[other].dict == AnnotateImage(old(images[other].dict), imageAnnotations(accessionId, other), additionalRepresentations(accessionId, other)).value)
    ensures forall id :: id in images ==>
      || images[id].dict == old(images[id].dict)
      || images[id].dict == AfterVisit(old(images[id].dict), imageAnnotations(accessionId, id), additionalRepresentations(accessionId, id))
  {
    var todo := images.Keys;
    while todo != {}
      invariant todo <= images.Keys
      invariant forall id :: id in todo ==> images[id].dict == old(images[id].dict)
      invariant forall id :: id in images && id !in todo ==>
        && AnnotateImage(old(images[id].dict), imageAnnotations(accessionId, id), additionalRepresentations(accessionId, id)).Success?
        && images[id].dict == AnnotateImage(old(images[id].dict), imageAnnotations(accessionId, id), additionalRepresentations(accessionId, id)).value
      decreases todo
    {
      var id :| id in todo;
      failure := VisitImage(images[id], imageAnnotations(accessionId, id), additionalRepresentations(accessionId, id));
      if failure.Some? {
        return;
      }
      todo := todo - {id};
    }
    return None;
  }

  /**
   * `load_and_annotate_study(accession_id)` applied to the study that
   * `get_study` returned. The study's `__dict__` is updated with the study
   * annotations. When that replaced the "images" slot by a string, line 18
   * raises and no image is touched. Otherwise the images are annotated as
   * `AnnotateImages` says, and on success the method returns the same
   * study object.
   */
  method LoadAndAnnotateStudy(
    accessionId: string,
    study: BIAStudyObject,
    studyAnnotations: seq<StudyAnnotation>,
    imageAnnotations: (string, string) -> seq<ImageAnnotation>,
    additionalRepresentations: (string, string) -> seq<BIAImageRepresentation>)
    returns (result: Result<BIAStudyObject, Error>)
    requires study.HoldsDistinctImages()
    modifies study, study.ImageSet()
    ensures study.dict == old(study.dict) + StrValues(AnnotationsDict(studyAnnotations))
    ensures var images := old(study.ImageObjects());
      "images" in AnnotationsDict(studyAnnotations) ==>
        && result == Failure(AttributeError("items"))
        && forall id :: id in images ==> images[id].dict == old(images[id].dict)
    ensures var images := old(study.ImageObjects());
      "images" !in AnnotationsDict(studyAnnotations) ==>
        && (result.Success? <==>
              forall id :: id in images ==>
                AnnotateImage(old(images[id].dict), imageAnnotations(accessionId, id), additionalRepresentations(accessionId, id)).Success?)
        && (result.Success? ==>
              && result.value == study
              && forall id :: id in images ==>
                   images[id].dict == AnnotateImage(old(images[id].dict), imageAnnotations(accessionId, id), additionalRepresentations(accessionId, id)).value)
        && (result.Failure? ==>
              exists id :: id in images
                && AnnotateImage(old(images[id].dict), imageAnnotations(accessionId, id), additionalRepresentations(accessionId, id)) == Failure(result.error)
                && images[id].dict == WriteImageAnnotations(old(images[id].dict), imageAnnotations(accessionId, id))
                && forall other :: other in images && other != id ==>
                     || images[other].dict == old(images[other].dict)
                     || (&& AnnotateImage(old(images[other].dict), imageAnnotations(accessionId, other), additionalRepresentations(accessionId, other)).Success?
                         && images[other].dict == AnnotateImage(old(images[other].dict), imageAnnotations(accessionId, other), additionalRepresentations(accessionId, other)).value))
        && (forall id :: id in images ==>
              || images[id].dict == old(images[id].dict)
              || images[id].dict == AfterVisit(old(images[id].dict), imageAnnotations(accessionId, id), additionalRepresentations(accessionId, id)))
  {
    ghost var images0 := study.ImageObjects();
    var annotationsDict := BuildAnnotationsDict(studyAnnotations);
    study.dict := study.dict + StrValues(annotationsDict);
    var slot := study.dict["images"];
    if !slot.Images? {
      return Failure(AttributeError("items"));
    }
    var images := slot.images;
    assert images == images0;
    var failure := AnnotateImages(accessionId, images, imageAnnotations, additionalRepresentations);
    if failure.Some? {
      return Failure(failure.value);
    }
    return Success(study);
  }
}
