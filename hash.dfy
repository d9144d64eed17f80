/**
 * The change detector: a content hash of an object, kept under a well-known
 * annotation, and a comparison of two objects by their stored hashes.
 * JSON encoding followed by SHA-256 is an uninterpreted, possibly failing
 * function `Hasher` supplied by the caller.
 */
module Hash {
  import opened Wrappers
  import opened Meta
  import ApiV1
  import opened Resources
  import opened Store

  /** The annotation key the hash is stored under: the API group, then "/last-applied-hash". */
  const Annotation: string := ApiV1.Group + "/last-applied-hash"

  /** json.Marshal followed by a hex SHA-256 digest; either step may fail. */
  type Hasher = Object -> Result<string, Error>

  function AnnotationsOf(o: Object): StringMap {
    MetaOf(o).annotations
  }

  /** SetAnnotations: only the annotation map of the object changes. */
  function WithAnnotations(o: Object, a: StringMap): (r: Object)
    ensures AnnotationsOf(r) == a
    ensures KindOf(r) == KindOf(o) && MetaOf(r) == MetaOf(o).(annotations := a)
    ensures WithMeta(r, MetaOf(o)) == o
  {
    WithMeta(o, MetaOf(o).(annotations := a))
  }

  /** The object as it is hashed: the annotation map made non-nil and the hash key removed. */
  function Stripped(o: Object): (r: Object)
    ensures AnnotationsOf(r).Some? && Annotation !in AnnotationsOf(r).value
    // every other annotation is kept, and nothing else changes
    ensures forall k | k in OrEmpty(AnnotationsOf(o)) && k != Annotation ::
              k in AnnotationsOf(r).value && AnnotationsOf(r).value[k] == OrEmpty(AnnotationsOf(o))[k]
    ensures AnnotationsOf(r).value.Keys == OrEmpty(AnnotationsOf(o)).Keys - {Annotation}
    ensures WithAnnotations(r, AnnotationsOf(o)) == o
  {
    WithAnnotations(o, Some(OrEmpty(AnnotationsOf(o)) - {Annotation}))
  }

  /** The hash stored on an object, with Go's `(value, ok)` lookup on a possibly nil map. */
  function StoredHash(o: Object): (h: Option<string>)
    ensures h.Some? <==> AnnotationsOf(o).Some? && Annotation in AnnotationsOf(o).value
    ensures h.Some? ==> h.value == AnnotationsOf(o).value[Annotation]
  {
    if Annotation in OrEmpty(AnnotationsOf(o)) then Some(OrEmpty(AnnotationsOf(o))[Annotation]) else None
  }

  /**
   * ComputeToAnnotation: the object after the call, and either the buffer
   * map holding the hash or the hashing error (Go returns a nil map then).
   */
  datatype Computed = Computed(obj: Object, annotations: Result<map<string, string>, Error>)

  /**
   * A fresh buffer is made; an object without annotations gets that very
   * buffer as its annotation map, so the hash written into the buffer ends up
   * on the object too. The hash key is deleted from the object's annotations
   * before hashing.
   */
  function ComputeToAnnotation(obj: Object, hashJSON: Hasher): (r: Computed)
    // the buffer holds exactly one entry, the hash of the stripped object
    ensures r.annotations.Success? <==> hashJSON(Stripped(obj)).Success?
    ensures r.annotations.Success? ==> r.annotations.value == map[Annotation := hashJSON(Stripped(obj)).value]
    ensures r.annotations.Failure? ==> r.annotations.error == hashJSON(Stripped(obj)).error
    // only the annotations of the object change
    ensures WithAnnotations(r.obj, AnnotationsOf(obj)) == obj
    // existing annotations lose the hash key and nothing else
    ensures AnnotationsOf(obj).Some? ==> AnnotationsOf(r.obj) == Some(AnnotationsOf(obj).value - {Annotation})
    // nil annotations become the buffer itself
    ensures AnnotationsOf(obj).None? && r.annotations.Success? ==> AnnotationsOf(r.obj) == Some(r.annotations.value)
    ensures AnnotationsOf(obj).None? && r.annotations.Failure? ==> AnnotationsOf(r.obj) == Some(map[])
  {
    var buffer: map<string, string> := map[];
    var aliased := AnnotationsOf(obj).None?;
    var initialised := if aliased then WithAnnotations(obj, Some(buffer)) else obj;
    var stripped := WithAnnotations(initialised, Some(AnnotationsOf(initialised).value - {Annotation}));
    assert stripped == Stripped(obj);
    match hashJSON(stripped)
    case Failure(e) => Computed(stripped, Failure(e))
    case Success(h) =>
      var filled := buffer[Annotation := h];
      Computed(if aliased then WithAnnotations(stripped, Some(filled)) else stripped, Success(filled))
  }

  /** Equal: the (possibly mutated) desired object and the verdict. */
  datatype Comparison = Comparison(desired: Object, equal: bool)

  /** The current object's hash, "" when it has none. */
  function CurrentHash(current: Object): string {
    StoredHash(current).GetOr("")
  }

  /**
   * Equal compares the desired object's stored hash (computing it, and
   * thereby annotating `desired`, when it has none) with the current object's.
   */
  function Equal(desired: Object, current: Object, hashJSON: Hasher): (r: Comparison)
    // a stored hash is used as it is, and nothing is recomputed or changed
    ensures StoredHash(desired).Some? ==>
              r.desired == desired && (r.equal <==> StoredHash(desired).value == CurrentHash(current))
    // otherwise the hash is computed on demand; a failure reads as "not equal"
    ensures StoredHash(desired).None? ==>
              && r.desired == ComputeToAnnotation(desired, hashJSON).obj
              && (r.equal <==> hashJSON(Stripped(desired)).Success?
                               && hashJSON(Stripped(desired)).value == CurrentHash(current))
  {
    match StoredHash(desired)
    case Some(hashA) => Comparison(desired, hashA == CurrentHash(current))
    case None =>
      var computed := ComputeToAnnotation(desired, hashJSON);
      match computed.annotations
      case Failure(_) => Comparison(computed.obj, false)
      case Success(annotations) => Comparison(computed.obj, annotations[Annotation] == CurrentHash(current))
  }

  /** The annotation key spelled out. */
  lemma AnnotationKey()
    ensures Annotation == "app.stackit.cloud/last-applied-hash"
  {
  }

  /** Stripping twice is stripping once. */
  lemma StrippedIdempotent(o: Object)
    ensures Stripped(Stripped(o)) == Stripped(o)
  {
    var a := OrEmpty(AnnotationsOf(o)) - {Annotation};
    assert a - {Annotation} == a;
  }

  /**
   * The computed hash does not depend on the hash annotation: two objects
   * that differ at most in that one annotation (or in having no annotation
   * map at all versus one holding only that key) get the same buffer.
   */
  lemma HashIgnoresStoredHash(o1: Object, o2: Object, hashJSON: Hasher)
    requires WithAnnotations(o1, None) == WithAnnotations(o2, None)
    requires OrEmpty(AnnotationsOf(o1)) - {Annotation} == OrEmpty(AnnotationsOf(o2)) - {Annotation}
    ensures ComputeToAnnotation(o1, hashJSON).annotations == ComputeToAnnotation(o2, hashJSON).annotations
  {
    assert Stripped(o1) == WithAnnotations(WithAnnotations(o1, None), Some(OrEmpty(AnnotationsOf(o1)) - {Annotation}));
    assert Stripped(o2) == WithAnnotations(WithAnnotations(o2, None), Some(OrEmpty(AnnotationsOf(o2)) - {Annotation}));
  }

  /**
   * Asking again with the desired object Equal handed back gives the same
   * verdict, whether the first call annotated it or not.
   */
  lemma EqualRepeatable(desired: Object, current: Object, hashJSON: Hasher)
    ensures Equal(Equal(desired, current, hashJSON).desired, current, hashJSON).equal
            == Equal(desired, current, hashJSON).equal
  {
    var first := Equal(desired, current, hashJSON);
    if StoredHash(desired).None? {
      var computed := ComputeToAnnotation(desired, hashJSON);
      if AnnotationsOf(desired).Some? || computed.annotations.Failure? {
        assert first.desired == Stripped(desired) by {
          assert WithAnnotations(first.desired, AnnotationsOf(desired)) == desired;
          assert AnnotationsOf(first.desired) == Some(OrEmpty(AnnotationsOf(desired)) - {Annotation});
          assert first.desired == WithAnnotations(desired, AnnotationsOf(first.desired));
        }
        StrippedIdempotent(desired);
        assert StoredHash(first.desired).None?;
      }
    }
  }

  /** A desired object without a hash equals a current object that carries the desired one's hash. */
  lemma EqualSeesNoDrift(desired: Object, current: Object, hashJSON: Hasher)
    requires StoredHash(desired).None?
    requires hashJSON(Stripped(desired)).Success?
    requires StoredHash(current) == Some(hashJSON(Stripped(desired)).value)
    ensures Equal(desired, current, hashJSON).equal
  {
  }

  /** Different hashes, or a failing hash, always read as drift. */
  lemma EqualSeesDrift(desired: Object, current: Object, hashJSON: Hasher)
    requires StoredHash(desired).None?
    requires hashJSON(Stripped(desired)).Success? ==> hashJSON(Stripped(desired)).value != CurrentHash(current)
    ensures !Equal(desired, current, hashJSON).equal
  {
  }
}
