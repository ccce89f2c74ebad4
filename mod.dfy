/**
 * The result wrapper of `mod.ts`: a container holding a possibly-absent value
 * and a possibly-absent error, built directly or through the two factories
 * `val` and `err`. Nothing is validated: both fields may be present, or both
 * absent, and the container keeps whatever it was given.
 */
module Utils {
  import opened Wrappers

  /** `class Result<T>` with its two public nullable fields. `E` stands for
      the opaque `Error` object, which the module only stores. */
  datatype Result<T, E> = Result(value: Option<T>, error: Option<E>)

  /** `new Result(value, error)`: the error argument defaults to absent, and
      reading the fields back gives exactly the arguments, whatever they are. */
  function New<T, E>(value: Option<T>, error: Option<E> := None): (r: Result<T, E>)
    ensures r.value == value && r.error == error
  {
    Result(value, error)
  }

  /** `val(v)`: a value-bearing result; total, no failure path. */
  function Val<T, E>(v: T): (r: Result<T, E>)
    ensures r.value == Some(v) && r.error == None
    ensures ValueBearing(r) && !IsErr(r)
  {
    New(Some(v), None)
  }

  /** `err(e)`: an error-bearing result whose value type is left free;
      total, no failure path. */
  function Err<T, E>(e: E): (r: Result<T, E>)
    ensures r.error == Some(e) && r.value == None
    ensures ErrorBearing(r) && IsErr(r)
  {
    New(None, Some(e))
  }

  /** The caller-side test of the documentation example (`if (rslt.error)`):
      a result reads as a failure when its error field is present. */
  predicate IsErr<T, E>(r: Result<T, E>) {
    r.error.Some?
  }

  /** The well-formed success shape: value present, error absent. */
  predicate ValueBearing<T, E>(r: Result<T, E>) {
    r.value.Some? && r.error.None?
  }

  /** The well-formed failure shape: error present, value absent. */
  predicate ErrorBearing<T, E>(r: Result<T, E>) {
    r.value.None? && r.error.Some?
  }

  /** Omitting the error argument is the same as passing an absent one. */
  lemma NewDefaultsToNoError<T, E>(v: Option<T>)
    ensures New<T, E>(v) == New(v, None)
    ensures New<T, E>(v).error == None && New<T, E>(v).value == v
  {
  }

  /** Every result, whatever its shape, is what the constructor builds from
      its own fields: the constructor reaches all four shapes. */
  lemma NewReachesEveryResult<T, E>(r: Result<T, E>)
    ensures New(r.value, r.error) == r
  {
  }

  /** Both fields absent and both fields present are legal and are kept as
      given. The caller-side test reads the empty result as a success and
      the conflicting one as a failure. */
  lemma AmbiguousShapesKept<T, E>(v: T, e: E)
    ensures New<T, E>(None, None).value == None && New<T, E>(None, None).error == None
    ensures !IsErr(New<T, E>(None, None))
    ensures New(Some(v), Some(e)).value == Some(v) && New(Some(v), Some(e)).error == Some(e)
    ensures IsErr(New(Some(v), Some(e)))
    ensures !ValueBearing(New(Some(v), Some(e))) && !ErrorBearing(New(Some(v), Some(e)))
  {
  }

  /** `val(v)` is `new Result(v, null)`, and also `new Result(v)`. */
  lemma ValIsNewWithoutError<T, E>(v: T)
    ensures Val<T, E>(v) == New(Some(v), None)
    ensures Val<T, E>(v) == New(Some(v))
  {
  }

  /** `err(e)` is `new Result(null, e)`. */
  lemma ErrIsNewWithoutValue<T, E>(e: E)
    ensures Err<T, E>(e) == New(None, Some(e))
  {
  }

  /** Distinct values give distinct results, distinct errors give distinct
      results, and no value-bearing result is an error-bearing one. */
  lemma FactoriesInjectiveAndDisjoint<T, E>(v1: T, v2: T, e1: E, e2: E)
    ensures Val<T, E>(v1) == Val<T, E>(v2) <==> v1 == v2
    ensures Err<T, E>(e1) == Err<T, E>(e2) <==> e1 == e2
    ensures Val<T, E>(v1) != Err<T, E>(e1)
  {
  }

  /** The value-bearing shape is exactly the image of `val`. */
  lemma ValueBearingIffVal<T, E>(r: Result<T, E>)
    ensures ValueBearing(r) <==> exists v: T :: r == Val(v)
  {
    if ValueBearing(r) {
      assert r == Val(r.value.value);
    }
  }

  /** The error-bearing shape is exactly the image of `err`. */
  lemma ErrorBearingIffErr<T, E>(r: Result<T, E>)
    ensures ErrorBearing(r) <==> exists e: E :: r == Err(e)
  {
    if ErrorBearing(r) {
      assert r == Err(r.error.value);
    }
  }

  /** What the caller-side test tells a caller: a result reads as a failure
      exactly when it is some `err(e)` or a conflicting result with both
      fields present, and as a success exactly when it is some `val(v)` or the
      empty result with both fields absent. */
  lemma IsErrClassifiesShapes<T, E>(r: Result<T, E>)
    ensures IsErr(r) <==> (exists e: E :: r == Err(e)) || (r.value.Some? && r.error.Some?)
    ensures !IsErr(r) <==> (exists v: T :: r == Val(v)) || r == New(None, None)
  {
    if r.value.None? && r.error.Some? {
      assert r == Err<T, E>(r.error.value);
    } else if r.value.Some? && r.error.None? {
      assert r == Val<T, E>(r.value.value);
    }
  }
}
