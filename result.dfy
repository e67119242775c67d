/**
 * The success/failure union returned across the HTTP boundary instead of throwing:
 * `Ok(value)` carries the success value, `Err(error)` the failure. The tag and the
 * populated field cannot disagree, because each constructor has exactly one field.
 */
module Results {

  datatype Result<+T, +E> = Ok(value: T) | Err(error: E)

  /** `ok(v)`. */
  function MakeOk<T, E>(v: T): (r: Result<T, E>)
    ensures IsOk(r) && r.value == v
  {
    Ok(v)
  }

  /** `err(e)`. */
  function MakeErr<T, E>(e: E): (r: Result<T, E>)
    ensures IsErr(r) && r.error == e
  {
    Err(e)
  }

  /** `isOk(r)`: the `ok` tag. */
  predicate IsOk<T, E>(r: Result<T, E>)
  {
    r.Ok?
  }

  /** `isErr(r)`: the negated `ok` tag. */
  predicate IsErr<T, E>(r: Result<T, E>)
  {
    !r.Ok?
  }

  /**
   * `unwrap(r)`. On an `Err` the source throws the carried error; the model makes
   * returning normally the precondition.
   */
  function Unwrap<T, E>(r: Result<T, E>): (v: T)
    requires IsOk(r)
    ensures r == Ok(v)
  {
    r.value
  }

  /** `unwrapOr(r, d)`: the success value, or `d` on failure. */
  function UnwrapOr<T, E>(r: Result<T, E>, d: T): (v: T)
    ensures IsOk(r) ==> r == Ok(v)
    ensures IsErr(r) ==> v == d
  {
    match r
    case Ok(x) => x
    case Err(_) => d
  }

  /** `map(r, f)`: apply `f` to a success value; a failure passes through unchanged. */
  function Map<T, U, E>(r: Result<T, E>, f: T -> U): (m: Result<U, E>)
    ensures IsOk(m) <==> IsOk(r)
    ensures IsOk(r) ==> m.value == f(r.value)
    ensures IsErr(r) ==> m.error == r.error
  {
    match r
    case Ok(x) => Ok(f(x))
    case Err(e) => Err(e)
  }

  /** `mapErr(r, f)`: apply `f` to a failure; a success passes through unchanged. */
  function MapErr<T, E, F>(r: Result<T, E>, f: E -> F): (m: Result<T, F>)
    ensures IsOk(m) <==> IsOk(r)
    ensures IsOk(r) ==> m.value == r.value
    ensures IsErr(r) ==> m.error == f(r.error)
  {
    match r
    case Ok(x) => Ok(x)
    case Err(e) => Err(f(e))
  }

  /** `isOk` reads the success tag and `isErr` the failure tag. */
  lemma TagTests<T, E>(x: T, e: E)
    ensures IsOk(MakeOk<T, E>(x)) && !IsErr(MakeOk<T, E>(x))
    ensures IsErr(MakeErr<T, E>(e)) && !IsOk(MakeErr<T, E>(e))
  {
  }

  /** `isOk` and `isErr` are exact complements. */
  lemma TagsComplement<T, E>(r: Result<T, E>)
    ensures IsOk(r) != IsErr(r)
  {
  }

  /** `unwrapOr` on the two constructors. */
  lemma UnwrapOrCases<T, E>(x: T, e: E, d: T)
    ensures UnwrapOr(MakeOk<T, E>(x), d) == x
    ensures UnwrapOr(MakeErr<T, E>(e), d) == d
  {
  }

  /** `unwrap` agrees with `unwrapOr` wherever it returns, whatever the default. */
  lemma UnwrapIsUnwrapOr<T, E>(r: Result<T, E>, d: T)
    requires IsOk(r)
    ensures Unwrap(r) == UnwrapOr(r, d)
  {
  }

  /** Functor identity law: mapping the identity changes nothing. */
  lemma MapIdentity<T, E>(r: Result<T, E>)
    ensures Map(r, (x: T) => x) == r
  {
  }

  /** Functor composition law: two maps are one map of the composite. */
  lemma MapCompose<T, U, V, E>(r: Result<T, E>, f: T -> U, g: U -> V)
    ensures Map(Map(r, f), g) == Map(r, (x: T) => g(f(x)))
  {
  }

  /** `mapErr` identity law. */
  lemma MapErrIdentity<T, E>(r: Result<T, E>)
    ensures MapErr(r, (e: E) => e) == r
  {
  }

  /** `mapErr` composition law. */
  lemma MapErrCompose<T, E, F, G>(r: Result<T, E>, f: E -> F, g: F -> G)
    ensures MapErr(MapErr(r, f), g) == MapErr(r, (e: E) => g(f(e)))
  {
  }

  /** `map` and `mapErr` act on different sides and commute. */
  lemma MapMapErrCommute<T, U, E, F>(r: Result<T, E>, f: T -> U, g: E -> F)
    ensures MapErr(Map(r, f), g) == Map(MapErr(r, g), f)
  {
  }
}
