/**
 * The "success or failure" sum type as a value: `Result<T, E>` seen through
 * its abstract contents, with the helper objects that defer the choice of
 * side to the Result's own constructor, and the combinators of the class.
 * The conversions from Option to Result (`ok_or`, `ok_or_else`) live here
 * too, since this module sees both types. The tag-and-union layout with its
 * destroy-and-rebuild lifecycle is modelled in module ResultObjects.
 */
module Results {
  import opened TypeSupport
  import opened Options

  datatype Result<T, E> = Ok(value: T) | Err(error: E) {

    /** `is_ok()` */
    predicate IsOk()
      ensures IsOk() <==> !Err?
    {
      Ok?
    }

    /** `is_err()`: defined, as in the class, as the negation of `is_ok()`. */
    predicate IsErr()
      ensures IsErr() <==> Err?
    {
      !IsOk()
    }

    /** `ok() &&`: the success value as an Option, discarding a failure. */
    function OkOption(): (r: Option<T>)
      ensures r.IsSome() <==> IsOk()
    {
      if IsOk() then Some(value) else None
    }

    /** `err() &&`: the failure value as an Option, discarding a success. */
    function ErrOption(): (r: Option<E>)
      ensures r.IsSome() <==> IsErr()
    {
      if IsErr() then Some(error) else None
    }

    /** `match(func_ok, func_err) &&` */
    function Match<R>(funcOk: T -> R, funcErr: E -> R): (r: R)
      ensures Ok? ==> r == funcOk(value)
      ensures Err? ==> r == funcErr(error)
    {
      if IsOk() then funcOk(value) else funcErr(error)
    }

    /** `map(func) &&` */
    function Map<U>(func: T -> U): (r: Result<U, E>)
      ensures r.IsOk() <==> IsOk()
      ensures r.IsOk() ==> r.value == func(value)
      ensures r.IsErr() ==> r.error == error
    {
      if IsOk() then Ok(func(value)) else Err(error)
    }

    /** `map_err(func) &&` */
    function MapErr<F>(func: E -> F): (r: Result<T, F>)
      ensures r.IsErr() <==> IsErr()
      ensures r.IsErr() ==> r.error == func(error)
      ensures r.IsOk() ==> r.value == value
    {
      if IsErr() then Err(func(error)) else Ok(value)
    }

    /** `and_then(func) &&`: bind on the success side. */
    function AndThen<U>(func: T -> Result<U, E>): (r: Result<U, E>)
      ensures IsOk() ==> r == func(value)
      ensures IsErr() ==> r.IsErr() && r.error == error
    {
      if IsOk() then func(value) else Err(error)
    }

    /** `or_else(alt_func) &&`: bind on the failure side. */
    function OrElse<F>(altFunc: E -> Result<T, F>): (r: Result<T, F>)
      ensures IsErr() ==> r == altFunc(error)
      ensures IsOk() ==> r.IsOk() && r.value == value
    {
      if IsOk() then Ok(value) else altFunc(error)
    }

    /** `unwrap() &&`: undefined behaviour on a failure. */
    function Unwrap(): (v: T)
      requires IsOk()
      ensures Ok(v) == this
    {
      value
    }

    /** `unwrap_err() &&`: undefined behaviour on a success. */
    function UnwrapErr(): (e: E)
      requires IsErr()
      ensures Err(e) == this
    {
      error
    }

    /** `unwrap_or(alt) &&` */
    function UnwrapOr(alt: T): (r: T)
      ensures r == OkOption().UnwrapOr(alt)
    {
      if IsOk() then Unwrap() else alt
    }

    /** `unwrap_or_else(alt_func) &&`, written as in the class through `match`. */
    function UnwrapOrElse(altFunc: E -> T): (r: T)
      ensures IsOk() ==> r == value
      ensures IsErr() ==> r == altFunc(error)
    {
      Match(x => x, altFunc)
    }
  }

  // ---------------------------------------------------------------------------
  // Helper objects and construction

  /** `MakeOkResult<T>`, what `ok(val)` returns. */
  datatype MakeOkResult<T> = MakeOkResult(val: T)

  /** `MakeErrResult<E>`, what `err(val)` returns. */
  datatype MakeErrResult<E> = MakeErrResult(val: E)

  /** `OkTag` / `ErrTag` */
  datatype SideTag = OkTag | ErrTag

  /** `make_ok(args...)` / `make_err(args...)`: the arguments, tagged with
      the side they are meant for, kept to build the payload in place. */
  datatype MakeResultArgs<A> = MakeResultArgs(tag: SideTag, tup: A)

  /** `Result(MakeOkResult<T>)` */
  function FromMakeOk<T, E>(helper: MakeOkResult<T>): (r: Result<T, E>)
    ensures r.IsOk() && r.Unwrap() == helper.val
  {
    Ok(helper.val)
  }

  /** `Result(MakeErrResult<E>)` */
  function FromMakeErr<T, E>(helper: MakeErrResult<E>): (r: Result<T, E>)
    ensures r.IsErr() && r.UnwrapErr() == helper.val
  {
    Err(helper.val)
  }

  /** `Result(MakeResultArgs<Tag, Args...>&&)`: the tag picks the side, and the
      payload is built from the forwarded arguments by that side's constructor. */
  function FromMakeArgs<A, T, E>(makeArgs: MakeResultArgs<A>, makeOk: A -> T, makeErr: A -> E): (r: Result<T, E>)
    ensures r.IsOk() <==> makeArgs.tag == OkTag
    ensures r.IsOk() ==> r.Unwrap() == makeOk(makeArgs.tup)
    ensures r.IsErr() ==> r.UnwrapErr() == makeErr(makeArgs.tup)
  {
    match makeArgs.tag
    case OkTag => Ok(makeOk(makeArgs.tup))
    case ErrTag => Err(makeErr(makeArgs.tup))
  }

  // ---------------------------------------------------------------------------
  // Equality

  /** `Result::operator==(const self_t&)`: same side and equal payloads. */
  function Eq<T(==), E(==)>(a: Result<T, E>, b: Result<T, E>): (r: bool)
    ensures r <==> a == b
  {
    if a.IsOk() then (if b.IsOk() then a.value == b.value else false)
    else (if b.IsErr() then a.error == b.error else false)
  }

  /** `Result::operator!=` */
  function Ne<T(==), E(==)>(a: Result<T, E>, b: Result<T, E>): (r: bool)
    ensures r <==> a != b
  {
    !Eq(a, b)
  }

  /** `Result::operator==(const MakeOkResult<T>&)`: compares with a helper
      exactly as with the Result the helper converts to. */
  function EqOk<T(==), E(==)>(a: Result<T, E>, helper: MakeOkResult<T>): (r: bool)
    ensures r <==> Eq(a, FromMakeOk(helper))
  {
    if a.IsOk() then a.value == helper.val else false
  }

  /** `Result::operator==(const MakeErrResult<E>&)` */
  function EqErr<T(==), E(==)>(a: Result<T, E>, helper: MakeErrResult<E>): (r: bool)
    ensures r <==> Eq(a, FromMakeErr(helper))
  {
    if a.IsOk() then false else a.error == helper.val
  }

  /** The free `operator==` with the helper on the left. */
  function OkEq<T(==), E(==)>(helper: MakeOkResult<T>, b: Result<T, E>): (r: bool)
    ensures r <==> b == Ok(helper.val)
  {
    EqOk(b, helper)
  }

  /** The free `operator==` with the failure helper on the left. */
  function ErrEq<T(==), E(==)>(helper: MakeErrResult<E>, b: Result<T, E>): (r: bool)
    ensures r <==> b == Err(helper.val)
  {
    EqErr(b, helper)
  }

  // ---------------------------------------------------------------------------
  // Option to Result

  /** `Option::ok_or(err) &&` */
  function OkOr<T, E>(o: Option<T>, err: E): (r: Result<T, E>)
    ensures r.IsOk() <==> o.IsSome()
    ensures o.IsSome() ==> r == Ok(o.value)
    ensures o.IsNone() ==> r == Err(err)
  {
    if o.IsSome() then FromMakeOk(MakeOkResult(o.Unwrap())) else FromMakeErr(MakeErrResult(err))
  }

  /** `Option::ok_or_else(err_func) &&` */
  function OkOrElse<T, E>(o: Option<T>, errFunc: () -> E): (r: Result<T, E>)
    ensures r.IsOk() <==> o.IsSome()
    ensures o.IsSome() ==> r == Ok(o.value)
    ensures o.IsNone() ==> r == Err(errFunc())
  {
    if o.IsSome() then Ok(o.Unwrap()) else Err(errFunc())
  }

  // ---------------------------------------------------------------------------
  // Laws

  /** Exactly one side is active, and `is_err` is the negation of `is_ok`. */
  lemma OneSideActive<T, E>(r: Result<T, E>)
    ensures r.IsOk() != r.IsErr()
    ensures r.IsOk() <==> r.Ok?
  {
  }

  /** Equality: same side and equal payloads, never across sides. */
  lemma EqualityCases<T, E>(x: T, y: T, e: E, f: E)
    ensures Eq(Result<T, E>.Ok(x), Ok(y)) <==> x == y
    ensures Eq(Result<T, E>.Err(e), Err(f)) <==> e == f
    ensures !Eq(Ok(x), Err(e)) && !Eq(Err(e), Ok(x))
    ensures Ne(Ok(x), Err(e))
  {
  }

  /** Comparison with a helper object: holds iff the Result is on the helper's
      side with an equal payload, and the operand order does not matter. */
  lemma HelperEquality<T, E>(a: Result<T, E>, ok: MakeOkResult<T>, err: MakeErrResult<E>)
    ensures EqOk(a, ok) <==> a.IsOk() && a.value == ok.val
    ensures EqErr(a, err) <==> a.IsErr() && a.error == err.val
    ensures OkEq(ok, a) == EqOk(a, ok)
    ensures ErrEq(err, a) == EqErr(a, err)
  {
  }

  /** `ok()` and `err()`: round trips with the constructors, as the source's
      tests state them (`ok(v).ok().unwrap() == v`, `err(e).ok().is_none()`). */
  lemma ToOptionRoundTrips<T, E>(v: T, e: E)
    ensures Result<T, E>.Ok(v).OkOption() == Some(v)
    ensures Result<T, E>.Err(e).OkOption() == None
    ensures Result<T, E>.Err(e).ErrOption() == Some(e)
    ensures Result<T, E>.Ok(v).ErrOption() == None
  {
  }

  /** `ok()` and `err()` together lose nothing: a Result is recovered from them. */
  lemma ToOptionsDetermineResult<T, E>(r: Result<T, E>)
    ensures r.OkOption().IsSome() ==> r == Ok(r.OkOption().value)
    ensures r.ErrOption().IsSome() ==> r == Err(r.ErrOption().value)
  {
  }

  /** `ok_or` is the inverse of `ok()`: converting any Option to a Result and
      back gives the Option itself; a success converted to an Option and back
      is the success itself. */
  lemma OkOrRoundTrip<T, E>(o: Option<T>, err: E, r: Result<T, E>)
    ensures OkOr(o, err).OkOption() == o
    ensures OkOr(o, err).IsErr() ==> OkOr(o, err).error == err
    ensures r.IsOk() ==> OkOr(r.OkOption(), err) == r
    ensures OkOrElse(o, () => err) == OkOr(o, err)
  {
  }

  /** `map` on the success side and `map_err` on the failure side leave the
      other side untouched. */
  lemma MapTouchesOneSide<T, U, E, F>(v: T, e: E, f: T -> U, g: E -> F)
    ensures Result<T, E>.Ok(v).Map(f) == Ok(f(v))
    ensures Result<T, E>.Err(e).Map(f) == Err(e)
    ensures Result<T, E>.Err(e).MapErr(g) == Err(g(e))
    ensures Result<T, E>.Ok(v).MapErr(g) == Ok(v)
  {
  }

  /** Functor laws of `map` and `map_err`, and the two commute. */
  lemma MapFunctorLaws<T, U, V, E, F>(r: Result<T, E>, f: T -> U, g: U -> V, h: E -> F)
    ensures r.Map(x => x) == r
    ensures r.Map(f).Map(g) == r.Map(x => g(f(x)))
    ensures r.MapErr(x => x) == r
    ensures r.Map(f).MapErr(h) == r.MapErr(h).Map(f)
  {
  }

  /** `ok()` turns the Result's `map` into the Option's `map`. */
  lemma OkOptionOfMap<T, U, E>(r: Result<T, E>, f: T -> U)
    ensures r.Map(f).OkOption() == r.OkOption().Map(f)
    ensures r.Map(f).ErrOption() == r.ErrOption()
  {
  }

  /** Monad laws of `and_then` on the success side. */
  lemma AndThenLaws<T, U, V, E>(v: T, r: Result<T, E>, f: T -> Result<U, E>, g: U -> Result<V, E>)
    ensures Result<T, E>.Ok(v).AndThen(f) == f(v)
    ensures r.AndThen(x => Ok(x)) == r
    ensures r.AndThen(f).AndThen(g) == r.AndThen(x => f(x).AndThen(g))
    ensures r.IsErr() ==> r.AndThen(f) == Err(r.error)
  {
  }

  /** The dual laws of `or_else` on the failure side. */
  lemma OrElseLaws<T, E, F, G>(e: E, r: Result<T, E>, f: E -> Result<T, F>, g: F -> Result<T, G>)
    ensures Result<T, E>.Err(e).OrElse(f) == f(e)
    ensures r.OrElse(x => Err(x)) == r
    ensures r.OrElse(f).OrElse(g) == r.OrElse(x => f(x).OrElse(g))
    ensures r.IsOk() ==> r.OrElse(f) == Ok(r.value)
  {
  }

  /** `match` is the eliminator: the combinators are instances of it. */
  lemma CombinatorsAreMatches<T, U, E>(r: Result<T, E>, f: T -> U, g: T -> Result<U, E>)
    ensures r.Map(f) == r.Match(x => Ok(f(x)), x => Err(x))
    ensures r.AndThen(g) == r.Match(g, x => Err(x))
    ensures r.OkOption() == r.Match(x => Some(x), x => None)
  {
  }

  /** Fallbacks: `unwrap_or` and `unwrap_or_else` give the success value or the fallback. */
  lemma UnwrapFallbacks<T, E>(r: Result<T, E>, alt: T)
    ensures r.UnwrapOr(alt) == r.OkOption().UnwrapOr(alt)
    ensures r.UnwrapOrElse(x => alt) == r.UnwrapOr(alt)
  {
  }
}
