/**
 * The "maybe a value" sum type as a value: `Option<T>` seen through its
 * abstract contents, with the combinators of the library's Option class.
 * Every combinator of the class consumes its receiver (`&&`) and builds a new
 * Option, so on values each one is a function. The stateful members (take,
 * emplace, unwrap of a variable, as_ref, iterators) are modelled on the
 * class in module OptionObjects.
 */
module Options {
  import opened TypeSupport

  datatype Option<T> = None | Some(value: T) {

    /** `is_some()` */
    predicate IsSome()
      ensures IsSome() <==> this != None
    {
      Some?
    }

    /** `is_none()`: defined, as in the class, as the negation of `is_some()`. */
    predicate IsNone()
      ensures IsNone() <==> this == None
    {
      !IsSome()
    }

    /** `explicit operator bool`: defined, as in the class, as `is_some()`. */
    predicate ToBool()
      ensures ToBool() <==> this != None
    {
      IsSome()
    }

    /** `match(func_some, func_none) &&`: the eliminator of the sum type. */
    function Match<R>(funcSome: T -> R, funcNone: () -> R): (r: R)
      ensures Some? ==> r == funcSome(value)
      ensures None? ==> r == funcNone()
    {
      if IsSome() then funcSome(value) else funcNone()
    }

    /** `map(func) &&` */
    function Map<U>(func: T -> U): (r: Option<U>)
      ensures r.IsSome() <==> IsSome()
      ensures r.IsSome() ==> r.value == func(value)
    {
      if IsSome() then Some(func(value)) else None
    }

    /** `map_or(default_val, func) &&` */
    function MapOr<U>(defaultVal: U, func: T -> U): (r: U)
      ensures r == Map(func).UnwrapOr(defaultVal)
    {
      if IsSome() then func(value) else defaultVal
    }

    /** `map_or_else(default_func, func) &&` */
    function MapOrElse<U>(defaultFunc: () -> U, func: T -> U): (r: U)
      ensures r == Map(func).UnwrapOrElse(defaultFunc)
    {
      if IsSome() then func(value) else defaultFunc()
    }

    /** `and_then(func) &&`: monadic bind. */
    function AndThen<U>(func: T -> Option<U>): (r: Option<U>)
      ensures r.IsSome() ==> IsSome()
      ensures IsSome() ==> r == func(value)
    {
      if IsSome() then func(value) else None
    }

    /** `or_else(alt_func) &&` */
    function OrElse(altFunc: () -> Option<T>): (r: Option<T>)
      ensures r.IsNone() ==> IsNone()
      ensures IsSome() ==> r == this
      ensures IsNone() ==> r == altFunc()
    {
      if IsSome() then Some(value) else altFunc()
    }

    /** `filter(predicate) &&`, written as in the class: through `and_then`. */
    function Filter(pred: T -> bool): (r: Option<T>)
      ensures r.IsSome() <==> IsSome() && pred(value)
      ensures r.IsSome() ==> r == this
    {
      AndThen(obj => if pred(obj) then Some(obj) else None)
    }

    /** `unwrap() &&`: undefined behaviour on None, so only Some may call it. */
    function Unwrap(): (v: T)
      requires IsSome()
      ensures Some(v) == this
    {
      value
    }

    /** `expect(err_msg) &&`: the one checked destructive read. */
    function Expect(errMsg: string): (r: Outcome<T>)
      ensures r.Threw? <==> IsNone()
      ensures r.Threw? ==> r.error == RuntimeError(errMsg)
    {
      if IsSome() then Returned(Unwrap()) else Threw(RuntimeError(errMsg))
    }

    /** `unwrap_or(alt) &&` */
    function UnwrapOr(alt: T): (r: T)
      ensures IsSome() ==> Some(r) == this
      ensures IsNone() ==> r == alt
    {
      if IsSome() then Unwrap() else alt
    }

    /** `unwrap_or_else(alt_func) &&` */
    function UnwrapOrElse(altFunc: () -> T): (r: T)
      ensures IsSome() ==> Some(r) == this
      ensures IsNone() ==> r == altFunc()
    {
      if IsSome() then Unwrap() else altFunc()
    }

    /** `unwrap_or_default() &&`, written as in the class through
        `unwrap_or_else`; `defaultValue` is the value `T{}` builds. */
    function UnwrapOrDefault(defaultValue: T): (r: T)
      ensures r == UnwrapOr(defaultValue)
    {
      UnwrapOrElse(() => defaultValue)
    }
  }

  /** `std::runtime_error` carrying the caller's message. */
  datatype RuntimeError = RuntimeError(what: string)

  /** A call that either returns normally or throws. */
  datatype Outcome<T> = Returned(value: T) | Threw(error: RuntimeError)

  /** `make_some(args...)`: the arguments, kept to build the payload in place. */
  datatype MakeOptionArgs<A> = MakeOptionArgs(tup: A)

  /** `Option(MakeOptionArgs&&)`: builds the payload from the forwarded
      arguments with the payload type's constructor `construct`. */
  function FromMakeSome<A, T>(makeArgs: MakeOptionArgs<A>, construct: A -> T): (r: Option<T>)
    ensures r.IsSome() && r.Unwrap() == construct(makeArgs.tup)
  {
    Some(construct(makeArgs.tup))
  }

  /** `some()`: a present Unit. */
  function SomeUnit(): (r: Option<Unit>)
    ensures r.IsSome()
  {
    Some(Unit)
  }

  /** `Option::operator==`: the cell equality, case by case. */
  function Eq<T(==)>(a: Option<T>, b: Option<T>): (r: bool)
    ensures r <==> a == b
  {
    if a.IsSome() then (if b.IsSome() then a.value == b.value else false)
    else !b.IsSome()
  }

  /** `Option::operator!=` */
  function Ne<T(==)>(a: Option<T>, b: Option<T>): (r: bool)
    ensures r <==> a != b
  {
    !Eq(a, b)
  }

  // ---------------------------------------------------------------------------
  // Laws

  /** Testing: `is_none` and the bool conversion are tied to `is_some`. */
  lemma VariantTests<T>(o: Option<T>)
    ensures o.IsNone() <==> !o.IsSome()
    ensures o.ToBool() <==> o.IsSome()
    ensures o.IsSome() <==> o != None
  {
  }

  /** Equality: none equals none, none never equals a value, values compare payloads. */
  lemma EqualityCases<T>(x: T, y: T)
    ensures Eq(Option<T>.None, Option<T>.None)
    ensures !Eq(None, Some(x)) && !Eq(Some(x), None)
    ensures Eq(Some(x), Some(y)) <==> x == y
    ensures Ne(Some(x), Some(y)) <==> x != y
  {
  }

  /** Construction followed by extraction gives back the value. */
  lemma UnwrapOfSome<T>(x: T, msg: string)
    ensures Some(x).IsSome() && Some(x).Unwrap() == x
    ensures Some(x).Expect(msg) == Returned(x)
  {
  }

  /** `match` sends a value to the some-handler and nothing to the none-handler,
      and every other combinator is an instance of it. */
  lemma CombinatorsAreMatches<T, U>(o: Option<T>, f: T -> U, g: T -> Option<U>, d: U, alt: () -> Option<T>)
    ensures o.Map(f) == o.Match(x => Some(f(x)), () => None)
    ensures o.MapOr(d, f) == o.Match(f, () => d)
    ensures o.AndThen(g) == o.Match(g, () => None)
    ensures o.OrElse(alt) == o.Match(x => Some(x), alt)
  {
  }

  /** Functor identity: mapping the identity changes nothing. */
  lemma MapIdentity<T>(o: Option<T>)
    ensures o.Map(x => x) == o
  {
  }

  /** Functor composition: two maps equal one map of the composite. */
  lemma MapComposition<T, U, V>(o: Option<T>, f: T -> U, g: U -> V)
    ensures o.Map(f).Map(g) == o.Map(x => g(f(x)))
  {
  }

  /** Functor law of the source's own tests: `some(v).map(f).unwrap() == f(v)`,
      and on None the function is never consulted. */
  lemma MapOnVariants<T, U>(v: T, f: T -> U)
    ensures Some(v).Map(f).IsSome() && Some(v).Map(f).Unwrap() == f(v)
    ensures Option<T>.None.Map(f) == None
  {
  }

  /** `map` is `and_then` of a function that always succeeds. */
  lemma MapIsAndThenSome<T, U>(o: Option<T>, f: T -> U)
    ensures o.Map(f) == o.AndThen(x => Some(f(x)))
  {
  }

  /** `map_or` and `map_or_else` are `map` followed by the matching unwrap. */
  lemma MapOrIsMapThenUnwrapOr<T, U>(o: Option<T>, d: U, df: () -> U, f: T -> U)
    ensures o.MapOr(d, f) == o.Map(f).UnwrapOr(d)
    ensures o.MapOrElse(df, f) == o.Map(f).UnwrapOrElse(df)
  {
  }

  /** Monad left identity. */
  lemma AndThenLeftIdentity<T, U>(v: T, f: T -> Option<U>)
    ensures Some(v).AndThen(f) == f(v)
  {
  }

  /** Monad right identity. */
  lemma AndThenRightIdentity<T>(o: Option<T>)
    ensures o.AndThen(x => Some(x)) == o
  {
  }

  /** Monad associativity. */
  lemma AndThenAssociative<T, U, V>(o: Option<T>, f: T -> Option<U>, g: U -> Option<V>)
    ensures o.AndThen(f).AndThen(g) == o.AndThen(x => f(x).AndThen(g))
  {
  }

  /** `or_else` keeps a value, replaces nothing by the alternative, has the
      always-absent alternative as identity and is associative. */
  lemma OrElseLaws<T>(o: Option<T>, g: () -> Option<T>, h: () -> Option<T>)
    ensures o.IsSome() ==> o.OrElse(g) == o
    ensures o.IsNone() ==> o.OrElse(g) == g()
    ensures o.OrElse(() => None) == o
    ensures o.OrElse(g).OrElse(h) == o.OrElse(() => g().OrElse(h))
  {
  }

  /** `filter` keeps what its predicate accepts, always-true keeps everything,
      filtering is idempotent and two filters are one filter of the conjunction. */
  lemma FilterLaws<T>(o: Option<T>, p: T -> bool, q: T -> bool)
    ensures Option<T>.None.Filter(p) == None
    ensures o.Filter(x => true) == o
    ensures o.Filter(p).Filter(p) == o.Filter(p)
    ensures o.Filter(p).Filter(q) == o.Filter(x => p(x) && q(x))
  {
  }

  /** `expect` returns exactly what every `unwrap_or` returns on a value. */
  lemma ExpectAgreesWithUnwrapOr<T>(o: Option<T>, msg: string, alt: T)
    requires o.IsSome()
    ensures o.Expect(msg) == Returned(o.UnwrapOr(alt))
  {
  }

  /** `unwrap_or`, `unwrap_or_else` and `unwrap_or_default` agree with each
      other and give the payload on Some and the fallback on None. */
  lemma UnwrapFallbacks<T>(o: Option<T>, alt: T)
    ensures o.UnwrapOr(alt) == (if o.IsSome() then o.value else alt)
    ensures o.UnwrapOrElse(() => alt) == o.UnwrapOr(alt)
    ensures o.UnwrapOrDefault(alt) == o.UnwrapOr(alt)
  {
  }
}
