/**
 * Type support shared by both sum types: the Unit value, the memory
 * location a payload is built in, the Sized wrappers a union member is made
 * of, and the Unvoid adapter that lets a callback declared to return
 * nothing be used as if it returned Unit.
 */
module TypeSupport {

  /** The zero-information value standing in for "no value produced". */
  datatype Unit = Unit

  /** `Unit::operator==`: any two Unit values are equal. */
  function UnitEq(a: Unit, b: Unit): (r: bool)
    ensures r
  {
    true
  }

  /** `Unit::operator!=`: never true. */
  function UnitNe(a: Unit, b: Unit): (r: bool)
    ensures !r
  {
    false
  }

  /** The library's equality on Unit agrees with equality of values: Unit has one value. */
  lemma UnitEqIsEquality(a: Unit, b: Unit)
    ensures UnitEq(a, b) <==> a == b
    ensures UnitNe(a, b) <==> a != b
  {
  }

  // ---------------------------------------------------------------------------
  // Memory

  /** What a piece of payload storage holds: the inert placeholder of a union
      (`Unit _empty`), or a live, constructed T. */
  datatype Slot<T> = Placeholder | Live(v: T)

  /** A memory location able to hold one T: the storage of a union member, or
      an ordinary variable that a reference points at. `owner` is the object
      whose member this storage is (null for a free-standing variable); it is
      what keeps the storage of two distinct cells apart. */
  class Box<T> {
    var slot: Slot<T>
    ghost var owner: object?

    /** Raw storage for a union member, holding the placeholder. */
    constructor Placeholder()
      ensures slot == Slot.Placeholder && owner == null
    {
      slot := Slot.Placeholder;
      owner := null;
    }

    /** A free-standing variable initialised to `v`. */
    constructor Variable(v: T)
      ensures slot == Live(v) && owner == null
    {
      slot := Live(v);
      owner := null;
    }
  }

  // ---------------------------------------------------------------------------
  // Sized<T> and Sized<T&>

  /** `Sized<T>`: a union member that stores its T by value. */
  datatype Sized<T> = Sized(stored: T) {
    /** `val()`: the stored payload. */
    function Val(): (v: T)
      ensures Sized(v) == this
    {
      stored
    }

    /** `unwrap() &&`: moves the stored value out. */
    function Unwrap(): (v: T)
      ensures v == Val()
    {
      stored
    }
  }

  /** `Sized<T&>`: a union member that stores a reference. */
  datatype SizedRef<T> = SizedRef(referent: Box<T>) {
    /** `val()`: the referent, read through the reference. */
    function Val(): (v: T)
      reads referent
      requires referent.slot.Live?
      ensures referent.slot == Live(v)
    {
      referent.slot.v
    }

    /** `unwrap() &&`: the reference itself, so the caller aliases the referent. */
    function Unwrap(): (r: Box<T>)
      ensures SizedRef(r) == this
    {
      referent
    }
  }

  /** Unwrapping a reference member and reading through it yields what `val()` yields. */
  lemma SizedRefUnwrapAliasesReferent<T>(s: SizedRef<T>)
    requires s.referent.slot.Live?
    ensures s.Unwrap() == s.referent
    ensures s.Unwrap().slot == Live(s.Val())
  {
  }

  // ---------------------------------------------------------------------------
  // Unvoid

  /** The result type a callable declares, as the Unvoid trait sees it. */
  datatype ReturnType = VoidType | UnitType | ValueType(name: string)

  /** `Unvoid<R>::Output`: void becomes Unit, every other type is itself. */
  function Unvoid(r: ReturnType): (out: ReturnType)
    ensures out != VoidType
    ensures r != VoidType ==> out == r
  {
    match r
    case VoidType => UnitType
    case _ => r
  }

  /** The adapter's output type is never void, is the declared type whenever
      that is not void, and adapting twice changes nothing more. */
  lemma UnvoidOutput(r: ReturnType)
    ensures Unvoid(r) != VoidType
    ensures r == VoidType ==> Unvoid(r) == UnitType
    ensures r != VoidType ==> Unvoid(r) == r
    ensures Unvoid(Unvoid(r)) == Unvoid(r)
  {
  }

  /** `UnvoidedFunc<true, F, Args...>`: a callable declared to return nothing
      is run once for its effect `f` on the world `w`, and Unit is returned. */
  function UnvoidCallVoid<W, A>(f: (W, A) -> W, w: W, a: A): (r: (Unit, W))
    ensures r.0 == Unit
    ensures r.1 == f(w, a)
  {
    (Unit, f(w, a))
  }

  /** `UnvoidedFunc<false, F, Args...>`: a value-returning callable is run
      once and its value is returned unchanged. */
  function UnvoidCallValue<W, A, R>(f: (W, A) -> (R, W), w: W, a: A): (r: (R, W))
    ensures r == f(w, a)
  {
    f(w, a)
  }

  /** A void callback that records each of its invocations in a trace: after
      the adapter the trace holds exactly one more entry, and Unit comes back. */
  lemma UnvoidCallVoidRunsOnce<A>(trace: seq<A>, a: A)
    ensures UnvoidCallVoid((t: seq<A>, x: A) => t + [x], trace, a) == (Unit, trace + [a])
  {
  }
}
