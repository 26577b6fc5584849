/**
 * The Option class as an object: one general storage cell (`_inner`) and the
 * members of the class that read or change that cell in place. These are the
 * constructors, `take`, `push`, `emplace`, the destructive reads `unwrap` and
 * `expect`, `as_ref`, and the one-shot iterator. The consuming combinators
 * are functions on `Options.Option`; `Match` here shows how the object
 * reaches them. It reads the payload out through the cell's `dump`, which
 * leaves the receiver absent, and then applies the value-level `Match`.
 */
module OptionObjects {
  import opened TypeSupport
  import opened Options
  import opened OptionInner
  import Results

  class OptionObj<T(==)> {
    /** `OptionUnion<T> _inner` */
    const inner: OptionUnion<T>

    ghost predicate Valid()
      reads this, inner, inner.storage
    {
      inner.Valid()
    }

    /** The Option's contents as a value. */
    ghost function Model(): Option<T>
      reads this, inner, inner.storage
      requires Valid()
    {
      inner.Model()
    }

    /** `Option() = default`: None. */
    constructor ()
      ensures Valid() && Model() == None
      ensures inner.constructed == 0 && inner.destroyed == 0
      ensures fresh(inner) && fresh(inner.storage)
    {
      inner := new OptionUnion();
    }

    /** `Option(NothingTag)`: delegates to the default constructor, so it is None too. */
    constructor Nothing()
      ensures Valid() && Model() == None
      ensures inner.constructed == 0 && inner.destroyed == 0
      ensures fresh(inner) && fresh(inner.storage)
    {
      inner := new OptionUnion();
    }

    /** `explicit Option(T x)`, and `some(x)` which calls it. */
    constructor Of(x: T)
      ensures Valid() && Model() == Some(x)
      ensures inner.constructed == 1 && inner.destroyed == 0
      ensures fresh(inner) && fresh(inner.storage)
    {
      inner := new OptionUnion.FromValue(x);
    }

    /** `Option(ForwardArgs, Args&&...)`: the payload is built in place. */
    constructor Forward<A>(construct: A -> T, args: A)
      ensures Valid() && Model() == Some(construct(args))
      ensures inner.constructed == 1 && inner.destroyed == 0
      ensures fresh(inner) && fresh(inner.storage)
    {
      inner := new OptionUnion.Forward(construct, args);
    }

    /** `Option(MakeOptionArgs&&)`: unpacks the tuple `make_some` captured
        and forwards it, so the result is what the value-level `FromMakeSome` gives. */
    constructor FromMakeArgs<A>(makeArgs: MakeOptionArgs<A>, construct: A -> T)
      ensures Valid() && Model() == FromMakeSome(makeArgs, construct)
      ensures inner.constructed == 1 && inner.destroyed == 0
      ensures fresh(inner) && fresh(inner.storage)
    {
      inner := new OptionUnion.Forward(construct, makeArgs.tup);
    }

    /** `explicit Option(OptionUnion<T> mem)`: moves `mem` in. The source
        takes `mem` by value, so an lvalue argument would be copied and left
        intact; the one caller, `some_ref`, passes a temporary, and it is that
        temporary, moved from and left absent, that `mem` stands for here. */
    constructor FromUnion(mem: OptionUnion<T>)
      requires mem.Valid()
      modifies mem, mem.storage
      ensures Valid() && Model() == old(mem.Model())
      ensures inner.constructed == (if old(mem.Model()).IsSome() then 1 else 0) && inner.destroyed == 0
      ensures mem.Valid() && mem.Model() == None
      ensures mem.constructed == old(mem.constructed)
      ensures mem.destroyed == old(mem.destroyed) + (if old(mem.Model()).IsSome() then 1 else 0)
      ensures fresh(inner) && fresh(inner.storage)
    {
      inner := new OptionUnion.MoveFrom(mem);
    }

    /** `Option(const self_t&) = default`: copies the cell. */
    constructor CopyFrom(other: OptionObj<T>)
      requires other.Valid()
      ensures Valid() && Model() == other.Model()
      ensures inner.constructed == (if other.Model().IsSome() then 1 else 0) && inner.destroyed == 0
      ensures fresh(inner) && fresh(inner.storage)
    {
      inner := new OptionUnion.CopyFrom(other.inner);
    }

    /** `Option(self_t&&) = default`: moves the cell, leaving the source None. */
    constructor MoveFrom(other: OptionObj<T>)
      requires other.Valid()
      modifies other.inner, other.inner.storage
      ensures Valid() && Model() == old(other.Model())
      ensures inner.constructed == (if old(other.Model()).IsSome() then 1 else 0) && inner.destroyed == 0
      ensures other.Valid() && other.Model() == None
      ensures other.inner.constructed == old(other.inner.constructed)
      ensures other.inner.destroyed == old(other.inner.destroyed) + (if old(other.Model()).IsSome() then 1 else 0)
      ensures fresh(inner) && fresh(inner.storage)
    {
      inner := new OptionUnion.MoveFrom(other.inner);
    }

    /** `operator=(const self_t&) = default` */
    method CopyAssign(other: OptionObj<T>)
      requires Valid() && other.Valid()
      modifies inner, inner.storage
      ensures Valid() && Model() == other.Model()
      ensures other.inner == inner ==> unchanged(inner, inner.storage)
      ensures other.inner != inner ==>
        && inner.constructed == old(inner.constructed) + (if other.Model().IsSome() then 1 else 0)
        && inner.destroyed == old(inner.destroyed) + (if old(Model()).IsSome() then 1 else 0)
    {
      inner.CopyAssign(other.inner);
    }

    /** `operator=(self_t&&) = default`: the source ends None unless it is the receiver. */
    method MoveAssign(other: OptionObj<T>)
      requires Valid() && other.Valid()
      modifies inner, inner.storage, other.inner, other.inner.storage
      ensures Valid() && other.Valid()
      ensures other.inner == inner ==> unchanged(inner, inner.storage)
      ensures other.inner != inner ==>
        && Model() == old(other.Model())
        && other.Model() == None
        && inner.constructed == old(inner.constructed) + (if old(other.Model()).IsSome() then 1 else 0)
        && inner.destroyed == old(inner.destroyed) + (if old(Model()).IsSome() then 1 else 0)
        && other.inner.constructed == old(other.inner.constructed)
        && other.inner.destroyed == old(other.inner.destroyed) + (if old(other.Model()).IsSome() then 1 else 0)
    {
      inner.MoveAssign(other.inner);
    }

    /** `clone() const`: a copy equal to the receiver. */
    method Clone() returns (c: OptionObj<T>)
      requires Valid()
      ensures fresh(c) && fresh(c.inner) && fresh(c.inner.storage)
      ensures c.Valid() && c.Model() == Model()
      ensures c.inner.constructed == (if Model().IsSome() then 1 else 0) && c.inner.destroyed == 0
    {
      c := new OptionObj.CopyFrom(this);
    }

    /** `~Option() = default`: destroys the cell, after which every payload
        ever built in it has been destroyed exactly once. */
    method Destruct()
      requires Valid()
      modifies inner, inner.storage
      ensures Valid() && Model() == None
      ensures inner.constructed == old(inner.constructed)
      ensures inner.destroyed == old(inner.destroyed) + (if old(Model()).IsSome() then 1 else 0)
      ensures inner.destroyed == inner.constructed
    {
      inner.Destruct();
    }

    /** `is_some()` */
    function IsSome(): (b: bool)
      reads this, inner, inner.storage
      requires Valid()
      ensures b <==> Model().IsSome()
    {
      inner.IsSome()
    }

    /** `is_none()` */
    function IsNone(): (b: bool)
      reads this, inner, inner.storage
      requires Valid()
      ensures b <==> Model().IsNone()
    {
      !IsSome()
    }

    /** `explicit operator bool()` */
    function ToBool(): (b: bool)
      reads this, inner, inner.storage
      requires Valid()
      ensures b <==> Model().IsSome()
    {
      IsSome()
    }

    /** `as_ptr()`: the address of the payload, null for None. */
    function AsPtr(): (p: Box?<T>)
      reads this, inner, inner.storage
      requires Valid()
      ensures p != null <==> Model().IsSome()
      ensures p != null ==> p.slot == Live(Model().value)
    {
      inner.AsPtr()
    }

    /** `operator==`: the cell equality. */
    function Equals(other: OptionObj<T>): (r: bool)
      reads this, inner, inner.storage, other, other.inner, other.inner.storage
      requires Valid() && other.Valid()
      ensures r <==> Model() == other.Model()
    {
      inner.Equals(other.inner)
    }

    /** `operator!=` */
    function NotEquals(other: OptionObj<T>): (r: bool)
      reads this, inner, inner.storage, other, other.inner, other.inner.storage
      requires Valid() && other.Valid()
      ensures r <==> Model() != other.Model()
    {
      !Equals(other)
    }

    /** `as_ref()`: an `Option<T&>` (a reference-shape cell). It is present
        exactly when the receiver is, it refers to the receiver's own payload,
        and the receiver is left as it was. */
    method AsRef() returns (r: OptionUnionRef<T>)
      requires Valid()
      ensures fresh(r)
      ensures r.IsSome() <==> IsSome()
      ensures r.ptr != null ==> r.ptr == inner.storage && r.ptr.slot == Live(Model().value)
    {
      if IsSome() {
        r := new OptionUnionRef.Of(inner.storage);
      } else {
        r := new OptionUnionRef();
      }
    }

    /** `take()`: returns the former contents, read out with `unwrap`, and leaves the receiver None. */
    method Take() returns (r: OptionObj<T>)
      requires Valid()
      modifies inner, inner.storage
      ensures fresh(r) && fresh(r.inner) && fresh(r.inner.storage)
      ensures r.Valid() && r.Model() == old(Model())
      ensures r.inner.constructed == (if old(Model()).IsSome() then 1 else 0) && r.inner.destroyed == 0
      ensures Valid() && Model() == None
      ensures inner.constructed == old(inner.constructed)
      ensures inner.destroyed == old(inner.destroyed) + (if old(Model()).IsSome() then 1 else 0)
    {
      if IsSome() {
        var v := Unwrap();
        r := new OptionObj.Of(v);
      } else {
        r := new OptionObj();
      }
    }

    /** `emplace(args...)`: builds a new payload in place after erasing the old one. */
    method Emplace(val: T)
      requires Valid()
      modifies inner, inner.storage
      ensures Valid() && Model() == Some(val)
      ensures inner.constructed == old(inner.constructed) + 1
      ensures inner.destroyed == old(inner.destroyed) + (if old(Model()).IsSome() then 1 else 0)
    {
      inner.Emplace(val);
    }

    /** `push(obj)`: `emplace` with the object itself. */
    method Push(obj: T)
      requires Valid()
      modifies inner, inner.storage
      ensures Valid() && Model() == Some(obj)
      ensures inner.constructed == old(inner.constructed) + 1
      ensures inner.destroyed == old(inner.destroyed) + (if old(Model()).IsSome() then 1 else 0)
    {
      Emplace(obj);
    }

    /** `unwrap()`: moves the payload out of the cell, which the cell's `dump`
        does, so the receiver is None afterwards. Undefined on None, so only Some may call it. */
    method Unwrap() returns (v: T)
      requires Valid() && Model().IsSome()
      modifies inner, inner.storage
      ensures v == old(Model()).Unwrap()
      ensures Valid() && Model() == None
      ensures inner.constructed == old(inner.constructed)
      ensures inner.destroyed == old(inner.destroyed) + (if old(Model()).IsSome() then 1 else 0)
    {
      v := inner.Dump();
    }

    /** `expect(err_msg)`: `unwrap` on Some, a `runtime_error(err_msg)` on None. */
    method Expect(errMsg: string) returns (r: Outcome<T>)
      requires Valid()
      modifies inner, inner.storage
      ensures r == old(Model()).Expect(errMsg)
      ensures Valid() && Model() == None
      ensures inner.constructed == old(inner.constructed)
      ensures inner.destroyed == old(inner.destroyed) + (if old(Model()).IsSome() then 1 else 0)
    {
      if IsSome() {
        var v := Unwrap();
        r := Returned(v);
      } else {
        r := Threw(RuntimeError(errMsg));
      }
    }

    /** `unwrap_or(alt)` */
    method UnwrapOr(alt: T) returns (v: T)
      requires Valid()
      modifies inner, inner.storage
      ensures v == old(Model()).UnwrapOr(alt)
      ensures Valid() && Model() == None
      ensures inner.constructed == old(inner.constructed)
      ensures inner.destroyed == old(inner.destroyed) + (if old(Model()).IsSome() then 1 else 0)
    {
      if IsSome() {
        v := Unwrap();
      } else {
        v := alt;
      }
    }

    /** `unwrap_or_else(alt_func)`: the alternative is computed only on None. */
    method UnwrapOrElse(altFunc: () -> T) returns (v: T)
      requires Valid()
      modifies inner, inner.storage
      ensures v == old(Model()).UnwrapOrElse(altFunc)
      ensures Valid() && Model() == None
      ensures inner.constructed == old(inner.constructed)
      ensures inner.destroyed == old(inner.destroyed) + (if old(Model()).IsSome() then 1 else 0)
    {
      if IsSome() {
        v := Unwrap();
      } else {
        v := altFunc();
      }
    }

    /** `match(func_some, func_none) &&`: unwraps on Some, then dispatches. */
    method Match<R>(funcSome: T -> R, funcNone: () -> R) returns (r: R)
      requires Valid()
      modifies inner, inner.storage
      ensures r == old(Model()).Match(funcSome, funcNone)
      ensures Valid() && Model() == None
      ensures inner.constructed == old(inner.constructed)
      ensures inner.destroyed == old(inner.destroyed) + (if old(Model()).IsSome() then 1 else 0)
    {
      if IsSome() {
        var v := Unwrap();
        r := funcSome(v);
      } else {
        r := funcNone();
      }
    }

    /** `ok_or(err) &&`: `make_ok(unwrap())` on Some, `err(err)` on None. */
    method OkOr<E>(err: E) returns (r: Results.Result<T, E>)
      requires Valid()
      modifies inner, inner.storage
      ensures r == Results.OkOr(old(Model()), err)
      ensures Valid() && Model() == None
      ensures inner.constructed == old(inner.constructed)
      ensures inner.destroyed == old(inner.destroyed) + (if old(Model()).IsSome() then 1 else 0)
    {
      if IsSome() {
        var v := Unwrap();
        r := Results.Ok(v);
      } else {
        r := Results.Err(err);
      }
    }

    /** `begin()`: an iterator at the payload's address, or at null for None. */
    method Begin() returns (it: Iter<T>)
      requires Valid()
      ensures fresh(it)
      ensures it.ptr == AsPtr()
    {
      it := new Iter(AsPtr());
    }

    /** `end()`: the null iterator. */
    method End() returns (it: Iter<T>)
      ensures fresh(it) && it.ptr == null
    {
      it := new Iter.Null();
    }

    /** A range-for over the Option: visits the payload once for Some and
        nothing for None, and changes no state. */
    method Elements() returns (xs: seq<T>)
      requires Valid()
      ensures xs == (if Model().IsSome() then [Model().value] else [])
    {
      var it := Begin();
      var e := End();
      xs := [];
      while !it.Equals(e)
        invariant e.ptr == null
        invariant it.ptr == null || it.ptr == inner.storage
        invariant it.ptr != null ==> Model().IsSome() && xs == []
        invariant it.ptr == null ==> xs == (if Model().IsSome() then [Model().value] else [])
        decreases if it.ptr == null then 0 else 1
      {
        xs := xs + [it.Deref()];
        it.Next();
      }
    }
  }

  /** `Option<T>::Iter`: a pointer that is either at the payload or null. */
  class Iter<T> {
    /** `_ptr` */
    var ptr: Box?<T>

    /** `explicit Iter(value_t* ptr)` */
    constructor (p: Box?<T>)
      ensures ptr == p
    {
      ptr := p;
    }

    /** `Iter() = default`: the null (end) iterator. */
    constructor Null()
      ensures ptr == null
    {
      ptr := null;
    }

    /** `operator*`: the payload the iterator points at. */
    function Deref(): (v: T)
      reads this, ptr
      requires ptr != null && ptr.slot.Live?
      ensures ptr.slot == Live(v)
    {
      ptr.slot.v
    }

    /** `operator++`: moves past the single element by nulling the pointer;
        on the end iterator it changes nothing. */
    method Next()
      modifies this
      ensures ptr == null
      ensures old(ptr) == null ==> unchanged(this)
    {
      if ptr != null {
        ptr := null;
      }
    }

    /** `operator==`: compares the pointers. */
    function Equals(other: Iter<T>): (r: bool)
      reads this, other
      ensures r <==> ptr == other.ptr
    {
      ptr == other.ptr
    }

    /** `operator!=` */
    function NotEquals(other: Iter<T>): (r: bool)
      reads this, other
      ensures r <==> ptr != other.ptr
    {
      !Equals(other)
    }
  }

  /** The source's `destroy_once` test: unwrapping a temporary built from
      `make_some(args)` and then letting the temporary die destroys its one
      payload exactly once, and the unwrapped value is the one built. */
  method DestroyOnce<A, T(==)>(construct: A -> T, args: A) returns (x: OptionObj<T>, y: T)
    ensures y == construct(args)
    ensures x.Valid() && x.Model() == None
    ensures x.inner.constructed == 1 && x.inner.destroyed == 1
  {
    x := new OptionObj.FromMakeArgs(MakeOptionArgs(args), construct);
    y := x.Unwrap();
    x.Destruct();
  }

  /** The source's `destruct_after_move_construct` test: moving out of an
      Option destroys the source's payload, and the new Option holds it. */
  method DestructAfterMoveConstruct<A, T(==)>(construct: A -> T, args: A) returns (x: OptionObj<T>, y: OptionObj<T>)
    ensures x.Valid() && x.inner.destroyed == 1
    ensures y.Valid() && y.Model() == Some(construct(args))
    ensures y.inner.constructed == 1 && y.inner.destroyed == 0
  {
    x := new OptionObj.Forward(construct, args);
    y := new OptionObj.MoveFrom(x);
    x.Destruct();
  }

  /** The source's `destruct_after_move_assign` test: move-assigning into a
      None Option destroys the source's payload, and the target holds it. */
  method DestructAfterMoveAssign<A, T(==)>(construct: A -> T, args: A) returns (x: OptionObj<T>, y: OptionObj<T>)
    ensures x.Valid() && x.inner.destroyed == 1
    ensures y.Valid() && y.Model() == Some(construct(args))
    ensures y.inner.constructed == 1 && y.inner.destroyed == 0
  {
    y := new OptionObj();
    x := new OptionObj.Forward(construct, args);
    y.MoveAssign(x);
    x.Destruct();
  }

  /** The source's `destruct_after_unwrap` test: unwrap destroys the payload left in the cell. */
  method DestructAfterUnwrap<A, T(==)>(construct: A -> T, args: A) returns (x: OptionObj<T>, v: T)
    ensures v == construct(args)
    ensures x.Valid() && x.Model() == None
    ensures x.inner.constructed == 1 && x.inner.destroyed == 1
  {
    x := new OptionObj.Forward(construct, args);
    v := x.Unwrap();
  }

  /** The source's `destruct_after_take` test: take destroys the payload left
      in the receiver; the taken Option holds a fresh copy of it. */
  method DestructAfterTake<A, T(==)>(construct: A -> T, args: A) returns (x: OptionObj<T>, taken: OptionObj<T>)
    ensures x.Valid() && x.Model() == None
    ensures x.inner.constructed == 1 && x.inner.destroyed == 1
    ensures taken.Valid() && taken.Model() == Some(construct(args))
  {
    x := new OptionObj.Forward(construct, args);
    taken := x.Take();
  }

  /** The source's `take` test: take from Some(5) yields Some(5) and leaves None. */
  method TakeFromSome() returns (taken: OptionObj<int>, x: OptionObj<int>)
    ensures taken.Valid() && taken.Model() == Some(5)
    ensures x.Valid() && x.Model() == None
  {
    x := new OptionObj.Of(5);
    taken := x.Take();
  }

  /** The source's `as_ref` test reads 5 through the reference of Some(5);
      the write of 6 through the same reference is an added check that the
      reference aliases the receiver's own payload. */
  method AsRefAliases() returns (x: OptionObj<int>, read: int)
    ensures read == 5
    ensures x.Valid() && x.Model() == Some(6)
  {
    x := new OptionObj.Of(5);
    var xRef := x.AsRef();
    var p := xRef.Dump();
    read := p.slot.v;
    p.slot := Live(6);
  }
}
