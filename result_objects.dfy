/**
 * The Result class as an object: an anonymous `enum { Ok, Err }` tag in
 * front of a union of the two payload members, built in place and
 * destroyed explicitly. Two ghost counters record member objects built in
 * the union and destructor calls on it. For a live Result they differ by
 * exactly one, so when it dies every member object has been destroyed
 * exactly once.
 *
 * `dump_ok` and `dump_err` move the payload out. As written, they then run
 * the member's destructor but keep the tag, and the Result's own destructor
 * later runs that same destructor a second time. `DumpOkAsWritten` and
 * `DumpErrAsWritten` model that code, and `UnwrapTemporaryAsWritten`
 * exhibits the double destruction. `DumpOk` and `DumpErr` model the evident
 * intent: the moved-from member stays in place until the Result's
 * destructor. Every other member that moves a payload out (the move
 * constructor and move assignment, `unwrap`, `unwrap_err`, `unwrap_or`,
 * `ok`, `err`, `match`) is built on these corrected versions, so it states
 * the intended state and counts rather than those of the code as written.
 */
module ResultObjects {
  import opened TypeSupport
  import opened Options
  import opened Results

  /** The tag `_variant`. */
  datatype Side = OkSide | ErrSide

  /** What the union currently holds: a live Ok or Err member with its
      payload, a live member whose payload was moved out, or no live member
      at all (its destructor has run). */
  datatype Member<T, E> = OkMember(ok: T) | ErrMember(err: E) | MovedFrom | Dead

  class ResultObj<T(==), E(==)> {
    var variant: Side
    var member: Member<T, E>
    /** The Result's own destructor has not yet run. */
    ghost var alive: bool
    /** Member objects built in the union so far. */
    ghost var constructed: nat
    /** Member destructor calls on the union so far. */
    ghost var destroyed: nat

    /** A live Result with one live member, which is not on the wrong side. */
    ghost predicate Live()
      reads this
    {
      && alive
      && member != Dead
      && constructed == destroyed + 1
      && (member.OkMember? ==> variant == OkSide)
      && (member.ErrMember? ==> variant == ErrSide)
    }

    /** A usable Result: live, and its member holds the payload of the side the tag names. */
    ghost predicate Valid()
      reads this
    {
      Live() && member != MovedFrom
    }

    /** The state a payload move leaves behind: only the destructor or an
        assignment may follow. */
    ghost predicate MovedOut()
      reads this
    {
      Live() && member == MovedFrom
    }

    /** The Result's contents as a value. */
    ghost function Model(): Result<T, E>
      reads this
      requires Valid()
    {
      match member
      case OkMember(v) => Ok(v)
      case ErrMember(e) => Err(e)
    }

    /** `Result(OkTag, ForwardArgs, Args&&...)`: a temporary built from the
        arguments is moved into the Ok member. */
    constructor OkForward<A>(construct: A -> T, args: A)
      ensures Valid() && Model() == Ok(construct(args))
      ensures constructed == 1 && destroyed == 0
    {
      variant, member := OkSide, OkMember(construct(args));
      alive, constructed, destroyed := true, 1, 0;
    }

    /** `Result(ErrTag, ForwardArgs, Args&&...)`: a temporary built from the
        arguments is moved into the Err member. */
    constructor ErrForward<A>(construct: A -> E, args: A)
      ensures Valid() && Model() == Err(construct(args))
      ensures constructed == 1 && destroyed == 0
    {
      variant, member := ErrSide, ErrMember(construct(args));
      alive, constructed, destroyed := true, 1, 0;
    }

    /** `Result(MakeOkResult<T>)`: the conversion `ok(v)` relies on. */
    constructor FromMakeOk(helper: MakeOkResult<T>)
      ensures Valid() && Model() == Results.FromMakeOk(helper)
      ensures constructed == 1 && destroyed == 0
    {
      variant, member := OkSide, OkMember(helper.val);
      alive, constructed, destroyed := true, 1, 0;
    }

    /** `Result(MakeErrResult<E>)`: the conversion `err(e)` relies on. */
    constructor FromMakeErr(helper: MakeErrResult<E>)
      ensures Valid() && Model() == Results.FromMakeErr(helper)
      ensures constructed == 1 && destroyed == 0
    {
      variant, member := ErrSide, ErrMember(helper.val);
      alive, constructed, destroyed := true, 1, 0;
    }

    /** `Result(MakeResultArgs<Tag, Args...>&&)`: the tag chooses the side,
        and the captured arguments build that side's payload through the
        forwarding constructor. */
    constructor FromMakeArgs<A>(makeArgs: MakeResultArgs<A>, makeOk: A -> T, makeErr: A -> E)
      ensures Valid() && Model() == Results.FromMakeArgs(makeArgs, makeOk, makeErr)
      ensures constructed == 1 && destroyed == 0
    {
      if makeArgs.tag == OkTag {
        variant, member := OkSide, OkMember(makeOk(makeArgs.tup));
      } else {
        variant, member := ErrSide, ErrMember(makeErr(makeArgs.tup));
      }
      alive, constructed, destroyed := true, 1, 0;
    }

    /** `Result(const self_t&)`: same tag, member copy-built from the source's. */
    constructor CopyFrom(other: ResultObj<T, E>)
      requires other.Valid()
      ensures Valid() && Model() == other.Model()
      ensures constructed == 1 && destroyed == 0
    {
      variant, member := other.variant, other.member;
      alive, constructed, destroyed := true, 1, 0;
    }

    /** `Result(self_t&&)`: same tag, member built from `other.dump_ok()` or
        `other.dump_err()`, leaving the source moved out. */
    constructor MoveFrom(other: ResultObj<T, E>)
      requires other.Valid()
      modifies other
      ensures Valid() && Model() == old(other.Model())
      ensures constructed == 1 && destroyed == 0
      ensures other.MovedOut() && other.variant == old(other.variant)
      ensures other.constructed == old(other.constructed) && other.destroyed == old(other.destroyed)
    {
      variant := other.variant;
      member := Dead;
      alive, constructed, destroyed := false, 0, 0;
      new;
      BuildMoved(other);
    }

    /** Placement `new (this) self_t(std::move(other))` on storage whose Result is dead. */
    method BuildMoved(other: ResultObj<T, E>)
      requires !alive && member == Dead && constructed == destroyed
      requires other.Valid() && other != this
      modifies this, other
      ensures Valid() && Model() == old(other.Model())
      ensures constructed == old(constructed) + 1 && destroyed == old(destroyed)
      ensures other.MovedOut() && other.variant == old(other.variant)
      ensures other.constructed == old(other.constructed) && other.destroyed == old(other.destroyed)
    {
      if other.variant == OkSide {
        var v := other.DumpOk();
        variant, member := OkSide, OkMember(v);
      } else {
        var e := other.DumpErr();
        variant, member := ErrSide, ErrMember(e);
      }
      alive, constructed := true, constructed + 1;
    }

    /** Placement `new (this) self_t(other)` on storage whose Result is dead. */
    method BuildCopied(other: ResultObj<T, E>)
      requires !alive && member == Dead && constructed == destroyed
      requires other.Valid() && other != this
      modifies this
      ensures Valid() && Model() == other.Model()
      ensures constructed == old(constructed) + 1 && destroyed == old(destroyed)
    {
      variant, member := other.variant, other.member;
      alive, constructed := true, constructed + 1;
    }

    /** `~Result()`: runs the destructor of the member the tag names, once.
        Starting from a live Result, that leaves every member object built
        here destroyed exactly once. */
    method Destruct()
      requires alive
      modifies this
      ensures !alive && member == Dead && variant == old(variant)
      ensures constructed == old(constructed) && destroyed == old(destroyed) + 1
      ensures old(Live()) ==> destroyed == constructed
    {
      member := Dead;
      destroyed := destroyed + 1;
      alive := false;
    }

    /** `dump_ok()` with the evident intent: moves the Ok payload out and
        leaves the moved-from member for the destructor. Undefined on Err. */
    method DumpOk() returns (v: T)
      requires Valid() && variant == OkSide
      modifies this
      ensures old(Model()) == Ok(v)
      ensures MovedOut() && variant == old(variant)
      ensures constructed == old(constructed) && destroyed == old(destroyed)
    {
      v := member.ok;
      member := MovedFrom;
    }

    /** `dump_err()` with the evident intent, the mirror image of `DumpOk`. */
    method DumpErr() returns (e: E)
      requires Valid() && variant == ErrSide
      modifies this
      ensures old(Model()) == Err(e)
      ensures MovedOut() && variant == old(variant)
      ensures constructed == old(constructed) && destroyed == old(destroyed)
    {
      e := member.err;
      member := MovedFrom;
    }

    /** `dump_ok()` as written: it moves the payload out and destroys the Ok
        member, but the tag still says Ok, so the later destructor call
        destroys the member again. */
    method DumpOkAsWritten() returns (v: T)
      requires Valid() && variant == OkSide
      modifies this
      ensures old(Model()) == Ok(v)
      ensures alive && member == Dead && variant == OkSide
      ensures constructed == old(constructed) && destroyed == old(destroyed) + 1
      ensures destroyed == constructed
    {
      v := member.ok;
      member := Dead;
      destroyed := destroyed + 1;
    }

    /** `dump_err()` as written, the mirror image of `DumpOkAsWritten`. */
    method DumpErrAsWritten() returns (e: E)
      requires Valid() && variant == ErrSide
      modifies this
      ensures old(Model()) == Err(e)
      ensures alive && member == Dead && variant == ErrSide
      ensures constructed == old(constructed) && destroyed == old(destroyed) + 1
      ensures destroyed == constructed
    {
      e := member.err;
      member := Dead;
      destroyed := destroyed + 1;
    }

    /** `operator=(self_t&&)`: unless the source is the receiver, runs the
        receiver's destructor, then move-builds it again from the source's payload. */
    method MoveAssign(other: ResultObj<T, E>)
      requires Live() && other.Valid()
      modifies this, other
      ensures other == this ==> unchanged(this)
      ensures other != this ==>
        && Valid() && Model() == old(other.Model())
        && constructed == old(constructed) + 1 && destroyed == old(destroyed) + 1
        && other.MovedOut() && other.variant == old(other.variant)
        && other.constructed == old(other.constructed) && other.destroyed == old(other.destroyed)
    {
      if this != other {
        Destruct();
        BuildMoved(other);
      }
    }

    /** `operator=(const self_t&)`: unless the source is the receiver, runs
        the receiver's destructor, then copy-builds it again from the source. */
    method CopyAssign(other: ResultObj<T, E>)
      requires Live() && other.Valid()
      modifies this
      ensures other == this ==> unchanged(this)
      ensures other != this ==>
        && Valid() && Model() == other.Model()
        && constructed == old(constructed) + 1 && destroyed == old(destroyed) + 1
    {
      if this != other {
        Destruct();
        BuildCopied(other);
      }
    }

    /** `clone() const` */
    method Clone() returns (c: ResultObj<T, E>)
      requires Valid()
      ensures fresh(c) && c.Valid() && c.Model() == Model()
      ensures c.constructed == 1 && c.destroyed == 0
    {
      c := new ResultObj.CopyFrom(this);
    }

    /** `is_ok()` */
    function IsOk(): (b: bool)
      reads this
      requires Valid()
      ensures b <==> Model().IsOk()
    {
      variant == OkSide
    }

    /** `is_err()`: the negation of `is_ok()`. */
    function IsErr(): (b: bool)
      reads this
      requires Valid()
      ensures b <==> Model().IsErr()
    {
      !IsOk()
    }

    /** `as_ptr()`: the address of the Ok payload, null on Err. The payload
        lives inside the Result, so the object stands for that address. */
    function AsPtr(): (p: ResultObj?<T, E>)
      reads this
      requires Valid()
      ensures p != null <==> Model().IsOk()
      ensures p != null ==> p == this
    {
      if IsOk() then this else null
    }

    /** `as_err_ptr()`: the address of the Err payload, null on Ok. */
    function AsErrPtr(): (p: ResultObj?<T, E>)
      reads this
      requires Valid()
      ensures p != null <==> Model().IsErr()
      ensures p != null ==> p == this
    {
      if IsErr() then this else null
    }

    /** `operator==(const self_t&)`: same side and equal payloads. */
    function Equals(other: ResultObj<T, E>): (r: bool)
      reads this, other
      requires Valid() && other.Valid()
      ensures r <==> Model() == other.Model()
    {
      if IsOk() then (if other.IsOk() then member.ok == other.member.ok else false)
      else (if other.IsErr() then member.err == other.member.err else false)
    }

    /** `operator!=(const self_t&)` */
    function NotEquals(other: ResultObj<T, E>): (r: bool)
      reads this, other
      requires Valid() && other.Valid()
      ensures r <==> Results.Ne(Model(), other.Model())
    {
      !Equals(other)
    }

    /** `operator==(const MakeOkResult<T>&)`: Ok, with the helper's payload. */
    function EqualsOk(helper: MakeOkResult<T>): (r: bool)
      reads this
      requires Valid()
      ensures r <==> Model() == Ok(helper.val)
    {
      if IsOk() then member.ok == helper.val else false
    }

    /** `operator==(const MakeErrResult<E>&)`: Err, with the helper's payload. */
    function EqualsErr(helper: MakeErrResult<E>): (r: bool)
      reads this
      requires Valid()
      ensures r <==> Model() == Err(helper.val)
    {
      if IsOk() then false else member.err == helper.val
    }

    /** `unwrap() &&`: `dump_ok()`. Undefined on Err, so only Ok may call it. */
    method Unwrap() returns (v: T)
      requires Valid() && Model().IsOk()
      modifies this
      ensures v == old(Model()).Unwrap()
      ensures MovedOut() && constructed == old(constructed) && destroyed == old(destroyed)
    {
      v := DumpOk();
    }

    /** `unwrap_err() &&`: `dump_err()`. Undefined on Ok, so only Err may call it. */
    method UnwrapErr() returns (e: E)
      requires Valid() && Model().IsErr()
      modifies this
      ensures e == old(Model()).UnwrapErr()
      ensures MovedOut() && constructed == old(constructed) && destroyed == old(destroyed)
    {
      e := DumpErr();
    }

    /** `unwrap_or(alt) &&`: only an Ok receiver gives its payload up. */
    method UnwrapOr(alt: T) returns (v: T)
      requires Valid()
      modifies this
      ensures v == old(Model()).UnwrapOr(alt)
      ensures old(Model()).IsOk() ==> MovedOut()
      ensures old(Model()).IsErr() ==> unchanged(this)
      ensures constructed == old(constructed) && destroyed == old(destroyed)
    {
      if IsOk() {
        v := DumpOk();
      } else {
        v := alt;
      }
    }

    /** `ok() &&`: `some(dump_ok())` on Ok, None on Err. */
    method OkOpt() returns (r: Option<T>)
      requires Valid()
      modifies this
      ensures r == old(Model()).OkOption()
      ensures old(Model()).IsOk() ==> MovedOut()
      ensures old(Model()).IsErr() ==> unchanged(this)
      ensures constructed == old(constructed) && destroyed == old(destroyed)
    {
      if IsOk() {
        var v := DumpOk();
        r := Some(v);
      } else {
        r := None;
      }
    }

    /** `err() &&`: `some(dump_err())` on Err, None on Ok. */
    method ErrOpt() returns (r: Option<E>)
      requires Valid()
      modifies this
      ensures r == old(Model()).ErrOption()
      ensures old(Model()).IsErr() ==> MovedOut()
      ensures old(Model()).IsOk() ==> unchanged(this)
      ensures constructed == old(constructed) && destroyed == old(destroyed)
    {
      if IsErr() {
        var e := DumpErr();
        r := Some(e);
      } else {
        r := None;
      }
    }

    /** `match(func_ok, func_err) &&`: dumps whichever side is active and
        hands its payload to that side's handler. */
    method Match<R>(funcOk: T -> R, funcErr: E -> R) returns (r: R)
      requires Valid()
      modifies this
      ensures r == old(Model()).Match(funcOk, funcErr)
      ensures MovedOut() && variant == old(variant)
      ensures constructed == old(constructed) && destroyed == old(destroyed)
    {
      if IsOk() {
        var v := DumpOk();
        r := funcOk(v);
      } else {
        var e := DumpErr();
        r := funcErr(e);
      }
    }
  }

  /** The source's `destroy_once` test with `dump_ok` as written: a temporary
      `Result(make_ok(x))` is unwrapped and then dies, and its Ok member is
      destroyed twice. */
  method UnwrapTemporaryAsWritten<T(==), E(==)>(x: T) returns (v: T, r: ResultObj<T, E>)
    ensures v == x
    ensures !r.alive && r.constructed == 1 && r.destroyed == 2
  {
    r := new ResultObj.FromMakeOk(MakeOkResult(x));
    v := r.DumpOkAsWritten();
    r.Destruct();
  }

  /** The same with `dump_err` as written (the `destroy_err_once` test). */
  method UnwrapErrTemporaryAsWritten<T(==), E(==)>(x: E) returns (e: E, r: ResultObj<T, E>)
    ensures e == x
    ensures !r.alive && r.constructed == 1 && r.destroyed == 2
  {
    r := new ResultObj.FromMakeErr(MakeErrResult(x));
    e := r.DumpErrAsWritten();
    r.Destruct();
  }

  /** The `destroy_once` test on the corrected `unwrap`: the payload comes
      back and, once the temporary dies, its one member was destroyed exactly once. */
  method UnwrapTemporary<T(==), E(==)>(x: T) returns (v: T, r: ResultObj<T, E>)
    ensures v == x
    ensures !r.alive && r.constructed == 1 && r.destroyed == 1
  {
    r := new ResultObj.FromMakeOk(MakeOkResult(x));
    v := r.Unwrap();
    r.Destruct();
  }

  /** The `destroy_err_once` test on the corrected `unwrap_err`. */
  method UnwrapErrTemporary<T(==), E(==)>(x: E) returns (e: E, r: ResultObj<T, E>)
    ensures e == x
    ensures !r.alive && r.constructed == 1 && r.destroyed == 1
  {
    r := new ResultObj.FromMakeErr(MakeErrResult(x));
    e := r.UnwrapErr();
    r.Destruct();
  }

  /** A move followed by the death of both Results, as happens when a Result
      is returned by value: each side's member is destroyed exactly once. */
  method MoveThenDestroyBoth<T(==), E(==)>(src: ResultObj<T, E>) returns (dst: ResultObj<T, E>)
    requires src.Valid() && src.constructed == 1 && src.destroyed == 0
    modifies src
    ensures !src.alive && src.destroyed == src.constructed
    ensures !dst.alive && dst.destroyed == dst.constructed
  {
    dst := new ResultObj.MoveFrom(src);
    src.Destruct();
    dst.Destruct();
  }
}
