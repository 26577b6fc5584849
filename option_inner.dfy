/**
 * The storage cell under Option: a single discriminant in front of at most
 * one payload, in the three shapes the library selects by the payload's
 * category.
 *
 *   - OptionUnion       the general shape: a tag and a union of a placeholder
 *                       and a T, built and destroyed explicitly;
 *   - OptionUnionRef    the reference shape: a nullable address, "absent"
 *                       being null;
 *   - OptionUnionEmpty  the empty-base shape: the payload is an empty base
 *                       object (modelled as Unit) that exists in both
 *                       states, so only the tag is tracked.
 *
 * Each cell's abstract value is an `Options.Option`. The general shape keeps
 * two ghost counters, payloads built and payloads destroyed in its storage;
 * its invariant says they differ by exactly the one live payload, so no
 * payload is ever destroyed twice or leaked.
 */
module OptionInner {
  import opened TypeSupport
  import opened Options

  /** `enum class Tag: std::uint8_t { NONE, SOME }` */
  datatype Tag = NONE | SOME

  // ===========================================================================
  // General shape

  class OptionUnion<T(==)> {
    /** `_variant` */
    var variant: Tag
    /** The union `{ Unit _empty; T _val; }`: where the payload is built. */
    const storage: Box<T>
    /** Payloads constructed in `storage` so far. */
    ghost var constructed: nat
    /** Payload destructor calls on `storage` so far. */
    ghost var destroyed: nat

    /** The tag tells whether the union holds a live T, and every payload
        but the live one has been destroyed exactly once. */
    ghost predicate Valid()
      reads this, storage
    {
      && storage.owner == this
      && (variant == SOME <==> storage.slot.Live?)
      && constructed == destroyed + (if variant == SOME then 1 else 0)
    }

    /** The cell's contents as a value. */
    ghost function Model(): Option<T>
      reads this, storage
      requires Valid()
    {
      if variant == SOME then Some(storage.slot.v) else None
    }

    /** `OptionUnion()`: the absent cell. */
    constructor ()
      ensures Valid() && Model() == None && fresh(storage)
      ensures constructed == 0 && destroyed == 0
    {
      variant := NONE;
      storage := new Box.Placeholder();
      constructed, destroyed := 0, 0;
      new;
      storage.owner := this;
    }

    /** `explicit OptionUnion(T val)`: the payload is built once, in place. */
    constructor FromValue(val: T)
      ensures Valid() && Model() == Some(val) && fresh(storage)
      ensures constructed == 1 && destroyed == 0
    {
      variant := SOME;
      storage := new Box.Variable(val);
      constructed, destroyed := 1, 0;
      new;
      storage.owner := this;
    }

    /** `OptionUnion(ForwardArgs, Args&&...)`: the payload is built in place
        from the forwarded arguments by the payload type's constructor. */
    constructor Forward<A>(construct: A -> T, args: A)
      ensures Valid() && Model() == Some(construct(args)) && fresh(storage)
      ensures constructed == 1 && destroyed == 0
    {
      variant := SOME;
      storage := new Box.Variable(construct(args));
      constructed, destroyed := 1, 0;
      new;
      storage.owner := this;
    }

    /** `OptionUnion(const Self&)`: copies the tag, then copy-builds the payload if one is live. */
    constructor CopyFrom(other: OptionUnion<T>)
      requires other.Valid()
      ensures Valid() && Model() == other.Model() && fresh(storage)
      ensures constructed == (if other.variant == SOME then 1 else 0) && destroyed == 0
    {
      variant := other.variant;
      storage := new Box.Placeholder();
      constructed, destroyed := 0, 0;
      new;
      storage.owner := this;
      if variant == SOME {
        storage.slot := Live(other.storage.slot.v);
        constructed := 1;
      }
    }

    /** `OptionUnion(Self&&)`: copies the tag and builds the payload from
        `other.dump()`, which leaves the source absent. */
    constructor MoveFrom(other: OptionUnion<T>)
      requires other.Valid()
      modifies other, other.storage
      ensures Valid() && Model() == old(other.Model()) && fresh(storage)
      ensures constructed == (if old(other.variant) == SOME then 1 else 0) && destroyed == 0
      ensures other.Valid() && other.Model() == None
      ensures other.constructed == old(other.constructed)
      ensures other.destroyed == old(other.destroyed) + (if old(other.variant) == SOME then 1 else 0)
    {
      variant := other.variant;
      storage := new Box.Placeholder();
      constructed, destroyed := 0, 0;
      new;
      storage.owner := this;
      if variant == SOME {
        var v := other.Dump();
        storage.slot := Live(v);
        constructed := 1;
      }
    }

    /** `erase()`: destroys a live payload and leaves the cell absent; on an
        absent cell it does nothing, so a second call changes nothing. */
    method Erase()
      requires Valid()
      modifies this, storage
      ensures Valid() && Model() == None
      ensures constructed == old(constructed)
      ensures destroyed == old(destroyed) + (if old(variant) == SOME then 1 else 0)
      ensures old(variant) == NONE ==> unchanged(this, storage)
    {
      if variant == SOME {
        variant := NONE;
        storage.slot := Placeholder;
        destroyed := destroyed + 1;
      }
    }

    /** `~OptionUnion()`: erases, after which every payload ever built in
        this cell has been destroyed exactly once. */
    method Destruct()
      requires Valid()
      modifies this, storage
      ensures Valid() && Model() == None
      ensures constructed == old(constructed)
      ensures destroyed == old(destroyed) + (if old(variant) == SOME then 1 else 0)
      ensures destroyed == constructed
    {
      Erase();
    }

    /** `is_some()` */
    function IsSome(): (b: bool)
      reads this, storage
      requires Valid()
      ensures b <==> Model().IsSome()
    {
      variant == SOME
    }

    /** `as_ptr()`: the payload's address when one is live, null otherwise. */
    function AsPtr(): (p: Box?<T>)
      reads this, storage
      requires Valid()
      ensures p != null <==> Model().IsSome()
      ensures p != null ==> p == storage && p.slot == Live(Model().value)
    {
      if IsSome() then storage else null
    }

    /** `operator==`: both absent, or both present with equal payloads. */
    function Equals(other: OptionUnion<T>): (r: bool)
      reads this, storage, other, other.storage
      requires Valid() && other.Valid()
      ensures r <==> Model() == other.Model()
    {
      if IsSome() then (if other.IsSome() then storage.slot.v == other.storage.slot.v else false)
      else !other.IsSome()
    }

    /** `dump()`: moves the payload out and destroys it in place, resetting
        the tag first. Undefined on an absent cell, so only a present one may call it. */
    method Dump() returns (v: T)
      requires Valid() && variant == SOME
      modifies this, storage
      ensures Valid() && Model() == None
      ensures old(Model()) == Some(v)
      ensures constructed == old(constructed) && destroyed == old(destroyed) + 1
    {
      variant := NONE;
      v := storage.slot.v;
      storage.slot := Placeholder;
      destroyed := destroyed + 1;
    }

    /** `emplace(args...)`: erases any payload, then builds the new one in place. */
    method Emplace(val: T)
      requires Valid()
      modifies this, storage
      ensures Valid() && Model() == Some(val)
      ensures constructed == old(constructed) + 1
      ensures destroyed == old(destroyed) + (if old(variant) == SOME then 1 else 0)
    {
      Erase();
      storage.slot := Live(val);
      variant := SOME;
      constructed := constructed + 1;
    }

    /** `operator=(const Self&)`: unless assigning to itself, erases, then
        copy-builds the source's payload if it has one; the source is untouched. */
    method CopyAssign(other: OptionUnion<T>)
      requires Valid() && other.Valid()
      modifies this, storage
      ensures Valid() && Model() == other.Model()
      ensures other == this ==> unchanged(this, storage)
      ensures other != this ==>
        && constructed == old(constructed) + (if other.variant == SOME then 1 else 0)
        && destroyed == old(destroyed) + (if old(variant) == SOME then 1 else 0)
    {
      if this != other {
        Erase();
        if other.variant == SOME {
          storage.slot := Live(other.storage.slot.v);
          variant := SOME;
          constructed := constructed + 1;
        }
      }
    }

    /** `operator=(Self&&)`: unless assigning to itself, erases, then builds
        the payload from `other.dump()`, leaving the source absent. */
    method MoveAssign(other: OptionUnion<T>)
      requires Valid() && other.Valid()
      modifies this, storage, other, other.storage
      ensures Valid() && other.Valid()
      ensures other == this ==> unchanged(this, storage)
      ensures other != this ==>
        && Model() == old(other.Model())
        && other.Model() == None
        && constructed == old(constructed) + (if old(other.variant) == SOME then 1 else 0)
        && destroyed == old(destroyed) + (if old(variant) == SOME then 1 else 0)
        && other.constructed == old(other.constructed)
        && other.destroyed == old(other.destroyed) + (if old(other.variant) == SOME then 1 else 0)
    {
      if this != other {
        Erase();
        if other.variant == SOME {
          var v := other.Dump();
          storage.slot := Live(v);
          variant := SOME;
          constructed := constructed + 1;
        }
      }
    }

    /** `clone()`: a fresh cell equal to this one. */
    method Clone() returns (c: OptionUnion<T>)
      requires Valid()
      ensures fresh(c) && fresh(c.storage)
      ensures c.Valid() && c.Model() == Model()
      ensures c.constructed == (if variant == SOME then 1 else 0) && c.destroyed == 0
    {
      c := new OptionUnion.CopyFrom(this);
    }
  }

  // ===========================================================================
  // Reference shape

  class OptionUnionRef<T> {
    /** `_ptr`: the referent's address, null when absent. */
    var ptr: Box?<T>

    /** The cell's contents as a value: the reference itself, not the referent. */
    function Model(): Option<Box?<T>>
      reads this
    {
      if ptr == null then None else Some(ptr)
    }

    /** `OptionUnion()`: the null reference. */
    constructor ()
      ensures Model() == None
    {
      ptr := null;
    }

    /** `explicit OptionUnion(T& obj)` and `OptionUnion(ForwardArgs, T& obj)`: refers to `obj`. */
    constructor Of(obj: Box<T>)
      ensures Model() == Some(obj as Box?<T>)
    {
      ptr := obj;
    }

    /** `OptionUnion(const Self&)`: copies the address. */
    constructor CopyFrom(other: OptionUnionRef<T>)
      ensures Model() == other.Model()
    {
      ptr := other.ptr;
    }

    /** `OptionUnion(Self&&)`: takes the address and nulls the source's. */
    constructor MoveFrom(other: OptionUnionRef<T>)
      modifies other
      ensures Model() == old(other.Model()) && other.Model() == None
    {
      ptr := other.ptr;
      new;
      other.ptr := null;
    }

    /** `operator=(const Self&)`: copies the address. */
    method CopyAssign(other: OptionUnionRef<T>)
      modifies this
      ensures Model() == other.Model()
    {
      ptr := other.ptr;
    }

    /** `operator=(Self&&)`: unless assigning to itself, takes the address and
        nulls the source's. */
    method MoveAssign(other: OptionUnionRef<T>)
      modifies this, other
      ensures other == this ==> unchanged(this)
      ensures other != this ==> Model() == old(other.Model()) && other.Model() == None
    {
      if this != other {
        ptr := other.ptr;
        other.ptr := null;
      }
    }

    /** `is_some()`: holds exactly when the address is not null. */
    function IsSome(): (b: bool)
      reads this
      ensures b <==> Model().IsSome()
      ensures b <==> ptr != null
    {
      if ptr != null then true else false
    }

    /** `as_ptr()` */
    function AsPtr(): (p: Box?<T>)
      reads this
      ensures p == null <==> Model().IsNone()
      ensures p != null ==> Model() == Some(p)
    {
      ptr
    }

    /** `operator==`: compares addresses, not the referents' values. */
    function Equals(other: OptionUnionRef<T>): (r: bool)
      reads this, other
      ensures r <==> Model() == other.Model()
    {
      ptr == other.ptr
    }

    /** `dump()`: yields the referent and nulls the address; the referent
        itself is not touched. */
    method Dump() returns (r: Box<T>)
      requires ptr != null
      modifies this
      ensures old(Model()) == Some(r as Box?<T>) && Model() == None
    {
      r := ptr;
      ptr := null;
    }

    /** `emplace(T& ref)`: rebinds the address to `ref`. */
    method Emplace(ref: Box<T>)
      modifies this
      ensures Model() == Some(ref as Box?<T>)
    {
      ptr := ref;
    }

    /** `clone()` */
    method Clone() returns (c: OptionUnionRef<T>)
      ensures fresh(c) && c.Model() == Model()
    {
      c := new OptionUnionRef.CopyFrom(this);
    }
  }

  /** Two reference cells bound to distinct variables compare unequal even
      when the variables hold equal values: equality is by address. */
  lemma RefEqualityIsByAddress<T>(a: OptionUnionRef<T>, b: OptionUnionRef<T>)
    requires a.ptr != null && b.ptr != null && a.ptr != b.ptr
    ensures !a.Equals(b)
  {
  }

  // ===========================================================================
  // Empty-base shape

  /** The shape for an empty payload type. The cell's base object is the
      payload; every constructor builds it, whatever the tag, and it lives as
      long as the cell. All such payloads are alike, so the payload is Unit
      and only the tag is tracked: the base's constructions are not counted. */
  class OptionUnionEmpty {
    /** `_variant` */
    var variant: Tag

    /** The cell's contents as a value. */
    function Model(): Option<Unit>
      reads this
    {
      if variant == SOME then Some(Unit) else None
    }

    /** `OptionUnion()` */
    constructor ()
      ensures Model() == None
    {
      variant := NONE;
    }

    /** `explicit OptionUnion(T val)` and `OptionUnion(ForwardArgs, Args&&...)` */
    constructor FromValue(val: Unit)
      ensures Model() == Some(val)
    {
      variant := SOME;
    }

    /** `OptionUnion(const Self&) = default`: copies the tag. */
    constructor CopyFrom(other: OptionUnionEmpty)
      ensures Model() == other.Model()
    {
      variant := other.variant;
    }

    /** `OptionUnion(Self&&)`: copies the tag, then sets the source's to NONE. */
    constructor MoveFrom(other: OptionUnionEmpty)
      modifies other
      ensures Model() == old(other.Model()) && other.Model() == None
    {
      variant := other.variant;
      new;
      other.variant := NONE;
    }

    /** `operator=(const Self&) = default`: copies the tag. */
    method CopyAssign(other: OptionUnionEmpty)
      modifies this
      ensures Model() == other.Model()
    {
      variant := other.variant;
    }

    /** `operator=(Self&&)`: unless assigning to itself, takes the source's tag
        and sets the source's to NONE. The source's test of the scoped-enum
        tag as a `bool` is read as "the source was SOME"; reassigning an empty
        base changes nothing observable. */
    method MoveAssign(other: OptionUnionEmpty)
      modifies this, other
      ensures other == this ==> unchanged(this)
      ensures other != this ==> Model() == old(other.Model()) && other.Model() == None
    {
      if this != other {
        variant := other.variant;
        other.variant := NONE;
      }
    }

    /** `is_some()` */
    function IsSome(): (b: bool)
      reads this
      ensures b <==> Model().IsSome()
    {
      variant == SOME
    }

    /** `as_ptr()`: the payload is the cell's base, so its address is the cell's. */
    function AsPtr(): (p: OptionUnionEmpty?)
      reads this
      ensures p != null <==> Model().IsSome()
      ensures p != null ==> p == this
    {
      if IsSome() then this else null
    }

    /** `operator==`: equal tags (all empty payloads are equal). */
    function Equals(other: OptionUnionEmpty): (r: bool)
      reads this, other
      ensures r <==> Model() == other.Model()
    {
      if variant != other.variant then false
      else if IsSome() then UnitEq(Unit, Unit)
      else true
    }

    /** `dump()`: resets the tag and yields the (empty) payload. The base
        object always exists, so unlike the general shape no precondition is needed. */
    method Dump() returns (u: Unit)
      modifies this
      ensures Model() == None
    {
      variant := NONE;
      u := Unit;
    }

    /** `emplace(args...)`: always leaves the cell present. The source builds
        a temporary payload and discards it; the base itself is kept. */
    method Emplace(args: Unit)
      modifies this
      ensures Model() == Some(Unit)
    {
      variant := SOME;
    }

    /** `clone()` */
    method Clone() returns (c: OptionUnionEmpty)
      ensures fresh(c) && c.Model() == Model()
    {
      c := new OptionUnionEmpty.CopyFrom(this);
    }
  }
}
