# fun: Option and Result sum types over a tagged storage cell

This project models the core of a small C++ header-only library of sum types.
`fun::Option<T>` may hold a `T`. `fun::Result<T, E>` holds either a success
`T` or a failure `E`. Both come with Rust-style combinators (`map`,
`and_then`, `or_else`, `match`, ...), the `Unit` and `Unvoid` type support,
and a `pipe`/`lift`/`bind` toolkit for left-to-right composition.

The model has two layers.

- **Values.** `Options.Option` and `Results.Result` are datatypes. Every
  consuming (`&&`) combinator of the classes is a function on them. The
  functor and monad laws, the equality rules and the conversions between the
  two types are lemmas over all inputs (modules `Options`, `Results`).
- **Objects.** The storage the library manages in place is modelled as
  classes:
  - `OptionInner.OptionUnion`, `OptionUnionRef` and `OptionUnionEmpty`: the
    three shapes of the storage cell under `Option`. These are the general
    tag-plus-union cell, the nullable reference, and the tag-only cell for
    empty payload types.
  - `OptionObjects.OptionObj` and `OptionObjects.Iter`: the `Option` class
    over the general cell, with its one-shot iterator.
  - `ResultObjects.ResultObj`: the `Result` class, a tag in front of a union
    of the two payload members.

  Every class states its new state through `Model()`, in terms of the value
  layer. Its destructive members (`dump`, `unwrap`, `take`, `match`, `ok`, ...)
  are proved to return what the value-level function returns. The Option
  members leave the receiver in the state the source leaves it in. The Result
  members that move a payload out are built on a corrected `dump_ok` and
  `dump_err` (see Findings). They leave the receiver in the state the evident
  intent gives, not the state the code as written gives.

Building and destroying payloads in place (placement `new`, explicit
destructor calls) is represented by two ghost counters per cell. One counts
payloads built in the cell, the other counts destructor calls on it. The
general Option cell keeps the invariant `constructed == destroyed + (1 if
present else 0)`. A live Result keeps `constructed == destroyed + 1`. Every
method of the general Option cell, of the Option class and of the Result class
states how it moves these counters. That is how "each payload is destroyed
exactly once" is stated and checked. The reference cell builds nothing, so
it carries no counters. The empty-base cell carries none either, though its
base object is the payload and is built whatever the tag; "## Left out" says
what that leaves unstated. Callbacks are pure Dafny
functions. I/O, the stream operators and exceptions are not modelled as
effects; `expect`'s `runtime_error` becomes the `Threw` case of
`Options.Outcome`.

Where the code and its declarations disagree, the model follows the code that
runs:

- `Result::unwrap` is declared without a reference qualifier
  (`functional/include/fun/result/result.declare.h:140`) but defined as `&&`
  (`functional/include/fun/result/result.impl.h:211`). `Option::unwrap`,
  `expect`, `unwrap_or` and `unwrap_or_else` are declared `&&` but defined
  without it. The model does not depend on the qualifier. Every unwrap is
  modelled as the destructive read its body performs.
- `Option::unwrap` calls `_inner.unwrap()`
  (`functional/include/fun/option/option.impl.h:190`), a member that none of
  the three `OptionUnion` shapes declares. It is modelled as the cell's
  `dump()`, the only member that moves the payload out. That is also what
  makes `take` leave the receiver None, as its test expects.
- `map_or_else` is declared to return `Option<U>`, but its body returns the
  bare `U` of `map_or`. The body is modelled (`Options.Option.MapOrElse`).
- The empty-base shape's move assignment tests `if (_variant)` on a scoped
  enum (`functional/include/fun/option/option_inner.h:16`, `:33`). A scoped
  enum has no contextual conversion to `bool`, so that line cannot compile as
  written. `Option`'s move assignment is defaulted
  (`functional/include/fun/option/option.declare.h:90`) and so instantiates
  it. The `op2 = std::move(op1)` on an `Option<Unit>` at
  `test/all_tests.cpp:597` therefore cannot compile either. The model follows
  the evident intent: copy the tag, reassign the empty base only when the
  source was SOME, and leave the source NONE.
- `Result`'s `ErrMapReturn` and `OrElseReturn` compute their types from
  calling `F` with `T` rather than `E`. The model types `map_err` and
  `or_else` by their bodies, which call `F` with `E`.

## Model

| member | source | states |
|---|---|---|
| `TypeSupport.UnitEqIsEquality` | functional/include/fun/type_support.h:10-15 | Unit's `==` is always true and `!=` always false, which agrees with value equality because Unit has one value |
| `TypeSupport.Sized.Val` | functional/include/fun/type_support.h:46-47 | `val()` of a by-value member gives back exactly the stored payload |
| `TypeSupport.Sized.Unwrap` | functional/include/fun/type_support.h:49 | `unwrap() &&` of a by-value member moves out the same payload `val()` reads |
| `TypeSupport.SizedRef.Val` | functional/include/fun/type_support.h:32-33 | `val()` of a reference member reads the referent's current value |
| `TypeSupport.SizedRefUnwrapAliasesReferent` | functional/include/fun/type_support.h:35 | `unwrap()` of a reference member returns the referent itself, and reading through it gives what `val()` gives |
| `TypeSupport.UnvoidOutput` | functional/include/fun/type_support.h:53-55 | `Unvoid<void>` is Unit, every other type maps to itself, the output is never void, and adapting twice changes nothing more |
| `TypeSupport.UnvoidCallVoidRunsOnce` | functional/include/fun/type_support.h:69-77 | a void callable run through the adapter takes effect exactly once (one more trace entry) and Unit is returned |
| `TypeSupport.UnvoidCallValue` | functional/include/fun/type_support.h:79-86 | for a value-returning callable the adapter is the identity: it returns exactly the callable's value and effect |
| `TypeSupport.UnvoidCallVoid` | functional/include/fun/type_support.h:69-77 | a void callable is run once for its effect and Unit is returned in its place |
| `TypeSupport.Unvoid` | functional/include/fun/type_support.h:53-55 | the adapted output type is never void, and is the declared type whenever that is not void |
| `TypeSupport.UnitEq` | functional/include/fun/type_support.h:13 | Unit's `==` holds for every pair |
| `TypeSupport.UnitNe` | functional/include/fun/type_support.h:14 | Unit's `!=` holds for no pair |
| `OptionInner.OptionUnion.constructor` | functional/include/fun/option/option_inner.h:183 | the default general cell is absent and no payload has been built |
| `OptionInner.OptionUnion.FromValue` | functional/include/fun/option/option_inner.h:185-187 | a cell built from a value is present with that value; one payload built, none destroyed |
| `OptionInner.OptionUnion.Forward` | functional/include/fun/option/option_inner.h:189-192 | forwarding construction builds the payload once, in place, from the arguments |
| `OptionInner.OptionUnion.CopyFrom` | functional/include/fun/option/option_inner.h:147-151 | the copy has the source's tag and payload; a payload is built only when the source is present |
| `OptionInner.OptionUnion.MoveFrom` | functional/include/fun/option/option_inner.h:166-170 | the new cell takes the source's presence and value; the source is left absent, its payload destroyed once by `dump` |
| `OptionInner.OptionUnion.Erase` | functional/include/fun/option/option_inner.h:137-143 | always leaves the cell absent; destroys one payload exactly when the cell was present; changes nothing on an absent cell, so a second call is a no-op |
| `OptionInner.OptionUnion.Destruct` | functional/include/fun/option/option_inner.h:145 | erases: no payload is built, one is destroyed iff the cell was present, and afterwards every payload ever built in the cell has been destroyed exactly once |
| `OptionInner.OptionUnion.IsSome` | functional/include/fun/option/option_inner.h:194 | holds exactly when the cell's contents are Some |
| `OptionInner.OptionUnion.AsPtr` | functional/include/fun/option/option_inner.h:196 | not null exactly when present; then it is the cell's own storage, holding the payload |
| `OptionInner.OptionUnion.Equals` | functional/include/fun/option/option_inner.h:198-204 | true iff both are absent or both present with equal payloads (false when exactly one is present) |
| `OptionInner.OptionUnion.Dump` | functional/include/fun/option/option_inner.h:206-216 | on a present cell returns the former payload, leaves the cell absent and destroys the moved-from payload once |
| `OptionInner.OptionUnion.Emplace` | functional/include/fun/option/option_inner.h:218-223 | erases first (one destruction iff it was present), then the cell is present with the new value, one more payload built |
| `OptionInner.OptionUnion.CopyAssign` | functional/include/fun/option/option_inner.h:153-162 | self-assignment changes nothing; otherwise the cell equals the source, with the erase and the copy counted |
| `OptionInner.OptionUnion.MoveAssign` | functional/include/fun/option/option_inner.h:172-181 | self-assignment changes nothing; otherwise the cell takes the source's contents and the source is left absent, with every build and destruction counted |
| `OptionInner.OptionUnion.Clone` | functional/include/fun/option/option_inner.h:164 | a fresh cell equal to the receiver, with one payload built iff the receiver is present |
| `OptionInner.OptionUnionRef.constructor` | functional/include/fun/option/option_inner.h:103 | the default reference cell is null, i.e. absent |
| `OptionInner.OptionUnionRef.Of` | functional/include/fun/option/option_inner.h:105-107 | a cell made from a variable refers to that variable |
| `OptionInner.OptionUnionRef.CopyFrom` | functional/include/fun/option/option_inner.h:86 | the copy holds the same address |
| `OptionInner.OptionUnionRef.MoveFrom` | functional/include/fun/option/option_inner.h:91-93 | takes the source's address and nulls the source |
| `OptionInner.OptionUnionRef.CopyAssign` | functional/include/fun/option/option_inner.h:87 | copies the address |
| `OptionInner.OptionUnionRef.MoveAssign` | functional/include/fun/option/option_inner.h:95-101 | self-assignment changes nothing; otherwise takes the source's address and nulls the source |
| `OptionInner.OptionUnionRef.IsSome` | functional/include/fun/option/option_inner.h:109 | holds iff the address is not null |
| `OptionInner.OptionUnionRef.AsPtr` | functional/include/fun/option/option_inner.h:111 | null exactly when absent, otherwise the referenced variable |
| `OptionInner.OptionUnionRef.Equals` | functional/include/fun/option/option_inner.h:113 | equal iff the two cells hold the same address |
| `OptionInner.RefEqualityIsByAddress` | functional/include/fun/option/option_inner.h:113 | cells referring to two distinct variables compare unequal, whatever those variables hold |
| `OptionInner.OptionUnionRef.Dump` | functional/include/fun/option/option_inner.h:115-119 | returns the referent it held and leaves the cell null |
| `OptionInner.OptionUnionRef.Emplace` | functional/include/fun/option/option_inner.h:121 | rebinds the cell to the given variable |
| `OptionInner.OptionUnionRef.Clone` | functional/include/fun/option/option_inner.h:89 | a fresh cell with the same address |
| `OptionInner.OptionUnionEmpty.constructor` | functional/include/fun/option/option_inner.h:41 | the default empty-base cell is absent |
| `OptionInner.OptionUnionEmpty.FromValue` | functional/include/fun/option/option_inner.h:43-49 | construction from a value or from forwarded arguments makes the cell present |
| `OptionInner.OptionUnionEmpty.CopyFrom` | functional/include/fun/option/option_inner.h:21 | the copy has the source's tag |
| `OptionInner.OptionUnionEmpty.MoveFrom` | functional/include/fun/option/option_inner.h:23-26 | copies the source's tag, then sets the source's tag to NONE |
| `OptionInner.OptionUnionEmpty.CopyAssign` | functional/include/fun/option/option_inner.h:28 | copies the tag |
| `OptionInner.OptionUnionEmpty.MoveAssign` | functional/include/fun/option/option_inner.h:30-37 | self-assignment changes nothing; otherwise takes the source's tag and sets the source's to NONE |
| `OptionInner.OptionUnionEmpty.IsSome` | functional/include/fun/option/option_inner.h:51 | holds exactly when the tag is SOME |
| `OptionInner.OptionUnionEmpty.AsPtr` | functional/include/fun/option/option_inner.h:53 | not null exactly when present, and then the cell itself (the payload is its base) |
| `OptionInner.OptionUnionEmpty.Equals` | functional/include/fun/option/option_inner.h:55-61 | equal iff the tags agree (all empty payloads are equal) |
| `OptionInner.OptionUnionEmpty.Dump` | functional/include/fun/option/option_inner.h:63-66 | leaves the cell absent, with no precondition on its state |
| `OptionInner.OptionUnionEmpty.Emplace` | functional/include/fun/option/option_inner.h:68-74 | always leaves the cell present |
| `OptionInner.OptionUnionEmpty.Clone` | functional/include/fun/option/option_inner.h:39 | a fresh cell equal to the receiver |
| `Options.Option.IsSome` | functional/include/fun/option/option.declare.h:125 | `is_some()` holds exactly when the Option is not None |
| `Options.Option.IsNone` | functional/include/fun/option/option.declare.h:126 | `is_none()` holds exactly when the Option is None |
| `Options.Option.ToBool` | functional/include/fun/option/option.declare.h:127 | the bool conversion holds exactly when the Option is not None |
| `Options.Option.Match` | functional/include/fun/option/option.impl.h:47-61 | `match` applies the some-handler to the payload of a value, and calls the none-handler on None |
| `Options.Option.Map` | functional/include/fun/option/option.impl.h:110-116 | `map(f)` is present exactly when the receiver is, and then holds f of the payload |
| `Options.Option.MapOr` | functional/include/fun/option/option.impl.h:119-124 | `map_or(d, f)` is `map(f)` followed by `unwrap_or(d)` |
| `Options.Option.MapOrElse` | functional/include/fun/option/option.impl.h:127-133 | `map_or_else(df, f)` is `map(f)` followed by `unwrap_or_else(df)` |
| `Options.Option.AndThen` | functional/include/fun/option/option.impl.h:141-147 | `and_then(f)` is f of the payload on a value; it can succeed only if the receiver was present |
| `Options.Option.OrElse` | functional/include/fun/option/option.impl.h:150-155 | `or_else(g)` keeps a present receiver unchanged and is g() on None; it can be None only if the receiver was |
| `Options.Option.Unwrap` | functional/include/fun/option/option.impl.h:189-190 | `unwrap` of a present Option returns the payload it holds |
| `Options.Option.UnwrapOr` | functional/include/fun/option/option.impl.h:201-205 | `unwrap_or(alt)` returns the payload of a value and `alt` on None |
| `Options.Option.UnwrapOrElse` | functional/include/fun/option/option.impl.h:208-213 | `unwrap_or_else(f)` returns the payload of a value and f() on None |
| `Options.VariantTests` | functional/include/fun/option/option.declare.h:125-127 | `is_none` is the negation of `is_some`, the bool conversion equals `is_some`, and `is_some` means not None |
| `Options.Eq` | functional/include/fun/option/option.declare.h:145-147 | Option equality, written as the cell's case analysis, is equality of the contents |
| `Options.Ne` | functional/include/fun/option/option.declare.h:148-150 | `!=` holds exactly when the contents differ |
| `Options.EqualityCases` | functional/include/fun/option/option_inner.h:198-204 | None equals None, None never equals a value, and two values are equal iff their payloads are |
| `Options.Option.Filter` | functional/include/fun/option/option.declare.h:209-218 | the result is present iff the receiver is present and the predicate accepts its payload, and then it is the receiver |
| `Options.FilterLaws` | functional/include/fun/option/option.declare.h:209-218 | None filters to None; an always-true predicate keeps everything; filtering is idempotent; two filters are one filter of the conjunction |
| `Options.Option.Expect` | functional/include/fun/option/option.impl.h:193-198 | throws iff the receiver is None, and then with `runtime_error(err_msg)` |
| `Options.ExpectAgreesWithUnwrapOr` | functional/include/fun/option/option.impl.h:193-205 | on a value, `expect` returns exactly what `unwrap_or` returns, whatever the fallback |
| `Options.UnwrapOfSome` | functional/include/fun/option/option.impl.h:189-198 | building Some(x) and unwrapping it, or expecting it with any message, gives x back |
| `Options.Option.UnwrapOrDefault` | functional/include/fun/option/option.declare.h:249-251 | `unwrap_or_default` is `unwrap_or` with the default-constructed value |
| `Options.UnwrapFallbacks` | functional/include/fun/option/option.impl.h:201-213 | `unwrap_or` gives the payload or the fallback, and `unwrap_or_else`/`unwrap_or_default` agree with it |
| `Options.FromMakeSome` | functional/include/fun/option/option.declare.h:114-122 | an Option made from `make_some(args...)` is present with the payload built from the arguments |
| `Options.SomeUnit` | functional/include/fun/option/option.impl.h:18 | `some()` is a present Unit |
| `Options.CombinatorsAreMatches` | functional/include/fun/option/option.impl.h:47-61 | `match` sends a value to the some-handler and None to the none-handler; `map`, `map_or`, `and_then`, `or_else` are instances of it |
| `Options.MapOnVariants` | functional/include/fun/option/option.impl.h:110-116 | `map(f)` sends Some(v) to Some(f(v)) and None to None |
| `Options.MapIdentity` | functional/include/fun/option/option.impl.h:110-116 | mapping the identity changes nothing |
| `Options.MapComposition` | functional/include/fun/option/option.impl.h:110-116 | two maps are one map of the composite |
| `Options.MapIsAndThenSome` | functional/include/fun/option/option.impl.h:141-147 | `map(f)` is `and_then` of the always-present `f` |
| `Options.MapOrIsMapThenUnwrapOr` | functional/include/fun/option/option.impl.h:119-133 | `map_or(d, f)` gives f(v) or d, and `map_or_else` gives f(v) or the default function's value |
| `Options.AndThenLeftIdentity` | functional/include/fun/option/option.impl.h:141-147 | `Some(v).and_then(f)` is f(v) |
| `Options.AndThenRightIdentity` | functional/include/fun/option/option.impl.h:141-147 | binding the Some constructor changes nothing |
| `Options.AndThenAssociative` | functional/include/fun/option/option.impl.h:141-147 | binding is associative |
| `Options.OrElseLaws` | functional/include/fun/option/option.impl.h:150-155 | `or_else(g)` keeps Some unchanged and replaces None by g(); the always-None alternative is its identity; it is associative |
| `OptionObjects.OptionObj.constructor` | functional/include/fun/option/option.declare.h:103 | `Option()` is None |
| `OptionObjects.OptionObj.Nothing` | functional/include/fun/option/option.declare.h:105 | `Option(NothingTag)` is None |
| `OptionObjects.OptionObj.Of` | functional/include/fun/option/option.declare.h:107 | `Option(T x)` is Some(x) |
| `OptionObjects.OptionObj.Forward` | functional/include/fun/option/option.declare.h:109-112 | forwarding construction builds one payload in place from the arguments |
| `OptionObjects.OptionObj.FromMakeArgs` | functional/include/fun/option/option.declare.h:114-122 | construction from `make_some(args...)` gives the value `FromMakeSome` describes |
| `OptionObjects.OptionObj.FromUnion` | functional/include/fun/option/option.declare.h:97 | takes a temporary cell's contents, building one payload iff it was present; the temporary is left absent with its payload destroyed once (an lvalue argument, which the source copies, is not modelled) |
| `OptionObjects.OptionObj.CopyFrom` | functional/include/fun/option/option.declare.h:92 | the copy's contents equal the source's |
| `OptionObjects.OptionObj.MoveFrom` | functional/include/fun/option/option.declare.h:89 | the new Option takes the source's contents and the source is left None |
| `OptionObjects.OptionObj.CopyAssign` | functional/include/fun/option/option.declare.h:93 | after copy assignment the contents equal the source's |
| `OptionObjects.OptionObj.MoveAssign` | functional/include/fun/option/option.declare.h:90 | self-assignment keeps the contents; otherwise the target takes the source's contents and the source is None |
| `OptionObjects.OptionObj.Clone` | functional/include/fun/option/option.declare.h:95 | `clone()` returns a fresh Option equal to the receiver |
| `OptionObjects.OptionObj.Destruct` | functional/include/fun/option/option.declare.h:87 | the defaulted destructor destroys the cell: one destruction iff present, and afterwards every payload ever built has been destroyed exactly once |
| `OptionObjects.OptionObj.IsSome` | functional/include/fun/option/option.declare.h:125 | holds exactly when the contents are Some |
| `OptionObjects.OptionObj.IsNone` | functional/include/fun/option/option.declare.h:126 | holds exactly when the contents are None |
| `OptionObjects.OptionObj.ToBool` | functional/include/fun/option/option.declare.h:127 | the bool conversion holds exactly when the contents are Some |
| `OptionObjects.OptionObj.AsPtr` | functional/include/fun/option/option.declare.h:129-133 | not null exactly when present, and then it holds the payload |
| `OptionObjects.OptionObj.Equals` | functional/include/fun/option/option.declare.h:145-147 | `==` holds iff the contents are equal |
| `OptionObjects.OptionObj.NotEquals` | functional/include/fun/option/option.declare.h:148-150 | `!=` holds iff the contents differ |
| `OptionObjects.OptionObj.AsRef` | functional/include/fun/option/option.declare.h:135-142 | the reference is present iff the receiver is, refers to the receiver's own payload storage and reads its payload; the receiver is not modified |
| `OptionObjects.AsRefAliases` | functional/include/fun/option/option.declare.h:135-138 | reading through `as_ref()` of Some(5) gives 5, as the `as_ref` test checks; an added check shows that writing 6 through it makes the receiver Some(6) |
| `OptionObjects.OptionObj.Take` | functional/include/fun/option/option.impl.h:158-162 | returns an Option holding the receiver's former contents and leaves the receiver None |
| `OptionObjects.DestroyOnce` | test/all_tests.cpp:140-147 | unwrapping a temporary built from `make_some(args)` returns the payload built, and after the temporary dies that payload was destroyed exactly once |
| `OptionObjects.DestructAfterMoveConstruct` | test/all_tests.cpp:557-564 | moving out of an Option destroys the source's payload once, and the new Option holds it, built once |
| `OptionObjects.DestructAfterMoveAssign` | test/all_tests.cpp:567-575 | move-assigning into a None Option destroys the source's payload once, and the target holds it |
| `OptionObjects.DestructAfterUnwrap` | test/all_tests.cpp:578-582 | `unwrap` returns the payload and destroys the one left in the cell |
| `OptionObjects.DestructAfterTake` | test/all_tests.cpp:585-589 | `take` destroys the payload left in the receiver, and the taken Option holds it |
| `OptionObjects.TakeFromSome` | test/all_tests.cpp:539-543 | take on Some(5) yields Some(5) and leaves None |
| `OptionObjects.OptionObj.Emplace` | functional/include/fun/option/option.impl.h:169-175 | the receiver is Some(val); one payload built, and the old one destroyed iff there was one |
| `OptionObjects.OptionObj.Push` | functional/include/fun/option/option.impl.h:165-166 | `push(obj)` leaves the receiver Some(obj) |
| `OptionObjects.OptionObj.Unwrap` | functional/include/fun/option/option.impl.h:189-190 | on Some returns the payload and leaves the receiver None |
| `OptionObjects.OptionObj.Expect` | functional/include/fun/option/option.impl.h:193-198 | returns what the value-level `expect` returns (the payload, or the thrown `runtime_error(msg)`) and leaves the receiver None |
| `OptionObjects.OptionObj.UnwrapOr` | functional/include/fun/option/option.impl.h:201-205 | returns the payload or `alt`, and leaves the receiver None |
| `OptionObjects.OptionObj.UnwrapOrElse` | functional/include/fun/option/option.impl.h:208-213 | returns the payload or `alt_func()`, and leaves the receiver None |
| `OptionObjects.OptionObj.Match` | functional/include/fun/option/option.impl.h:47-61 | returns the value-level `match` of the former contents, having unwrapped the receiver |
| `OptionObjects.OptionObj.OkOr` | functional/include/fun/option/option.impl.h:88-94 | returns Ok(v) for Some(v) and Err(err) for None, leaving the receiver None |
| `OptionObjects.OptionObj.Begin` | functional/include/fun/option/option.impl.h:64-65 | `begin()` points at the payload, or is null for None |
| `OptionObjects.OptionObj.End` | functional/include/fun/option/option.impl.h:76-77 | `end()` is the null iterator |
| `OptionObjects.OptionObj.Elements` | functional/include/fun/option/option.impl.h:259-270 | a range-for from `begin()` to `end()` visits exactly the payload for Some and nothing for None, and stops |
| `OptionObjects.Iter.constructor` | functional/include/fun/option/option.impl.h:247-248 | an iterator made from a pointer holds that pointer |
| `OptionObjects.Iter.Null` | functional/include/fun/option/option.declare.h:274 | the default iterator is null |
| `OptionObjects.Iter.Deref` | functional/include/fun/option/option.impl.h:251-252 | `*it` is the payload the iterator points at |
| `OptionObjects.Iter.Next` | functional/include/fun/option/option.impl.h:259-263 | `++` leaves the iterator null, and on a null iterator changes nothing (idempotent) |
| `OptionObjects.Iter.Equals` | functional/include/fun/option/option.impl.h:266-269 | iterators are equal iff their pointers are |
| `OptionObjects.Iter.NotEquals` | functional/include/fun/option/option.impl.h:272-275 | `!=` iff the pointers differ |
| `Results.Result.IsOk` | functional/include/fun/result/result.impl.h:172-173 | `is_ok()` holds exactly when the Result is not an Err |
| `Results.Result.IsErr` | functional/include/fun/result/result.impl.h:176-177 | `is_err()` holds exactly when the Result is an Err |
| `Results.Result.Match` | functional/include/fun/result/result.impl.h:269-281 | `match` applies the ok-handler to a success value and the err-handler to a failure value |
| `Results.Result.Map` | functional/include/fun/result/result.impl.h:284-289 | `map(f)` stays on the receiver's side, applies f to a success value and passes a failure value through |
| `Results.Result.MapErr` | functional/include/fun/result/result.impl.h:292-297 | `map_err(f)` stays on the receiver's side, applies f to a failure value and passes a success value through |
| `Results.Result.AndThen` | functional/include/fun/result/result.impl.h:300-305 | `and_then(f)` is f of a success value, and passes a failure through unchanged |
| `Results.Result.OrElse` | functional/include/fun/result/result.impl.h:308-313 | `or_else(g)` is g of a failure value, and passes a success through unchanged |
| `Results.Result.Unwrap` | functional/include/fun/result/result.impl.h:210-211 | `unwrap` of an Ok returns its success value |
| `Results.Result.UnwrapErr` | functional/include/fun/result/result.impl.h:231-232 | `unwrap_err` of an Err returns its failure value |
| `Results.Result.UnwrapOr` | functional/include/fun/result/result.impl.h:214-218 | `unwrap_or(alt)` is `ok().unwrap_or(alt)`: the success value, or `alt` on a failure |
| `Results.Result.OkOption` | functional/include/fun/result/result.impl.h:255-259 | `ok()` is present iff the Result is Ok |
| `Results.Result.ErrOption` | functional/include/fun/result/result.impl.h:262-266 | `err()` is present iff the Result is Err |
| `Results.ToOptionRoundTrips` | functional/include/fun/result/result.impl.h:255-266 | `Ok(v).ok()` is Some(v) and `Err(e).ok()` is None; `err()` is the dual |
| `Results.ToOptionsDetermineResult` | functional/include/fun/result/result.impl.h:255-266 | the Result is recovered from whichever of `ok()`/`err()` is present |
| `Results.Result.UnwrapOrElse` | functional/include/fun/result/result.impl.h:221-228 | gives the success value on Ok and `alt_func(error)` on Err |
| `Results.UnwrapFallbacks` | functional/include/fun/result/result.impl.h:214-218 | `unwrap_or` is the success value or the fallback (the same as `ok().unwrap_or`), and `unwrap_or_else` with a constant agrees |
| `Results.FromMakeOk` | functional/include/fun/result/result.impl.h:160-163 | a Result made from `ok(v)` is Ok with v |
| `Results.FromMakeErr` | functional/include/fun/result/result.impl.h:166-169 | a Result made from `err(e)` is Err with e |
| `Results.FromMakeArgs` | functional/include/fun/result/result.declare.h:112-120 | construction from `make_ok`/`make_err` arguments lands on the helper's side, with that side's payload built from the arguments |
| `Results.Eq` | functional/include/fun/result/result.impl.h:196-203 | `==` is same side with equal payloads, i.e. equality of the contents |
| `Results.Ne` | functional/include/fun/result/result.impl.h:206-207 | `!=` holds exactly when the two Results differ (other side, or same side with unequal payloads) |
| `Results.EqualityCases` | functional/include/fun/result/result.impl.h:196-207 | two Oks or two Errs are equal iff their payloads are; Ok never equals Err |
| `Results.EqOk` | functional/include/fun/result/result.declare.h:131-134 | comparing with a `MakeOkResult` is comparing with the Ok it converts to |
| `Results.EqErr` | functional/include/fun/result/result.declare.h:135-138 | comparing with a `MakeErrResult` is comparing with the Err it converts to |
| `Results.OkEq` | functional/include/fun/result/result.declare.h:191-194 | `ok(v) == r` holds iff r is Ok(v) |
| `Results.ErrEq` | functional/include/fun/result/result.declare.h:196-199 | `err(e) == r` holds iff r is Err(e) |
| `Results.HelperEquality` | functional/include/fun/result/result.declare.h:191-199 | the helper comparisons hold iff the Result is on the helper's side with the helper's payload, and the free operators with the helper on the left agree with the members |
| `Results.OneSideActive` | functional/include/fun/result/result.declare.h:78-82 | exactly one side is active, and `is_err` is the negation of `is_ok` |
| `Results.OkOr` | functional/include/fun/option/option.impl.h:88-94 | `ok_or(err)` is Ok(v) for Some(v) and Err(err) for None |
| `Results.OkOrElse` | functional/include/fun/option/option.impl.h:97-103 | `ok_or_else(f)` is Ok(v) for Some(v) and Err(f()) for None, the error being computed by the given function |
| `Results.OkOrRoundTrip` | functional/include/fun/option/option.impl.h:88-103 | `ok_or` followed by `ok()` gives back the Option; the error is the given one; `ok()` of an Ok followed by `ok_or` gives back the Result; `ok_or_else` of a constant equals `ok_or` |
| `Results.MapTouchesOneSide` | functional/include/fun/result/result.impl.h:284-297 | `map` rewrites an Ok payload and passes Err through; `map_err` rewrites an Err payload and passes Ok through |
| `Results.MapFunctorLaws` | functional/include/fun/result/result.impl.h:284-297 | identity and composition laws for `map`, identity for `map_err`, and the two commute |
| `Results.OkOptionOfMap` | functional/include/fun/result/result.impl.h:284-289 | `ok()` turns the Result's `map` into the Option's `map` |
| `Results.AndThenLaws` | functional/include/fun/result/result.impl.h:300-305 | `Ok(v).and_then(f)` is f(v), Err passes through unchanged, Ok is its identity, and it is associative |
| `Results.OrElseLaws` | functional/include/fun/result/result.impl.h:308-313 | `Err(e).or_else(g)` is g(e), Ok passes through unchanged, Err is its identity, and it is associative |
| `Results.CombinatorsAreMatches` | functional/include/fun/result/result.impl.h:269-281 | `map`, `and_then` and `ok()` are instances of `match` |
| `ResultObjects.ResultObj.OkForward` | functional/include/fun/result/result.impl.h:146-150 | builds one Ok member from the arguments, via a temporary moved into the member |
| `ResultObjects.ResultObj.ErrForward` | functional/include/fun/result/result.impl.h:153-157 | builds one Err member from the arguments, via a temporary moved into the member |
| `ResultObjects.ResultObj.FromMakeOk` | functional/include/fun/result/result.impl.h:160-163 | `Result(ok(v))` is Ok(v) with one member built |
| `ResultObjects.ResultObj.FromMakeErr` | functional/include/fun/result/result.impl.h:166-169 | `Result(err(e))` is Err(e) with one member built |
| `ResultObjects.ResultObj.FromMakeArgs` | functional/include/fun/result/result.declare.h:112-120 | construction from `make_ok`/`make_err` starts on a definite side (there is no default constructor) with the value `Results.FromMakeArgs` describes |
| `ResultObjects.ResultObj.CopyFrom` | functional/include/fun/result/result.impl.h:123-129 | the copy has the source's tag and payload; the source is not modified |
| `ResultObjects.ResultObj.MoveFrom` | functional/include/fun/result/result.impl.h:104-110 | the new Result takes the source's contents through `dump_ok`/`dump_err`, leaving the source moved out (over the corrected `dump_ok`/`dump_err`; see Findings) |
| `ResultObjects.ResultObj.BuildMoved` | functional/include/fun/result/result.impl.h:113-120 | the placement `new (this) self_t(std::move(other))` after the destructor: the receiver is live again with the source's contents and one more member built, and the source is moved out with its counts kept |
| `ResultObjects.ResultObj.BuildCopied` | functional/include/fun/result/result.impl.h:132-139 | the placement `new (this) self_t(other)` after the destructor: the receiver is live again, equal to the source, with one more member built |
| `ResultObjects.ResultObj.Destruct` | functional/include/fun/result/result.impl.h:97-101 | runs one member destructor; on a live Result that makes destructions equal constructions |
| `ResultObjects.ResultObj.DumpOk` | functional/include/fun/result/result.impl.h:79-85 | on Ok returns the payload and leaves the moved-from member for the destructor (corrected; see Findings) |
| `ResultObjects.ResultObj.DumpErr` | functional/include/fun/result/result.impl.h:88-94 | on Err returns the payload and leaves the moved-from member for the destructor (corrected; see Findings) |
| `ResultObjects.ResultObj.DumpOkAsWritten` | functional/include/fun/result/result.impl.h:79-85 | as written: returns the payload, destroys the member, and keeps the Ok tag while the Result is still live |
| `ResultObjects.ResultObj.DumpErrAsWritten` | functional/include/fun/result/result.impl.h:88-94 | as written: returns the payload, destroys the member, and keeps the Err tag while the Result is still live |
| `ResultObjects.ResultObj.MoveAssign` | functional/include/fun/result/result.impl.h:113-120 | self-assignment changes nothing; otherwise one destruction of the target, then a rebuild holding the source's contents, with the source moved out (over the corrected `dump_ok`/`dump_err`; see Findings) |
| `ResultObjects.ResultObj.CopyAssign` | functional/include/fun/result/result.impl.h:132-139 | self-assignment changes nothing; otherwise one destruction of the target, then a rebuild equal to the source |
| `ResultObjects.ResultObj.Clone` | functional/include/fun/result/result.impl.h:142-143 | a fresh Result equal to the receiver |
| `ResultObjects.ResultObj.IsOk` | functional/include/fun/result/result.impl.h:172-173 | holds exactly when the contents are Ok |
| `ResultObjects.ResultObj.IsErr` | functional/include/fun/result/result.impl.h:176-177 | holds exactly when the contents are Err |
| `ResultObjects.ResultObj.AsPtr` | functional/include/fun/result/result.impl.h:180-185 | not null exactly when Ok; the payload has no address of its own in the model, so the Result object itself stands for the address of its Ok member |
| `ResultObjects.ResultObj.AsErrPtr` | functional/include/fun/result/result.impl.h:188-193 | not null exactly when Err; the Result object itself stands for the address of its Err member |
| `ResultObjects.ResultObj.Equals` | functional/include/fun/result/result.impl.h:196-203 | true iff both are on the same side with equal payloads |
| `ResultObjects.ResultObj.NotEquals` | functional/include/fun/result/result.impl.h:206-207 | agrees with the value-level `!=`: true iff the contents differ |
| `ResultObjects.ResultObj.EqualsOk` | functional/include/fun/result/result.declare.h:131-134 | true iff the Result is Ok with the helper's payload |
| `ResultObjects.ResultObj.EqualsErr` | functional/include/fun/result/result.declare.h:135-138 | true iff the Result is Err with the helper's payload |
| `ResultObjects.ResultObj.Unwrap` | functional/include/fun/result/result.impl.h:210-211 | on Ok returns the payload through `dump_ok`, leaving the Result moved out, with no destruction until the Result dies (over the corrected `dump_ok`/`dump_err`; see Findings) |
| `ResultObjects.ResultObj.UnwrapErr` | functional/include/fun/result/result.impl.h:231-232 | on Err returns the payload through `dump_err`, leaving the Result moved out (over the corrected `dump_ok`/`dump_err`; see Findings) |
| `ResultObjects.ResultObj.UnwrapOr` | functional/include/fun/result/result.impl.h:214-218 | returns what the value-level `unwrap_or` returns; only an Ok receiver gives its payload up; no member is built or destroyed (over the corrected `dump_ok`/`dump_err`; see Findings) |
| `ResultObjects.ResultObj.OkOpt` | functional/include/fun/result/result.impl.h:255-259 | returns the value-level `ok()`; only an Ok receiver is moved out (over the corrected `dump_ok`/`dump_err`; see Findings) |
| `ResultObjects.ResultObj.ErrOpt` | functional/include/fun/result/result.impl.h:262-266 | returns the value-level `err()`; only an Err receiver is moved out (over the corrected `dump_ok`/`dump_err`; see Findings) |
| `ResultObjects.ResultObj.Match` | functional/include/fun/result/result.impl.h:269-281 | returns the value-level `match` of the former contents, having dumped the active side (over the corrected `dump_ok`/`dump_err`; see Findings) |
| `ResultObjects.UnwrapTemporaryAsWritten` | test/all_tests.cpp:653-660 | with `dump_ok` as written, unwrapping a temporary `Result(make_ok(x))` that then dies destroys its one Ok member twice |
| `ResultObjects.UnwrapErrTemporaryAsWritten` | test/all_tests.cpp:663-670 | with `dump_err` as written, the same for the Err member |
| `ResultObjects.UnwrapTemporary` | test/all_tests.cpp:653-660 | with the corrected `dump_ok`, the unwrapped payload is x and the one member is destroyed exactly once |
| `ResultObjects.UnwrapErrTemporary` | test/all_tests.cpp:663-670 | with the corrected `dump_err`, the same for the Err member |
| `ResultObjects.MoveThenDestroyBoth` | functional/include/fun/result/result.impl.h:104-110 | moving a Result and then destroying source and target destroys each one's member exactly once |
| `Pipe.Pipe` | functional/include/fun/pipe.h:9-15 | `pipe(x)` is x, and with functions the last one is applied to the pipe of all the earlier ones |
| `Pipe.Lift` | functional/include/fun/pipe.h:18-25 | `lift(f)` sends None to None and Some(v) to Some(f(v)), for every v |
| `Pipe.Bind` | functional/include/fun/pipe.h:28-35 | `bind(f)` sends None to None and Some(v) to f(v), for every v |
| `Pipe.PipeSteps` | functional/include/fun/pipe.h:9-15 | `pipe(x)` is x, and `pipe(x, f, rest...)` is `pipe(f(x), rest...)` |
| `Pipe.PipeAppend` | functional/include/fun/pipe.h:12-15 | piping through two chains in turn is piping through their concatenation |
| `Pipe.PipeIsLeftToRight` | functional/include/fun/pipe.h:12-15 | `pipe` applies functions left to right: it equals applying the last function to the result of all the earlier ones |
| `Pipe.LiftIsMap` | functional/include/fun/pipe.h:18-25 | `lift(f)(m)` is `m.map(f)` |
| `Pipe.BindIsAndThen` | functional/include/fun/pipe.h:28-35 | `bind(f)(m)` is `m.and_then(f)` |
| `Pipe.Binds` | functional/include/fun/pipe.h:28-35 | `bind` of every function of a chain, one step per function, in order |
| `Pipe.PipeBindsOfNone` | functional/include/fun/pipe.h:28-35 | a chain of binds started from None is None |
| `Pipe.PipeBindsIsChain` | functional/include/fun/pipe.h:12-35 | piping a value through binds is the reference chain, which stops at the first None |
| `Pipe.ChainFailurePersists` | functional/include/fun/pipe.h:28-35 | once a prefix of a bind chain has failed, no later step changes the result |
| `Pipe.ChainAppend` | functional/include/fun/pipe.h:28-35 | a bind chain splits at any point into two chains joined by `and_then` |
| `Pipe.ExampleProgram` | test/all_tests.cpp:917-929 | the example program's pipe of "345" through `safe_cstr` and `small_str` yields "345"; an added case shows "34" falling back to "failure" |

## Left out

- `Option::ConstIter` (`cbegin`, `cend`, the const `begin`/`end`) is the same as `Iter` with a const pointer. Dafny has no const pointers, so only `Iter` is modelled.
- Consuming combinators on the Option object: `map`, `map_or`, `map_or_else`, `and_then`, `or_else`, `filter`, `ok_or_else` and `unwrap_or_default` are modelled on values only. `OptionObj.Match` and `OptionObj.OkOr` show the common pattern on the object: an unwrap that leaves the receiver None, then the value-level function. The same holds for Result's `map`, `map_err`, `and_then` and `or_else`, with `ResultObj.Match` on the object.
- `cloned()` differs from `clone()` only for reference payloads, by copying the referent. The reference-payload `Option<T&>` class is modelled only through its storage cell, `OptionUnionRef`.
- The `Option` class is modelled over the general cell only. The reference and empty-base cells are modelled on their own, but not wrapped in an `OptionObj`. `some_ref`, `some_default` and the `as_const_*` forms are therefore covered by `OptionUnionRef.Of`, `OptionObj.Forward` and `OptionObj.AsRef`.
- Reference payloads in Result are not modelled: the `ok_ref`, `ok_cref`, `err_ref` and `err_cref` helpers and `as_ref`/`as_cref`. The same goes for the `return_ok`/`return_err` family, which is declared but never defined, and for `ok_val`.
- Moved-from payloads: a moved-from Result member (`MovedFrom`) carries no value. Moved-from payloads in the Option cell are destroyed at once, as `dump` does.
- OptionInner.OptionUnionEmpty: its constructors (`constructor`, `FromValue`, `CopyFrom`, `MoveFrom`), `Dump` and `Emplace` track only the tag. In the source the base object *is* the payload. It is built by every constructor, including `T()` for the NONE cell (`functional/include/fun/option/option_inner.h:41`), so it exists in both states and lives as long as the cell. `dump` moves out of it without destroying it, and `emplace` builds a temporary `T` and discards it (`:72`). None of these constructions, destructions or temporaries is counted, so the exactly-once property is not stated for this shape.
- Raw memory: the union layout, `construct_at`, `sizeof`, and which shape the compiler selects. These are represented by the three classes and the ghost counters.
- `pipe` is modelled on chains of functions of one type. The source's variadic `pipe` also lets the type change from step to step.
- Callbacks are pure functions. The only places where a callback's effect is modelled are `UnvoidCallVoid` and `UnvoidCallValue`, where the effect is an explicit world parameter.
- Payload equality: `OptionInner.OptionUnion.Equals`, `OptionInner.OptionUnionEmpty.Equals`, `Options.Eq`, `Results.Eq` and `ResultObjects.ResultObj.Equals` compare payloads with Dafny's value equality. The source calls the payload type's own `operator==`, which is assumed here to be value equality. Empty payload types are modelled as Unit, so two present empty-base cells always compare equal, even where a user type's `operator==` would say otherwise.
- Pipe.Lift, Pipe.Bind: payload types are restricted to types without references (`T(!new)`) so that their contracts can speak of every payload. `Binds` and the lemmas about bind chains carry the same restriction; the source has none.
- Stream output (`operator<<`), `zip`, the `try.h` early-return macros, and the test harness are outside the core.

## Findings

| source | as written | input that shows it | evidently intended | confidence | as-written member | corrected member |
|---|---|---|---|---|---|---|
| functional/include/fun/result/result.impl.h:79-85 | `dump_ok` moves the payload out and runs `_ok.~Sized<T>()`, but leaves `_variant == Ok`. `~Result` then runs `_ok.~Sized<T>()` again, so the member is destroyed twice. This affects every `unwrap`, `unwrap_or`, `ok`, `match`, `map` and move constructor on Ok. | test/all_tests.cpp:656: `Result<DestructionCounter, Unit>(make_ok(flag)).unwrap()`. The temporary's Ok member is destroyed once by `dump_ok` and once by `~Result`, so the flag the test asserts false becomes true. | each member object is destroyed exactly once: the moved-from member is left for the destructor, or the tag is changed so the destructor skips it | not executed | `ResultObjects.ResultObj.DumpOkAsWritten`, `ResultObjects.UnwrapTemporaryAsWritten` (ends with 1 constructed and 2 destroyed) | `ResultObjects.ResultObj.DumpOk`, `ResultObjects.UnwrapTemporary` (1 constructed, 1 destroyed) |
| functional/include/fun/result/result.impl.h:88-94 | `dump_err` runs `_err.~Sized<E>()` and keeps `_variant == Err`, so `~Result` destroys the Err member a second time | test/all_tests.cpp:666: `Result<Unit, DestructionCounter>(make_err(flag)).unwrap_err()` | each Err member object is destroyed exactly once | not executed | `ResultObjects.ResultObj.DumpErrAsWritten`, `ResultObjects.UnwrapErrTemporaryAsWritten` | `ResultObjects.ResultObj.DumpErr`, `ResultObjects.UnwrapErrTemporary` |
