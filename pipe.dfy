/**
 * Left-to-right application, `pipe(x, f1, ..., fn)`, and the two adapters
 * that turn a plain function into a step on Options: `lift` (through `map`)
 * and `bind` (through `and_then`). The variadic argument list becomes a
 * sequence of functions on one type.
 */
module Pipe {
  import opened Options

  /** `pipe(x)` and `pipe(x, f, rest...)`: `f` is applied first, then the
      rest; so the last function sees the result of all the earlier ones. */
  function Pipe<T>(x: T, fs: seq<T -> T>): (r: T)
    ensures |fs| == 0 ==> r == x
    ensures |fs| > 0 ==> r == fs[|fs| - 1](Pipe(x, fs[..|fs| - 1]))
    decreases |fs|
  {
    if |fs| == 0 then x
    else
      assert |fs| > 1 ==> fs[..|fs| - 1][1..] == fs[1..][..|fs| - 2];
      Pipe(fs[0](x), fs[1..])
  }

  /** Reference definition: the last function is applied to the result of all the others. */
  function ApplyAll<T>(x: T, fs: seq<T -> T>): T
    decreases |fs|
  {
    if |fs| == 0 then x else fs[|fs| - 1](ApplyAll(x, fs[..|fs| - 1]))
  }

  /** `lift(f)`: the step `m => std::move(m).map(f)`. */
  function Lift<T(!new), U>(f: T -> U): (step: Option<T> -> Option<U>)
    ensures step(None) == None
    ensures forall v: T :: step(Some(v)) == Some(f(v))
  {
    (m: Option<T>) => m.Map(f)
  }

  /** `bind(f)`: the step `m => std::move(m).and_then(f)`. */
  function Bind<T(!new), U>(f: T -> Option<U>): (step: Option<T> -> Option<U>)
    ensures step(None) == None
    ensures forall v: T :: step(Some(v)) == f(v)
  {
    (m: Option<T>) => m.AndThen(f)
  }

  /** `bind` applied to every function of a chain, in order. */
  function Binds<T(!new)>(fs: seq<T -> Option<T>>): (bs: seq<Option<T> -> Option<T>>)
    ensures |bs| == |fs|
    ensures forall i :: 0 <= i < |fs| ==> bs[i] == Bind(fs[i])
  {
    seq(|fs|, i requires 0 <= i < |fs| => Bind(fs[i]))
  }

  /** Reference definition of a chain of binds started from a value: each
      step runs on the value the previous one produced, and the first step
      that yields None ends the chain with None. */
  function Chain<T>(x: T, fs: seq<T -> Option<T>>): Option<T>
    decreases |fs|
  {
    if |fs| == 0 then Some(x)
    else match fs[0](x)
      case None => None
      case Some(y) => Chain(y, fs[1..])
  }

  // ---------------------------------------------------------------------------
  // Laws

  /** `pipe(x)` is `x`, and `pipe(x, f, rest...)` is `pipe(f(x), rest...)`. */
  lemma PipeSteps<T>(x: T, f: T -> T, rest: seq<T -> T>)
    ensures Pipe(x, []) == x
    ensures Pipe(x, [f] + rest) == Pipe(f(x), rest)
  {
    assert ([f] + rest)[1..] == rest;
  }

  /** Piping through two chains one after the other is piping through their concatenation. */
  lemma {:induction false} PipeAppend<T>(x: T, fs: seq<T -> T>, gs: seq<T -> T>)
    ensures Pipe(x, fs + gs) == Pipe(Pipe(x, fs), gs)
    decreases |fs|
  {
    if |fs| == 0 {
      assert fs + gs == gs;
    } else {
      assert (fs + gs)[1..] == fs[1..] + gs;
      PipeAppend(fs[0](x), fs[1..], gs);
    }
  }

  /** Functions apply left to right: `pipe` agrees with applying the last
      function to the result of all the earlier ones. */
  lemma {:induction false} PipeIsLeftToRight<T>(x: T, fs: seq<T -> T>)
    ensures Pipe(x, fs) == ApplyAll(x, fs)
    decreases |fs|
  {
    if |fs| != 0 {
      PipeIsLeftToRight(x, fs[..|fs| - 1]);
    }
  }

  /** `lift(f)(m)` is `m.map(f)`, so it maps Some(v) to Some(f(v)) and None to None. */
  lemma LiftIsMap<T(!new), U>(f: T -> U, m: Option<T>, v: T)
    ensures Lift(f)(m) == m.Map(f)
    ensures Lift(f)(Some(v)) == Some(f(v))
    ensures Lift(f)(None) == None
  {
  }

  /** `bind(f)(m)` is `m.and_then(f)`, so it maps Some(v) to f(v) and None to None. */
  lemma BindIsAndThen<T(!new), U>(f: T -> Option<U>, m: Option<T>, v: T)
    ensures Bind(f)(m) == m.AndThen(f)
    ensures Bind(f)(Some(v)) == f(v)
    ensures Bind(f)(None) == None
  {
  }

  /** A chain of binds started from None is None: no function is consulted. */
  lemma {:induction false} PipeBindsOfNone<T(!new)>(fs: seq<T -> Option<T>>)
    ensures Pipe(None, Binds(fs)) == None
    decreases |fs|
  {
    if |fs| != 0 {
      assert Binds(fs)[1..] == Binds(fs[1..]);
      PipeBindsOfNone(fs[1..]);
    }
  }

  /** Piping a value through a chain of binds is the reference chain: it
      short-circuits at the first step that yields None. */
  lemma {:induction false} PipeBindsIsChain<T(!new)>(x: T, fs: seq<T -> Option<T>>)
    ensures Pipe(Some(x), Binds(fs)) == Chain(x, fs)
    decreases |fs|
  {
    if |fs| != 0 {
      assert Binds(fs)[1..] == Binds(fs[1..]);
      assert Pipe(Some(x), Binds(fs)) == Pipe(fs[0](x), Binds(fs[1..]));
      match fs[0](x)
      case None =>
        PipeBindsOfNone(fs[1..]);
      case Some(y) =>
        PipeBindsIsChain(y, fs[1..]);
    }
  }

  /** Once a prefix of a chain has failed, no later step can revive it. */
  lemma {:induction false} ChainFailurePersists<T>(x: T, fs: seq<T -> Option<T>>, gs: seq<T -> Option<T>>)
    requires Chain(x, fs) == None
    ensures Chain(x, fs + gs) == None
    decreases |fs|
  {
    assert |fs| != 0;
    assert (fs + gs)[0] == fs[0];
    assert (fs + gs)[1..] == fs[1..] + gs;
    match fs[0](x)
    case None =>
    case Some(y) =>
      ChainFailurePersists(y, fs[1..], gs);
  }

  /** A chain splits at any point into two chains joined by `and_then`. */
  lemma {:induction false} ChainAppend<T>(x: T, fs: seq<T -> Option<T>>, gs: seq<T -> Option<T>>)
    ensures Chain(x, fs + gs) == Chain(x, fs).AndThen(y => Chain(y, gs))
    decreases |fs|
  {
    if |fs| == 0 {
      assert fs + gs == gs;
    } else {
      assert (fs + gs)[0] == fs[0];
      assert (fs + gs)[1..] == fs[1..] + gs;
      match fs[0](x)
      case None =>
      case Some(y) =>
        ChainAppend(y, fs[1..], gs);
    }
  }

  /** The empty-string check of the source's example program. */
  function SafeCStr(s: string): Option<string> {
    if |s| == 0 then None else Some(s)
  }

  /** The length check of the source's example program: shorter than three is None. */
  function SmallStr(s: string): Option<string> {
    if |s| < 3 then None else Some(s)
  }

  /** The source's example program pipes "345", which passes both checks, so
      the chain yields it. The "34" case is an added check: it fails the
      second check and falls back to "failure". */
  lemma ExampleProgram()
    ensures Pipe(Some("345"), [Bind(SafeCStr), Bind(SmallStr)]).UnwrapOr("failure") == "345"
    ensures Pipe(Some("34"), [Bind(SafeCStr), Bind(SmallStr)]).UnwrapOr("failure") == "failure"
  {
    var steps := [Bind(SafeCStr), Bind(SmallStr)];
    assert steps == Binds([SafeCStr, SmallStr]);
    var checks := [SafeCStr, SmallStr];
    assert checks[1..] == [SmallStr] && [SmallStr][1..] == [];
    PipeBindsIsChain("345", checks);
    assert Chain("345", [SmallStr]) == Some("345");
    PipeBindsIsChain("34", checks);
    assert Chain("34", [SmallStr]) == None;
  }
}
