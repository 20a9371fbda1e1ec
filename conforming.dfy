/** What the wrapper delivers when the engine's insertLong appends at the
    end, as its name says. This is an assumption about the engine, stated as
    a predicate and required explicitly by every lemma that uses it. */
module Conforming {
  import opened Python
  import opened Engine
  import opened Checks
  import opened Appending
  import opened Wrapper

  /** The smallest value of a C long (64 bits), the type of insertLong's
      argument. The overflow check does not enforce it. */
  const LongMin: int := -0x8000_0000_0000_0000

  /** insertLong adds one long slot after the existing ones, for every
      argument a C long can hold. */
  ghost predicate InsertLongAppends(lib: Lib) {
    forall s, x :: LongMin <= x <= Int32Max ==> lib.insertLong(s, x) == s + [Long(x)]
  }

  // `Ints` and `Longs` only build the data the lemmas below talk about;
  // they model nothing in the wrapper.

  /** Python ints, as an initializer list. */
  function Ints(xs: seq<int>): (r: seq<Value>)
    ensures |r| == |xs| && forall k :: 0 <= k < |xs| ==> r[k] == Int(xs[k])
  {
    seq(|xs|, k requires 0 <= k < |xs| => Int(xs[k]))
  }

  /** The long slots holding `xs`, in order. */
  function Longs(xs: seq<int>): (r: seq<Element>)
    ensures |r| == |xs| && forall k :: 0 <= k < |xs| ==> r[k] == Long(xs[k])
  {
    seq(|xs|, k requires 0 <= k < |xs| => Long(xs[k]))
  }

  /** Appending ints that all pass the overflow check to a long array adds
      their slots after the existing ones, in order. */
  lemma {:induction false} LongAppendsAddSlots(lib: Lib, s: Storage, xs: seq<int>)
    requires InsertLongAppends(lib)
    requires forall k :: 0 <= k < |xs| ==> LongMin <= xs[k] <= Int32Max
    ensures AppendAll(lib, "i", s, Ints(xs)) == Step(Ok, s + Longs(xs))
    decreases xs
  {
    if xs == [] {
      assert s + Longs(xs) == s;
    } else {
      assert Ints(xs)[1..] == Ints(xs[1..]);
      LongAppendsAddSlots(lib, s + [Long(xs[0])], xs[1..]);
      assert s + [Long(xs[0])] + Longs(xs[1..]) == s + Longs(xs);
    }
  }

  /** `Array("i", xs)` over such an engine holds exactly `xs`, so its length
      is `len(xs)`; it raises OverflowError when some element is too big.
      Ints below `LongMin` pass the wrapper's check but cannot reach the
      engine unchanged, so they are excluded. */
  lemma LongArrayFromInitializer(lib: Lib, xs: seq<int>)
    requires InsertLongAppends(lib)
    requires forall k :: 0 <= k < |xs| ==> LongMin <= xs[k]
    ensures (forall k :: 0 <= k < |xs| ==> xs[k] <= Int32Max) ==> Init(lib, "i", Ints(xs)) == Success(Longs(xs))
    ensures (exists k :: 0 <= k < |xs| && xs[k] > Int32Max) ==> Init(lib, "i", Ints(xs)) == Failure(OverflowError)
  {
    if forall k :: 0 <= k < |xs| ==> xs[k] <= Int32Max {
      LongAppendsAddSlots(lib, [], xs);
      assert [] + Longs(xs) == Longs(xs);
    } else {
      LongInitializerRaisesOverflow(lib, [], xs);
    }
  }

  /** A long initializer that fails fails with OverflowError: every element
      is an int, so the type test never raises. */
  lemma {:induction false} LongInitializerRaisesOverflow(lib: Lib, s: Storage, xs: seq<int>)
    ensures AppendAll(lib, "i", s, Ints(xs)).out != Ok ==> AppendAll(lib, "i", s, Ints(xs)).out == Raise(OverflowError)
    decreases xs
  {
    if xs != [] {
      assert Ints(xs)[1..] == Ints(xs[1..]);
      var first := AppendOne(lib, "i", s, Int(xs[0]));
      if first.out == Ok {
        LongInitializerRaisesOverflow(lib, first.storage, xs[1..]);
      }
    }
  }

  /** The boundary: appending 2147483647 to a long array goes to the engine,
      appending 2147483648 raises OverflowError and leaves it as it was. */
  lemma OverflowBoundary(lib: Lib, s: Storage)
    requires InsertLongAppends(lib)
    ensures AppendOne(lib, "i", s, Int(2147483647)) == Step(Ok, s + [Long(2147483647)])
    ensures AppendOne(lib, "i", s, Int(2147483648)) == Step(Raise(OverflowError), s)
  {
  }
}
