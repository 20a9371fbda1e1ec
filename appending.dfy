/** What `append` does, and the constructor's initializer loop built on it. */
module Appending {
  import opened Python
  import opened Engine
  import opened Checks

  /** The outcome of a call and the engine contents it leaves behind. */
  datatype Step = Step(out: Outcome, storage: Storage)

  /** `__insert_long`: the overflow check, then the engine's insertLong. */
  function InsertLongStep(lib: Lib, s: Storage, x: int): (r: Step)
    ensures r.out == Ok <==> x <= Int32Max
    ensures r.out != Ok ==> r == Step(Raise(OverflowError), s)
    ensures r.out == Ok ==> r.storage == lib.insertLong(s, x)
  {
    match OverflowCheck(Int(x))
    case Ok => Step(Ok, lib.insertLong(s, x))
    case Raise(e) => Step(Raise(e), s)
  }

  /** `append(arg)` on an array with the given typecode. On the mixed
      typecode a list is appended element by element, recursively. */
  function AppendOne(lib: Lib, typecode: string, s: Storage, arg: Value): (r: Step)
    decreases arg
    ensures typecode != "a" && r.out != Ok ==> r.storage == s
    ensures typecode == "i" && !arg.Int? ==> r == Step(Raise(TypeError), s)
    ensures typecode == "i" && arg.Int? ==> r == InsertLongStep(lib, s, arg.i)
    ensures typecode == "a" && arg.Int? ==> r == InsertLongStep(lib, s, arg.i)
    ensures typecode == "a" && arg.Float? ==> r == Step(Ok, lib.insertDouble(s, arg))
    ensures typecode == "a" && arg.Other? ==> r == Step(Raise(TypeError), s)
    ensures typecode == "d" && (arg.Int? || arg.Float?) ==> r == Step(Ok, lib.insertDouble(s, arg))
    ensures typecode == "d" && !(arg.Int? || arg.Float?) ==> r == Step(Raise(TypeError), s)
    ensures !Supported(typecode) ==> r == Step(Ok, s)
  {
    if typecode == "a" then
      match arg
      case Int(i) => InsertLongStep(lib, s, i)
      case Float(_) => Step(Ok, lib.insertDouble(s, arg))
      case List(items) => AppendAll(lib, typecode, s, items)
      case Other => Step(Raise(TypeError), s)
    else if typecode == "i" then
      if arg.Int? then InsertLongStep(lib, s, arg.i) else Step(Raise(TypeError), s)
    else if typecode == "d" then
      if arg.Int? || arg.Float? then Step(Ok, lib.insertDouble(s, arg)) else Step(Raise(TypeError), s)
    else
      Step(Ok, s)
  }

  /** Append the values left to right; the first exception stops the loop
      and escapes, and nothing appended before it is undone. */
  function AppendAll(lib: Lib, typecode: string, s: Storage, xs: seq<Value>): (r: Step)
    decreases xs
    ensures xs == [] ==> r == Step(Ok, s)
    ensures |xs| == 1 ==> r == AppendOne(lib, typecode, s, xs[0])
    ensures !Supported(typecode) ==> r == Step(Ok, s)
  {
    if xs == [] then Step(Ok, s)
    else
      var first := AppendOne(lib, typecode, s, xs[0]);
      if first.out != Ok then first else AppendAll(lib, typecode, first.storage, xs[1..])
  }

  /** Which arguments `append` takes without raising, stated on its own. */
  predicate Accepted(typecode: string, v: Value)
    decreases v
  {
    if typecode == "a" then
      match v
      case Int(i) => i <= Int32Max
      case Float(_) => true
      case List(items) => forall k :: 0 <= k < |items| ==> Accepted(typecode, items[k])
      case Other => false
    else if typecode == "i" then v.Int? && v.i <= Int32Max
    else if typecode == "d" then v.Int? || v.Float?
    else true
  }

  /** `append` raises exactly on the arguments `Accepted` refuses. */
  lemma {:induction false} AppendOneRaisesIffRefused(lib: Lib, typecode: string, s: Storage, v: Value)
    ensures AppendOne(lib, typecode, s, v).out == Ok <==> Accepted(typecode, v)
    decreases v
  {
    if typecode == "a" && v.List? {
      AppendAllRaisesIffRefused(lib, typecode, s, v.items);
    }
  }

  /** Appending a sequence succeeds exactly when every element is accepted. */
  lemma {:induction false} AppendAllRaisesIffRefused(lib: Lib, typecode: string, s: Storage, xs: seq<Value>)
    ensures AppendAll(lib, typecode, s, xs).out == Ok <==> forall k :: 0 <= k < |xs| ==> Accepted(typecode, xs[k])
    decreases xs
  {
    if xs != [] {
      var first := AppendOne(lib, typecode, s, xs[0]);
      AppendOneRaisesIffRefused(lib, typecode, s, xs[0]);
      if first.out == Ok {
        AppendAllRaisesIffRefused(lib, typecode, first.storage, xs[1..]);
        assert forall k :: 1 <= k < |xs| ==> xs[k] == xs[1..][k - 1];
      }
    }
  }

  /** Appending `xs + ys` is appending `xs` and then, unless that raised,
      appending `ys` to the result. */
  lemma {:induction false} AppendAllConcat(lib: Lib, typecode: string, s: Storage, xs: seq<Value>, ys: seq<Value>)
    ensures AppendAll(lib, typecode, s, xs + ys)
         == (var r := AppendAll(lib, typecode, s, xs);
             if r.out != Ok then r else AppendAll(lib, typecode, r.storage, ys))
    decreases xs
  {
    if xs == [] {
      assert xs + ys == ys;
    } else {
      assert (xs + ys)[0] == xs[0];
      assert (xs + ys)[1..] == xs[1..] + ys;
      var first := AppendOne(lib, typecode, s, xs[0]);
      if first.out == Ok {
        AppendAllConcat(lib, typecode, first.storage, xs[1..], ys);
      }
    }
  }

  /** No rollback: when appending a sequence raises, some element `k` was
      refused, every element before it is appended, and the storage is what
      appending `xs[k]` to that prefix's result leaves (for long and double
      arrays, exactly the prefix's result). */
  lemma {:induction false} AppendAllKeepsPrefix(lib: Lib, typecode: string, s: Storage, xs: seq<Value>)
    ensures var r := AppendAll(lib, typecode, s, xs);
      r.out != Ok ==>
        exists k :: 0 <= k < |xs| && AppendAll(lib, typecode, s, xs[..k]).out == Ok
          && !Accepted(typecode, xs[k])
          && r == AppendOne(lib, typecode, AppendAll(lib, typecode, s, xs[..k]).storage, xs[k])
    decreases xs
  {
    var r := AppendAll(lib, typecode, s, xs);
    if xs != [] && r.out != Ok {
      var first := AppendOne(lib, typecode, s, xs[0]);
      if first.out != Ok {
        assert xs[..0] == [];
        AppendOneRaisesIffRefused(lib, typecode, s, xs[0]);
        assert AppendAll(lib, typecode, s, xs[..0]) == Step(Ok, s);
      } else {
        AppendAllKeepsPrefix(lib, typecode, first.storage, xs[1..]);
        var k :| 0 <= k < |xs[1..]| && AppendAll(lib, typecode, first.storage, xs[1..][..k]).out == Ok
          && !Accepted(typecode, xs[1..][k])
          && r == AppendOne(lib, typecode, AppendAll(lib, typecode, first.storage, xs[1..][..k]).storage, xs[1..][k]);
        var pre := xs[..k + 1];
        assert pre[0] == xs[0] && pre[1..] == xs[1..][..k];
        assert AppendAll(lib, typecode, s, pre) == AppendAll(lib, typecode, first.storage, xs[1..][..k]);
        assert xs[1..][k] == xs[k + 1];
      }
    }
  }

  /** The values a mixed-typecode `append` ends up inserting, in order:
      nested lists flattened. */
  function Leaves(v: Value): seq<Value>
    decreases v
  {
    match v
    case List(items) => LeavesAll(items)
    case _ => [v]
  }

  function LeavesAll(xs: seq<Value>): seq<Value>
    decreases xs
  {
    if xs == [] then [] else Leaves(xs[0]) + LeavesAll(xs[1..])
  }

  /** On the mixed typecode, appending a (nested) list is the same as
      appending its leaves one by one, in order. */
  lemma {:induction false} MixedAppendFlattens(lib: Lib, s: Storage, v: Value)
    ensures AppendOne(lib, "a", s, v) == AppendAll(lib, "a", s, Leaves(v))
    decreases v
  {
    if v.List? {
      MixedAppendAllFlattens(lib, s, v.items);
    } else {
      assert [v][1..] == [];
    }
  }

  lemma {:induction false} MixedAppendAllFlattens(lib: Lib, s: Storage, xs: seq<Value>)
    ensures AppendAll(lib, "a", s, xs) == AppendAll(lib, "a", s, LeavesAll(xs))
    decreases xs
  {
    if xs != [] {
      var first := AppendOne(lib, "a", s, xs[0]);
      MixedAppendFlattens(lib, s, xs[0]);
      AppendAllConcat(lib, "a", s, Leaves(xs[0]), LeavesAll(xs[1..]));
      if first.out == Ok {
        MixedAppendAllFlattens(lib, first.storage, xs[1..]);
      }
    }
  }
}
