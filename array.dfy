/** The `Array` wrapper class: a typecode, the engine it talks to, and the
    engine array it currently owns ("self.array"). */
module Wrapper {
  import opened Python
  import opened Engine
  import opened Checks
  import opened Appending

  /** The value popped and the engine contents left behind. */
  datatype Popped = Popped(out: Result<Value>, storage: Storage)

  /** `__setitem__(key, value)`: the index check, then the overflow check,
      and only then the engine write for the array's typecode. */
  function SetItemStep(lib: Lib, typecode: string, s: Storage, key: int, value: Value): (r: Step)
    ensures r.out == Ok <==> -|s| <= key < |s| && OverflowCheck(value) == Ok
    ensures IndexCheck(|s|, key) != Ok ==> r == Step(Raise(IndexError), s)
    ensures IndexCheck(|s|, key) == Ok && OverflowCheck(value) != Ok ==> r == Step(OverflowCheck(value), s)
    ensures r.out != Ok ==> r.storage == s
    ensures r.out == Ok && typecode == "i" ==> r.storage == lib.insertLongToPos(s, value, key)
    ensures r.out == Ok && typecode == "d" ==> r.storage == lib.insertDoubleToPos(s, value, key)
    ensures typecode != "i" && typecode != "d" ==> r.storage == s
  {
    var check := IndexCheck(|s|, key);
    if check != Ok then Step(check, s)
    else
      var range := OverflowCheck(value);
      if range != Ok then Step(range, s)
      else if typecode == "i" then Step(Ok, lib.insertLongToPos(s, value, key))
      else if typecode == "d" then Step(Ok, lib.insertDoubleToPos(s, value, key))
      else Step(Ok, s)
  }

  /** `pop(pos)`: the engine builds a copy without the slot; a nonzero
      result code swaps it in and returns the value, a zero code raises
      IndexError over the old contents. On the mixed typecode neither popLong
      nor popDouble is called, so the result stays None and reading its
      code raises. */
  function PopStep(lib: Lib, typecode: string, s: Storage, pos: int): (r: Popped)
    ensures r.out.Failure? ==> r.storage == s
    ensures typecode == "i" ==>
      var c := lib.popLong(s, pos);
      if c.answer.resultCode != 0 then r == Popped(Success(Int(c.answer.result)), c.dest)
      else r.out == Failure(IndexError)
    ensures typecode == "d" ==>
      var c := lib.popDouble(s, pos);
      if c.answer.resultCode != 0 then r == Popped(Success(Float(c.answer.result)), c.dest)
      else r.out == Failure(IndexError)
    ensures typecode != "i" && typecode != "d" ==> r.out == Failure(AttributeError)
  {
    if typecode == "i" then
      var c := lib.popLong(s, pos);
      if c.answer.resultCode != 0 then Popped(Success(Int(c.answer.result)), c.dest)
      else Popped(Failure(IndexError), s)
    else if typecode == "d" then
      var c := lib.popDouble(s, pos);
      if c.answer.resultCode != 0 then Popped(Success(Float(c.answer.result)), c.dest)
      else Popped(Failure(IndexError), s)
    else
      Popped(Failure(AttributeError), s)
  }

  /** `remove(value)`: only the engine's answer -1 means "not found"; any
      other answer swaps in the engine's copy. On the mixed typecode the
      answer stays 0, so the freshly initialised, empty copy is swapped in. */
  function RemoveStep(lib: Lib, typecode: string, s: Storage, value: Value): (r: Step)
    ensures r.out != Ok ==> r == Step(Raise(ValueError), s)
    ensures typecode == "i" ==>
      (r.out == Ok <==> lib.removeLong(s, value).answer != -1)
      && (r.out == Ok ==> r.storage == lib.removeLong(s, value).dest)
    ensures typecode == "d" ==>
      (r.out == Ok <==> lib.removeDouble(s, value).answer != -1)
      && (r.out == Ok ==> r.storage == lib.removeDouble(s, value).dest)
    ensures typecode != "i" && typecode != "d" ==> r == Step(Ok, [])
  {
    var c := if typecode == "i" then lib.removeLong(s, value)
             else if typecode == "d" then lib.removeDouble(s, value)
             else Filled(0, []);
    if c.answer == -1 then Step(Raise(ValueError), s) else Step(Ok, c.dest)
  }

  /** `__init__(typecode, initializer)`: the typecode gate, then a fresh
      empty engine array and one `append` per initializer element. */
  function Init(lib: Lib, typecode: string, initializer: seq<Value>): (r: Result<Storage>)
    ensures !Supported(typecode) ==> r == Failure(TypeError)
    ensures r.Success? <==> Supported(typecode) && forall k :: 0 <= k < |initializer| ==> Accepted(typecode, initializer[k])
    ensures Supported(typecode) && initializer == [] ==> r == Success([])
  {
    if TypecodeCheck(typecode) != Ok then Failure(TypeError)
    else
      var r := AppendAll(lib, typecode, [], initializer);
      AppendAllRaisesIffRefused(lib, typecode, [], initializer);
      if r.out == Ok then Success(r.storage) else Failure(r.out.error)
  }

  /** On a double array the overflow check runs on `self[key] = value` but
      not on `append`: an int above 2147483647 is appended, yet refused when
      it is stored over an existing slot. */
  lemma DoubleArrayRangeCheckedOnlyOnSetItem(lib: Lib, s: Storage, key: int, i: int)
    requires i > Int32Max && -|s| <= key < |s|
    ensures AppendOne(lib, "d", s, Int(i)) == Step(Ok, lib.insertDouble(s, Int(i)))
    ensures SetItemStep(lib, "d", s, key, Int(i)) == Step(Raise(OverflowError), s)
  {
  }

  // Each state-changing method of `Array` below is proved equal to the
  // function above (or in `Appending`) that describes it: the function
  // carries the promises, the method shows the Python code's steps meet them.
  class Array {
    const lib: Lib
    const typecode: string
    var storage: Storage

    /** Allocation of the object with a freshly initialised, empty engine
        array; the checks and the initializer loop are in `Create`. */
    constructor (lib: Lib, typecode: string)
      ensures this.lib == lib && this.typecode == typecode && storage == []
    {
      this.lib := lib;
      this.typecode := typecode;
      storage := [];
    }

    /** `Array(typecode, initializer)`. */
    static method Create(lib: Lib, typecode: string, initializer: seq<Value>) returns (r: Result<Array>)
      ensures r.Success? <==> Init(lib, typecode, initializer).Success?
      ensures r.Failure? ==> r.error == Init(lib, typecode, initializer).error
      ensures r.Success? ==> fresh(r.value) && r.value.lib == lib && r.value.typecode == typecode
                             && r.value.storage == Init(lib, typecode, initializer).value
    {
      if TypecodeCheck(typecode) != Ok {
        return Failure(TypeError);
      }
      var a := new Array(lib, typecode);
      var i := 0;
      while i < |initializer|
        invariant 0 <= i <= |initializer|
        invariant fresh(a) && a.lib == lib && a.typecode == typecode
        invariant AppendAll(lib, typecode, [], initializer) == AppendAll(lib, typecode, a.storage, initializer[i..])
      {
        assert initializer[i..][1..] == initializer[i + 1..];
        var out := a.Append(initializer[i]);
        if out != Ok {
          return Failure(out.error);
        }
        i := i + 1;
      }
      return Success(a);
    }

    /** `len(self)`: the number of occupied slots. It is 0 exactly when
        every index raises IndexError. */
    function Len(): (n: nat)
      reads this
      ensures n == 0 <==> forall pos :: GetItem(pos) == Failure(IndexError)
    {
      assert |storage| > 0 ==> GetItem(0) != Failure(IndexError);
      |storage|
    }

    /** `self[pos]`: the index check, then the engine's kind tag at `pos`
        selects the payload to return. `pos` reaches the engine as given;
        a negative one is not rewritten to `len + pos`. */
    function GetItem(pos: int): (r: Result<Value>)
      reads this
      ensures r == Failure(IndexError) <==> !(-|storage| <= pos < |storage|)
      ensures r.Success? <==> -|storage| <= pos < |storage| && lib.returnType(storage, pos) in {0, 1}
      ensures r.Success? && lib.returnType(storage, pos) == 0 ==> r.value == Int(lib.returnLong(storage, pos))
      ensures r.Success? && lib.returnType(storage, pos) == 1 ==> r.value == Float(lib.returnDouble(storage, pos))
      ensures r.Failure? ==> r.error == IndexError || r.error == ValueError
    {
      if IndexCheck(|storage|, pos) != Ok then Failure(IndexError)
      else
        var tag := lib.returnType(storage, pos);
        if tag == 0 then Success(Int(lib.returnLong(storage, pos)))
        else if tag == 1 then Success(Float(lib.returnDouble(storage, pos)))
        else Failure(ValueError)
    }

    /** `self[key] = value`. */
    method SetItem(key: int, value: Value) returns (out: Outcome)
      modifies this
      ensures Step(out, storage) == SetItemStep(lib, typecode, old(storage), key, value)
    {
      out := IndexCheck(|storage|, key);
      if out != Ok {
        return;
      }
      out := OverflowCheck(value);
      if out != Ok {
        return;
      }
      if typecode == "i" {
        storage := lib.insertLongToPos(storage, value, key);
      } else if typecode == "d" {
        storage := lib.insertDoubleToPos(storage, value, key);
      }
    }

    /** Element `i` of `self` and of `other` exist and compare equal. */
    predicate Matches(i: int, other: seq<Value>, eq: (Value, Value) -> bool)
      reads this
    {
      GetItem(i).Success? && 0 <= i < |other| && eq(GetItem(i).value, other[i])
    }

    /** `self == other`: compares `self[i]` with `other[i]` for every index
        of `self`, stopping at the first difference; `other` may be longer,
        and an `other` that is shorter raises IndexError on its first
        missing index. Python's `==` on two elements is `eq`. */
    method Equals(other: seq<Value>, eq: (Value, Value) -> bool) returns (r: Result<bool>)
      ensures r == Success(true) <==> forall i :: 0 <= i < Len() ==> Matches(i, other, eq)
      ensures Len() == 0 ==> r == Success(true)
      ensures r == Success(false) ==>
        exists k :: 0 <= k < Len() && (forall i :: 0 <= i < k ==> Matches(i, other, eq))
          && GetItem(k).Success? && k < |other| && !eq(GetItem(k).value, other[k])
      ensures r.Failure? ==>
        exists k :: 0 <= k < Len() && (forall i :: 0 <= i < k ==> Matches(i, other, eq))
          && (if GetItem(k).Failure? then r.error == GetItem(k).error
              else k >= |other| && r.error == IndexError)
    {
      var i := 0;
      while i < Len()
        invariant 0 <= i <= Len()
        invariant forall j :: 0 <= j < i ==> Matches(j, other, eq)
      {
        var mine := GetItem(i);
        if mine.Failure? {
          assert !Matches(i, other, eq);
          return Failure(mine.error);
        }
        if i >= |other| {
          assert !Matches(i, other, eq);
          return Failure(IndexError);
        }
        if !eq(mine.value, other[i]) {
          assert !Matches(i, other, eq);
          return Success(false);
        }
        i := i + 1;
      }
      return Success(true);
    }

    /** `pop(pos=-1)`. */
    method Pop(pos: int := -1) returns (r: Result<Value>)
      modifies this
      ensures Popped(r, storage) == PopStep(lib, typecode, old(storage), pos)
    {
      if typecode == "i" {
        var c := lib.popLong(storage, pos);
        if c.answer.resultCode != 0 {
          storage := c.dest;
          return Success(Int(c.answer.result));
        }
      } else if typecode == "d" {
        var c := lib.popDouble(storage, pos);
        if c.answer.resultCode != 0 {
          storage := c.dest;
          return Success(Float(c.answer.result));
        }
      } else {
        return Failure(AttributeError);
      }
      return Failure(IndexError);
    }

    /** `search(arg)`: the engine's binary search; its answer -1, the only
        one on the mixed typecode, becomes ValueError, and any other answer
        is returned as it is. */
    function Search(arg: Value): (r: Result<int>)
      reads this
      ensures r.Failure? ==> r.error == ValueError
      ensures typecode == "i" ==>
        r == if lib.binarySearchLong(storage, arg) == -1 then Failure(ValueError)
             else Success(lib.binarySearchLong(storage, arg))
      ensures typecode == "d" ==>
        r == if lib.binarySearchDouble(storage, arg) == -1 then Failure(ValueError)
             else Success(lib.binarySearchDouble(storage, arg))
      ensures typecode != "i" && typecode != "d" ==> r == Failure(ValueError)
      ensures r.Success? ==> r.value != -1
    {
      var pos := if typecode == "i" then lib.binarySearchLong(storage, arg)
                 else if typecode == "d" then lib.binarySearchDouble(storage, arg)
                 else -1;
      if pos == -1 then Failure(ValueError) else Success(pos)
    }

    /** `remove(value)`. */
    method Remove(value: Value) returns (out: Outcome)
      modifies this
      ensures Step(out, storage) == RemoveStep(lib, typecode, old(storage), value)
    {
      var res := 0;
      var temp: Storage := [];
      if typecode == "i" {
        var c := lib.removeLong(storage, value);
        res, temp := c.answer, c.dest;
      } else if typecode == "d" {
        var c := lib.removeDouble(storage, value);
        res, temp := c.answer, c.dest;
      }
      if res == -1 {
        return Raise(ValueError);
      }
      storage := temp;
      return Ok;
    }

    /** `__insert_long(arg)`. */
    method InsertLong(arg: int) returns (out: Outcome)
      modifies this
      ensures Step(out, storage) == InsertLongStep(lib, old(storage), arg)
    {
      out := OverflowCheck(Int(arg));
      if out == Ok {
        storage := lib.insertLong(storage, arg);
      }
    }

    /** `__insert_double(arg)`: no check at all. */
    method InsertDouble(arg: Value)
      modifies this
      ensures storage == lib.insertDouble(old(storage), arg)
    {
      storage := lib.insertDouble(storage, arg);
    }

    /** `append(arg)`. */
    method Append(arg: Value) returns (out: Outcome)
      modifies this
      decreases arg
      ensures Step(out, storage) == AppendOne(lib, typecode, old(storage), arg)
    {
      if typecode == "a" {
        match arg
        case Int(i) =>
          out := InsertLong(i);
        case Float(_) =>
          InsertDouble(arg);
          out := Ok;
        case List(items) =>
          var k := 0;
          while k < |items|
            invariant 0 <= k <= |items|
            invariant AppendAll(lib, typecode, old(storage), items) == AppendAll(lib, typecode, storage, items[k..])
          {
            assert items[k..][1..] == items[k + 1..];
            out := Append(items[k]);
            if out != Ok {
              return;
            }
            k := k + 1;
          }
          out := Ok;
        case Other =>
          out := Raise(TypeError);
      } else if typecode == "i" {
        if arg.Int? {
          out := InsertLong(arg.i);
        } else {
          out := Raise(TypeError);
        }
      } else if typecode == "d" {
        if arg.Int? || arg.Float? {
          InsertDouble(arg);
          out := Ok;
        } else {
          out := Raise(TypeError);
        }
      } else {
        out := Ok;
      }
    }

    /** `insert(pos, arg)`: no check of any kind; the engine's copy with the
        insertion always replaces the old contents, and on the mixed
        typecode the freshly initialised, empty copy does. */
    method Insert(pos: int, arg: Value)
      modifies this
      ensures typecode == "i" ==> storage == lib.insertLongAtPos(old(storage), arg, pos)
      ensures typecode == "d" ==> storage == lib.insertDoubleAtPos(old(storage), arg, pos)
      ensures typecode != "i" && typecode != "d" ==> storage == []
    {
      var temp: Storage := [];
      if typecode == "i" {
        temp := lib.insertLongAtPos(storage, arg, pos);
      } else if typecode == "d" {
        temp := lib.insertDoubleAtPos(storage, arg, pos);
      }
      storage := temp;
    }
  }
}
