/** The wrapper's own validators: the typecode gate of the constructor, the
    index check and the long-range (overflow) check. */
module Checks {
  import opened Python

  /** The largest value the overflow check lets through. */
  const Int32Max: int := 2147483647

  /** The typecodes the constructor accepts: long, double and mixed. */
  predicate Supported(typecode: string) {
    typecode == "i" || typecode == "d" || typecode == "a"
  }

  /** The constructor's typecode test. */
  function TypecodeCheck(typecode: string): (r: Outcome)
    ensures r == Ok <==> Supported(typecode)
    ensures r != Ok ==> r == Raise(TypeError)
  {
    if typecode in ["i", "d", "a"] then Ok else Raise(TypeError)
  }

  /** The index check, for an array of `len` elements. */
  function IndexCheck(len: nat, pos: int): (r: Outcome)
    ensures len == 0 ==> r == Raise(IndexError)
    ensures r == Ok <==> -(len as int) <= pos < len
    ensures r != Ok ==> r == Raise(IndexError)
  {
    if len == 0 then Raise(IndexError)
    else if pos < -(len as int) || pos >= len then Raise(IndexError)
    else Ok
  }

  /** `pos` names element `k` under Python's convention for sequence
      indices: `k` itself, or `k - len` counting from the end. */
  predicate Names(len: nat, pos: int, k: int) {
    0 <= k < len && (pos == k || pos == k - len)
  }

  /** The index check accepts exactly the indices that name an element,
      and each of them names only one. */
  lemma IndexCheckAcceptsPythonIndices(len: nat, pos: int)
    ensures IndexCheck(len, pos) == Ok <==> exists k :: Names(len, pos, k)
    ensures forall k, k' :: Names(len, pos, k) && Names(len, pos, k') ==> k == k'
  {
    if IndexCheck(len, pos) == Ok {
      var k := if pos >= 0 then pos else pos + len;
      assert Names(len, pos, k);
    }
  }

  /** The overflow check. Only an upper bound is enforced; asking whether a
      list or another non-number exceeds an int raises TypeError in Python. */
  function OverflowCheck(v: Value): (r: Outcome)
    ensures v.Int? ==> (r == Ok <==> v.i <= Int32Max)
    ensures v.Int? && r != Ok ==> r == Raise(OverflowError)
    ensures v.Float? ==> r == (if v.f.exceedsInt32Max then Raise(OverflowError) else Ok)
    ensures v.List? || v.Other? ==> r == Raise(TypeError)
  {
    match v
    case Int(i) => if i > Int32Max then Raise(OverflowError) else Ok
    case Float(d) => if d.exceedsInt32Max then Raise(OverflowError) else Ok
    case List(_) => Raise(TypeError)
    case Other => Raise(TypeError)
  }
}
