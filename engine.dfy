/** The C storage engine behind the wrapper, as an oracle.

    The engine's code is not part of this model. Each call the wrapper makes
    into it, except initArray, getArrayLength, freeArray and insertInt, is a
    field of `Lib`: a total function from the engine's current contents (and
    the call's arguments) to its answer, with nothing assumed about it. Three
    things are fixed instead: getArrayLength is the number of occupied slots,
    initArray yields an empty array, and a call that builds a destination
    array (or only reads) leaves the array it is passed as it was. */
module Engine {
  import opened Python

  /** One occupied slot of the engine's buffer: a kind tag and its payload. */
  datatype Element = Long(l: int) | Dbl(d: Double)

  /** The occupied slots of an engine array; `len(self)` is their number. */
  type Storage = seq<Element>

  /** The pair the engine's popLong returns: a success flag and the value. */
  datatype LongPopResult = LongPopResult(resultCode: int, result: int)

  /** The pair the engine's popDouble returns: a success flag and the value. */
  datatype DoublePopResult = DoublePopResult(resultCode: int, result: Double)

  /** A call that fills a fresh destination array: the call's return value
      and the destination's contents afterwards. */
  datatype Filled<T> = Filled(answer: T, dest: Storage)

  /** The engine's entry points the wrapper uses. Positions are passed to the
      engine exactly as the caller gave them, negative ones included. */
  datatype Lib = Lib(
    insertLong: (Storage, int) -> Storage,                      // append a long
    insertDouble: (Storage, Value) -> Storage,                  // append a double
    returnType: (Storage, int) -> int,                          // kind tag at a position
    returnLong: (Storage, int) -> int,                          // long payload at a position
    returnDouble: (Storage, int) -> Double,                     // double payload at a position
    insertLongToPos: (Storage, Value, int) -> Storage,          // overwrite a slot (long)
    insertDoubleToPos: (Storage, Value, int) -> Storage,        // overwrite a slot (double)
    insertLongAtPos: (Storage, Value, int) -> Storage,          // copy with an insertion (long)
    insertDoubleAtPos: (Storage, Value, int) -> Storage,        // copy with an insertion (double)
    popLong: (Storage, int) -> Filled<LongPopResult>,           // copy without one slot (long)
    popDouble: (Storage, int) -> Filled<DoublePopResult>,       // copy without one slot (double)
    removeLong: (Storage, Value) -> Filled<int>,                // copy without a value (long)
    removeDouble: (Storage, Value) -> Filled<int>,              // copy without a value (double)
    binarySearchLong: (Storage, Value) -> int,                  // index of a value, or -1
    binarySearchDouble: (Storage, Value) -> int                 // index of a value, or -1
  )
}
