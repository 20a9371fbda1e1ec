/** Python-side values and exceptions, as the Array wrapper sees them. */
module Python {

  /** A double-precision float, kept opaque: two floats are the same value
      exactly when their tokens are. The answer of the overflow check's
      comparison `> 2147483647` travels with the token as `exceedsInt32Max`;
      the `!=` of `__eq__` is a parameter of `Wrapper.Array.Equals`. */
  datatype Double = Double(token: int, exceedsInt32Max: bool)

  /** An argument a caller can hand to the wrapper. */
  datatype Value =
    | Int(i: int)              // a Python int (a bool is an int too)
    | Float(f: Double)         // a Python float
    | List(items: seq<Value>)  // a Python list
    | Other                    // a value that does not compare with an int: str, None, dict, ...

  /** The exceptions the wrapper raises or lets escape. */
  datatype Error = IndexError | OverflowError | TypeError | ValueError | AttributeError

  /** The result of a call that returns None or raises. */
  datatype Outcome = Ok | Raise(error: Error)

  /** The result of a call that returns a value or raises. */
  datatype Result<T> = Success(value: T) | Failure(error: Error)
}
