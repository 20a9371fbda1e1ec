# A verified model of the `Array` wrapper

`Array.py` is a Python class that wraps a typed, growable array kept in a C
library (`libtest.so`). The class holds a typecode (`"i"` for long, `"d"` for
double, `"a"` for an unfinished mixed mode) and a handle to the C array it
currently owns. Its own logic is small and is what this model covers:

- the constructor's typecode gate and its loop that appends each initializer element;
- the index check and the long-range (overflow) check;
- the per-typecode dispatch and type tests of `append`, with the recursion over lists in mixed mode;
- the result-code decisions of `pop`, `remove` and `search`, which decide whether the engine's freshly built array replaces the current one;
- `__getitem__`, `__setitem__`, `insert`, `__insert_long`, `__insert_double`;
- `__eq__`.

The C library's code is not part of this model. Every C entry point the
wrapper calls, except `initArray`, `getArrayLength`, `freeArray` and `insertInt`, is a field of
`Engine.Lib`: a total function from the engine array's contents, and the
call's arguments, to the engine's answer. Nothing is assumed about those
answers, beyond the three engine assumptions listed under the modelling
choices below. Module `Conforming` goes further: there every lemma that relies on it
requires, as an explicit precondition, that `insertLong` appends at the end.

Layout:

- `python.dfy` (`Python`): Python values (`Int`, an opaque `Float`, `List`, `Other`), the exceptions, `Outcome` and `Result`.
- `engine.dfy` (`Engine`): engine slots, the C result structures, and the oracle record `Lib`.
- `checks.dfy` (`Checks`): the typecode gate, the index check and the overflow check.
- `appending.dfy` (`Appending`): `append` and the initializer loop as functions, and lemmas about them.
- `array.dfy` (`Wrapper`): the state-changing operations as functions, and the class `Array` with fields `lib`, `typecode` and `storage`, whose methods update `storage` as the Python methods reassign `self.array`.
- `conforming.dfy` (`Conforming`): what the initializer loop builds when `insertLong` appends at the end.

Modelling choices:

- Engine assumption 1: `getArrayLength` returns the number of occupied slots. The engine array is the sequence of those slots, and `len(self)` (`Wrapper.Array.Len`) is its length.
- Engine assumption 2: `initArray(temp, 1)` yields an empty array, as the comment at `Array.py:128` says. So `pop` and `remove` get the destination's contents back from the engine, and in mixed mode `remove` and `insert` leave the object holding an empty array.
- Engine assumption 3: a call that builds a destination array (`popLong`, `popDouble`, `removeLong`, `removeDouble`, `insertLongAtPos`, `insertDoubleAtPos`) or only reads (`returnType`, `returnLong`, `returnDouble`, `binarySearchLong`, `binarySearchDouble`) leaves the array it is passed as it was, although C receives `self.array` by pointer. The rows saying that a failing `pop` or `remove` leaves the storage unchanged rest on this.
- A float is an opaque token. The answer of the overflow check's comparison `> 2147483647` is carried with the token. The `!=` that `__eq__` applies to elements is passed in as the `eq` parameter of `Equals`.
- A bool is an `Int`. `Other` stands for a value that does not compare with an int (a string, `None`, a dict, ...): asking whether it, or a list, exceeds an int raises `TypeError`, as Python 3 does.
- In `__eq__`, Python's `==` on two elements is a parameter. `other` is a sequence, and reading past its end raises `IndexError`.

Behaviour of the code worth noting, which the model follows as written:

- Negative indices are not rewritten to `len + pos`. They reach the engine unchanged.
- `insert` makes no index check and no overflow check.
- `__setitem__` runs the overflow check on every typecode. On a double array it refuses an int above 2147483647 that `append` accepts.
- In mixed mode, a failing `append` of a list keeps the elements appended before the failure.
- `pop` in mixed mode raises `AttributeError`, because neither `popLong` nor `popDouble` is called, so `result` stays `None` and has no result code.

## Model

| member | source | states |
|---|---|---|
| `Checks.TypecodeCheck` | Array.py:81-85 | only "i", "d" and "a" pass; every other typecode raises TypeError |
| `Checks.IndexCheck` | Array.py:268-284 | an empty array raises IndexError for every pos; otherwise pos passes exactly when -len <= pos < len; every failure is IndexError |
| `Checks.IndexCheckAcceptsPythonIndices` | Array.py:283-284 | the check accepts pos exactly when pos names some element k as k or k - len, and that element is unique |
| `Checks.OverflowCheck` | Array.py:416-429 | an int passes exactly when it is at most 2147483647, so there is no lower bound; a too-large int raises OverflowError; a float is refused when it exceeds the maximum; a list or other object raises TypeError |
| `Appending.InsertLongStep` | Array.py:397-406 | the overflow check runs before the engine write: success exactly when x <= 2147483647, and then the storage is the engine's insertLong result; on failure it is OverflowError with storage unchanged |
| `Appending.AppendOne` | Array.py:313-347 | on "i" a non-int raises TypeError before any engine write, and an int goes through the overflow check; on "d" an int or float is handed to insertDouble and anything else raises TypeError; on "a" an int goes through the overflow check to insertLong, a float goes to insertDouble and a non-list, non-number raises TypeError; on "i" and "d" a failure leaves the storage unchanged |
| `Appending.AppendOneRaisesIffRefused` | Array.py:328-347 | append raises exactly on the arguments the independent predicate `Accepted` refuses, including nested lists in mixed mode |
| `Appending.AppendAllRaisesIffRefused` | Array.py:125-126 | appending a sequence element by element succeeds exactly when every element is accepted |
| `Appending.AppendAll` | Array.py:125-126 | the element-by-element loop of the initializer and of a mixed-mode list: an empty sequence changes nothing, a one-element sequence is one append, and an unsupported typecode changes nothing; its meaning is stated by the `AppendAll*` lemmas below |
| `Appending.AppendAllConcat` | Array.py:333-335 | appending xs + ys equals appending xs and then, unless that raised, appending ys |
| `Appending.AppendAllKeepsPrefix` | Array.py:333-335 | no rollback: when the loop raises, some element k was refused, the prefix before it was appended, and the state is what appending element k to that prefix leaves |
| `Appending.MixedAppendFlattens` | Array.py:328-335 | in mixed mode, appending a nested list equals appending its flattened leaves one by one, in order |
| `Appending.MixedAppendAllFlattens` | Array.py:333-335 | the same for a sequence of values: appending it equals appending the concatenation of their leaves |
| `Wrapper.SetItemStep` | Array.py:180-185 | succeeds exactly when the index is in range and the value passes the overflow check; the index error takes precedence over the overflow error; every failure leaves storage unchanged; on success the engine write for "i" or "d" is applied at the caller's key; "a" never writes |
| `Wrapper.PopStep` | Array.py:230-241 | any failure leaves storage unchanged; a nonzero engine result code swaps in the engine's new array and returns the popped long or double; a zero code raises IndexError; the mixed typecode raises AttributeError |
| `Wrapper.RemoveStep` | Array.py:301-311 | only the engine answer -1 means not found, and it raises ValueError with storage unchanged; every other answer, -2 included, swaps in the engine's array; in mixed mode the storage becomes empty |
| `Wrapper.Init` | Array.py:79-128 | an unsupported typecode raises TypeError before anything else; otherwise construction succeeds exactly when every initializer element is accepted by append; with no initializer the array is empty |
| `Wrapper.DoubleArrayRangeCheckedOnlyOnSetItem` | Array.py:180-185 | on a double array an int above 2147483647 is appended, but raises OverflowError with storage unchanged when stored at a valid key |
| `Wrapper.Array.constructor` | Array.py:120-128 | a new object has the given engine and typecode and an empty engine array |
| `Wrapper.Array.Create` | Array.py:79-128 | the typecode gate and the append loop: the result succeeds exactly as `Init` does, the object is fresh, and its storage is the storage `Init` describes |
| `Wrapper.Array.Len` | Array.py:132-139 | `len(self)` is the number of occupied slots, and it is 0 exactly when every index raises IndexError |
| `Wrapper.Array.GetItem` | Array.py:159-166 | IndexError exactly when pos is out of [-len, len); otherwise the engine's tag at the raw, un-normalised pos selects a long (0) or a double (1), and any other tag raises ValueError |
| `Wrapper.Array.SetItem` | Array.py:180-185 | the outcome and new storage are those of `SetItemStep` |
| `Wrapper.Array.Equals` | Array.py:207-210 | True exactly when self[i] and other[i] exist and are equal for every i < len(self), so an empty self equals anything; False names the first mismatch; an exception names the first index whose read raised |
| `Wrapper.Array.Pop` | Array.py:212-241 | default pos -1; the result and new storage are those of `PopStep` |
| `Wrapper.Array.Search` | Array.py:259-266 | the engine's answer -1 raises ValueError, and any other answer is returned unchanged; in mixed mode the search always raises ValueError |
| `Wrapper.Array.Remove` | Array.py:301-311 | the outcome and new storage are those of `RemoveStep` |
| `Wrapper.Array.InsertLong` | Array.py:405-406 | the outcome and new storage are those of `InsertLongStep` |
| `Wrapper.Array.InsertDouble` | Array.py:395 | the storage becomes the engine's insertDouble result, with no check |
| `Wrapper.Array.Append` | Array.py:328-347 | the outcome and new storage are those of `AppendOne`, with the list recursion done by a loop of recursive calls |
| `Wrapper.Array.Insert` | Array.py:362-371 | no check of any kind: the engine's copy with the insertion always replaces the storage; in mixed mode the storage becomes empty |
| `Conforming.LongAppendsAddSlots` | Array.py:338-340 | if insertLong appends every C long at the end, appending ints between the C long minimum and 2147483647 to a long array adds their slots after the existing ones, in order |
| `Conforming.LongArrayFromInitializer` | Array.py:123-126 | if insertLong appends every C long at the end and no element of xs is below the C long minimum, Array("i", xs) holds exactly xs, so its length is len(xs); if some element exceeds the maximum, construction raises OverflowError |
| `Conforming.LongInitializerRaisesOverflow` | Array.py:338-340 | an all-int initializer on a long array can only fail with OverflowError |
| `Conforming.OverflowBoundary` | Array.py:428-429 | appending 2147483647 to a long array reaches the engine; appending 2147483648 raises OverflowError and leaves the storage unchanged |

## Left out

- The C library: `insertLong`, `insertDouble`, `insertLongToPos`, `insertDoubleToPos`, `insertLongAtPos`, `insertDoubleAtPos`, `popLong`, `popDouble`, `removeLong`, `removeDouble`, `binarySearchLong`, `binarySearchDouble`, `returnType`, `returnLong` and `returnDouble` are oracles; those that build a destination array or only read are also bound by engine assumption 3. `initArray` and `getArrayLength` are fixed by engine assumptions 1 and 2; `freeArray` is left out, and `insertInt` with the unused `__insert_int`. Their code is not part of this model. Insertion shifting, growth, removal order and binary search are not modelled.
- The ctypes `Structure` layouts and the `argtypes`/`restype` setup (Array.py:10-36, 87-118). This includes the argument conversion ctypes does, and the errors it raises: a float passed where a C long is expected, or an int too large for a C double.
- Memory management: the `atexit` registration, `__free`, and the destination array leaked by `pop` and `remove` when they fail. The capacity argument of `initArray` is also left out.
- The unused `__insert_int`, and everything in the mixed typecode beyond its dispatch branches.
- Float semantics. A float is an opaque token, and Python's cross-kind `1 == 1.0` is left to the `eq` parameter of `Equals`.
- `__str__` and the text of exception messages. An initializer of `None` behaves like the empty list.
- Conforming.LongAppendsAddSlots: ints below the C long minimum pass the wrapper's overflow check but are then converted by ctypes to a C long, which the model does not capture, so they are excluded.
- Conforming.LongArrayFromInitializer: excludes initializer ints below the C long minimum, for the same reason.
- Wrapper.Array.Search: does not state that the answer is a position of `arg`. The sortedness precondition belongs to the engine's binary search, which is not modelled.
