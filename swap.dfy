/**
  The two swap functions of the playground. Swift passes their arguments `inout`:
  the callee receives copies of the caller's values and the final values are
  written back when it returns. Here a caller passes the old values and gets the
  new ones back as out-parameters.
*/
module Swapping {

  /** `swapTwoInts`: afterwards `a` holds the old `b` and `b` the old `a`. */
  method SwapTwoInts(a: int, b: int) returns (a': int, b': int)
    ensures a' == b && b' == a
  {
    var aux := a;
    a' := b;
    b' := aux;
  }

  /** `swapTwoValues`: the generic version, for any type `T`. */
  method SwapTwoValues<T>(a: T, b: T) returns (a': T, b': T)
    ensures a' == b && b' == a
  {
    var aux := a;
    a' := b;
    b' := aux;
  }

  /**
    Swapping is its own inverse: swapping a pair with `SwapTwoInts` and then
    with `SwapTwoValues` gives the pair back, as the playground does with
    `someInt` and `anotherInt`.
  */
  method SwapTwiceRestores(a: int, b: int) returns (a'': int, b'': int)
    ensures a'' == a && b'' == b
  {
    var a', b' := SwapTwoInts(a, b);
    a'', b'' := SwapTwoValues(a', b');
  }
}
