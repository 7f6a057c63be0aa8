/** `Timewave.getMinMax` (timewave.js:297-305): one pass over an array that
    keeps a running maximum and minimum, seeded with the first element. */
module MinMax {

  /** `Math.max` and `Math.min` on two numbers. */
  function Max(a: real, b: real): real { if a < b then b else a }
  function Min(a: real, b: real): real { if b < a then b else a }

  /** On a non-empty array the result is the greatest and the least
      element. (On an empty one the code returns `undefined` for both, a
      value this model does not have.) */
  method GetMinMax(values: seq<real>) returns (max: real, min: real)
    requires |values| > 0
    ensures max in values && min in values
    ensures forall i :: 0 <= i < |values| ==> min <= values[i] <= max
  {
    max := values[0];
    min := max;
    var i := 1;
    while i < |values|
      invariant 1 <= i <= |values|
      invariant max in values[..i] && min in values[..i]
      invariant forall k :: 0 <= k < i ==> min <= values[k] <= max
    {
      max := Max(max, values[i]);
      min := Min(min, values[i]);
      i := i + 1;
    }
    assert values[..i] == values;
  }
}
