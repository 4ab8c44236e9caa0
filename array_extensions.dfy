/** `Array.zeros(length:)`: the zero padding `stop` appends to the sample buffer. */
module ArrayExtensions {

  /** Appends `length` zeros to an empty array, one at a time. A negative
      length traps in `0..<length`, hence the precondition. */
  method Zeros(length: int) returns (result: seq<real>)
    requires length >= 0
    ensures |result| == length
    ensures forall i :: 0 <= i < |result| ==> result[i] == 0.0
  {
    result := [];
    var n := 0;
    while n < length
      invariant 0 <= n <= length
      invariant |result| == n
      invariant forall i :: 0 <= i < |result| ==> result[i] == 0.0
    {
      result := result + [0.0];
      n := n + 1;
    }
  }
}
