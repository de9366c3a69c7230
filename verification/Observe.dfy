/** Reading what other threads write: a sequence of observations, one per read. */
module Observe {

  /** A result, or nothing yet: the observations ended first. */
  datatype Step<+T> = Pending | Value(v: T) {
    predicate IsFailure() { Pending? }
    function PropagateFailure<U>(): Step<U> { Pending }
    function Extract(): T
      requires Value?
    { v }
  }

  /** One read of something other threads write, given as the sequence of what is read. */
  method Read<T>(env: seq<T>, i: nat) returns (r: Step<T>, j: nat)
    ensures r.Value? <==> i < |env|
    ensures if r.Value? then r.v == env[i] && j == i + 1 else j == i
  {
    if i < |env| { return Value(env[i]), i + 1; }
    return Pending, i;
  }
}
