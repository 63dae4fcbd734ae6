/** The caller-owned output buffers of the batch queries: a `std::vector<double>`
    passed by reference, which a query may clear, resize and write element by element. */
module StdVector {

  /** The contents after `resize(n, value)`: the first `n` old elements are kept,
      and any position past the old end holds `value`. */
  function Resized(s: seq<real>, n: nat, value: real): (r: seq<real>)
    ensures |r| == n
    ensures forall i :: 0 <= i < n ==> r[i] == (if i < |s| then s[i] else value)
  {
    if n <= |s| then s[..n] else s + seq(n - |s|, _ => value)
  }

  class Vector {
    var elems: seq<real>

    constructor (init: seq<real>)
      ensures elems == init
    {
      elems := init;
    }

    method Clear()
      modifies this
      ensures elems == []
    {
      elems := [];
    }

    method Resize(n: nat, value: real)
      modifies this
      ensures elems == Resized(old(elems), n, value)
    {
      elems := Resized(elems, n, value);
    }

    /** `v[i] = x` */
    method Set(i: nat, x: real)
      requires i < |elems|
      modifies this
      ensures elems == old(elems)[i := x]
    {
      elems := elems[i := x];
    }
  }
}
