/** `std::vector` operations the renderer relies on. */
module Vectors {

  /** `v.resize(n, fill)`: the first `min(|v|, n)` elements are kept and any
      new positions hold `fill`. */
  function Resize<T>(v: seq<T>, n: nat, fill: T): (r: seq<T>)
    ensures |r| == n
    ensures forall i :: 0 <= i < n && i < |v| ==> r[i] == v[i]
    ensures forall i :: |v| <= i < n ==> r[i] == fill
  {
    if n <= |v| then v[..n] else v + seq(n - |v|, _ => fill)
  }
}
