/** Ordered pairs as the Ruby hashes and assignment lists of the generator keep them. */
module Pairs {
  /** The first component of every pair, in order: a Ruby hash's `keys`. */
  function Firsts<K, V>(ps: seq<(K, V)>): (ks: seq<K>)
    ensures |ks| == |ps|
    ensures forall i :: 0 <= i < |ps| ==> ks[i] == ps[i].0
  {
    seq(|ps|, i requires 0 <= i < |ps| => ps[i].0)
  }
}
