/** Reversal of a sequence: the order in which the decoder fills the result buffer. */
module Sequences {

  /** The elements of `s`, last first. */
  function Reverse<T>(s: seq<T>): (r: seq<T>)
    ensures |r| == |s|
  {
    if s == [] then [] else Reverse(s[1..]) + [s[0]]
  }

  /** Element `k` of the reversal is element `|s| - 1 - k` of the original. */
  lemma {:induction false} ReverseAt<T>(s: seq<T>, k: nat)
    requires k < |s|
    ensures Reverse(s)[k] == s[|s| - 1 - k]
  {
    if k < |s| - 1 {
      ReverseAt(s[1..], k);
    }
  }

  /** Popping the last element of a reversed queue hands out the queue's first element and
      leaves the reversal of the rest. */
  lemma ReversePop<T>(q: seq<T>)
    requires q != []
    ensures Reverse(q)[|q| - 1] == q[0]
    ensures Reverse(q)[..|q| - 1] == Reverse(q[1..])
  {
  }
}
