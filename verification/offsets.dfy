/** The queue of window start offsets the iterator consumes. */
module Offsets {

  predicate StrictlyIncreasing(q: seq<nat>) {
    forall i, j :: 0 <= i < j < |q| ==> q[i] < q[j]
  }

  /** `a` is what remains of `b` after some elements were removed from its front. */
  predicate IsSuffix(a: seq<nat>, b: seq<nat>) {
    |a| <= |b| && a == b[|b| - |a|..]
  }

  function Min(a: nat, b: nat): nat {
    if a <= b then a else b
  }

  /** The queue `initializeOffsets` builds: every start `i` with `i < trainSize - window`,
      where `window = exampleLength + 1`, appended in increasing order. These are exactly
      the starts whose input window and one-step-later label window both end before the
      last training record. */
  function InitialOffsets(trainSize: nat, exampleLength: nat): (q: seq<nat>)
    ensures |q| == if trainSize > exampleLength + 1 then trainSize - exampleLength - 1 else 0
    ensures forall o: nat :: o in q <==> o + exampleLength + 1 < trainSize
    ensures StrictlyIncreasing(q)
  {
    var n := if trainSize > exampleLength + 1 then trainSize - exampleLength - 1 else 0;
    var q := seq(n, i requires 0 <= i < n => i as nat);
    forall o: nat
      ensures o in q <==> o + exampleLength + 1 < trainSize
    {
      if o < n {
        assert q[o] == o;
      }
    }
    q
  }

  /** Removing elements from the front keeps the remaining elements increasing. */
  lemma SuffixIncreasing(a: seq<nat>, b: seq<nat>)
    requires IsSuffix(a, b) && StrictlyIncreasing(b)
    ensures StrictlyIncreasing(a)
    ensures forall x :: x in a ==> x in b
  {
  }
}
