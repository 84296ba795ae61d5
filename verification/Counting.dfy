/** Counting the elements of a list. */
module Counting {

  /** A list without repetitions is as long as the set of its elements is large. */
  lemma {:induction false} DistinctCount<T>(xs: seq<T>)
    requires forall i, j :: 0 <= i < j < |xs| ==> xs[i] != xs[j]
    ensures |set x | x in xs| == |xs|
  {
    if xs != [] {
      var rest := xs[..|xs| - 1];
      DistinctCount(rest);
      assert (set x | x in xs) == (set x | x in rest) + {xs[|xs| - 1]};
    }
  }
}
