/** Reasoning along a run, whatever its states are. */
module Runs {

  /** What holds of a state and is kept by every step up to a later one holds there. */
  lemma {:induction false} Lasts<S>(ss: seq<S>, p: S -> bool, i: nat, j: nat)
    requires i <= j < |ss| && p(ss[i])
    requires forall k :: i <= k < j && p(ss[k]) ==> p(ss[k + 1])
    ensures p(ss[j])
    decreases j
  {
    if i < j {
      Lasts(ss, p, i, j - 1);
    }
  }
}
