/** First-occurrence search over sequences, shared by the string splitting (the
    first separator), the fail-fast builders (the first failing call) and the
    evaluator's search paths (the first entry that holds an import). */
module Sequences {
  import opened Wrappers

  /** The index of the first element of `xs` satisfying `p`, if there is one. */
  function FirstIndex<T>(xs: seq<T>, p: T -> bool): (r: Option<nat>)
    ensures r.Some? ==> r.value < |xs| && p(xs[r.value])
    ensures r.Some? ==> forall k :: 0 <= k < r.value ==> !p(xs[k])
    ensures r.None? ==> forall k :: 0 <= k < |xs| ==> !p(xs[k])
    decreases |xs|
  {
    if |xs| == 0 then None
    else if p(xs[0]) then Some(0)
    else
      match FirstIndex(xs[1..], p)
      case None => None
      case Some(i) => Some(i + 1)
  }

  /** An optional index moved `n` places to the right. */
  function Shift(r: Option<nat>, n: nat): Option<nat>
  {
    match r
    case None => None
    case Some(i) => Some(i + n)
  }

  /** Searching `front + rest` finds the first match in `front` when there is
      one; only otherwise is `rest` searched, and its index moves by `|front|`. */
  lemma {:induction false} FirstIndexAppend<T>(front: seq<T>, rest: seq<T>, p: T -> bool)
    ensures FirstIndex(front + rest, p)
         == if FirstIndex(front, p).Some? then FirstIndex(front, p)
            else Shift(FirstIndex(rest, p), |front|)
    decreases |front|
  {
    if |front| > 0 {
      assert (front + rest)[0] == front[0];
      assert (front + rest)[1..] == front[1..] + rest;
      FirstIndexAppend(front[1..], rest, p);
    } else {
      assert front + rest == rest;
    }
  }
}
