/** Facts about sequences, kept apart so that proofs about the model only see
    their conclusions. */
module Seqs {
  lemma ConsAppend<T>(xs: seq<T>, ys: seq<T>)
    requires xs != []
    ensures (xs + ys)[0] == xs[0] && (xs + ys)[1..] == xs[1..] + ys
  {
  }

  lemma ConcatAssoc<T>(a: seq<T>, b: seq<T>, c: seq<T>)
    ensures a + (b + c) == (a + b) + c
  {
  }

  /** `t` picks elements of `xs` at the strictly increasing positions `idx`:
      each element of `xs` at most once, in order. */
  ghost predicate Subsequence<T>(t: seq<T>, xs: seq<T>, idx: seq<nat>) {
    && |idx| == |t|
    && (forall k :: 0 <= k < |t| ==> idx[k] < |xs| && t[k] == xs[idx[k]])
    && (forall k, m :: 0 <= k < m < |idx| ==> idx[k] < idx[m])
  }

  /** An optional head element, then a subsequence of the tail. */
  lemma SubsequenceCons<T>(h: seq<T>, t: seq<T>, xs: seq<T>, rest: seq<nat>) returns (idx: seq<nat>)
    requires xs != [] && (h == [] || h == [xs[0]])
    requires Subsequence(t, xs[1..], rest)
    ensures Subsequence(h + t, xs, idx)
  {
    var shifted: seq<nat> := seq(|rest|, i requires 0 <= i < |rest| => rest[i] + 1);
    var first: seq<nat> := if h == [] then [] else [0];
    idx := first + shifted;
    ShiftedElements(h, t, xs, rest, first, shifted);
    ShiftedIncreasing(rest, first, shifted);
  }

  lemma ShiftedElements<T>(h: seq<T>, t: seq<T>, xs: seq<T>, rest: seq<nat>, first: seq<nat>, shifted: seq<nat>)
    requires xs != [] && (h == [] || h == [xs[0]])
    requires |rest| == |t| && forall k :: 0 <= k < |t| ==> rest[k] < |xs[1..]| && t[k] == xs[1..][rest[k]]
    requires first == (if h == [] then [] else [0])
    requires |shifted| == |rest| && forall i :: 0 <= i < |rest| ==> shifted[i] == rest[i] + 1
    ensures forall k :: 0 <= k < |h + t| ==> (first + shifted)[k] < |xs| && (h + t)[k] == xs[(first + shifted)[k]]
  {
    var r, idx := h + t, first + shifted;
    forall k | 0 <= k < |r|
      ensures idx[k] < |xs| && r[k] == xs[idx[k]]
    {
      if k >= |h| {
        var j := k - |h|;
        assert r[k] == t[j] && idx[k] == shifted[j];
        assert xs[1..][rest[j]] == xs[rest[j] + 1];
      }
    }
  }

  lemma ShiftedIncreasing(rest: seq<nat>, first: seq<nat>, shifted: seq<nat>)
    requires forall k, m :: 0 <= k < m < |rest| ==> rest[k] < rest[m]
    requires first == [] || first == [0]
    requires |shifted| == |rest| && forall i :: 0 <= i < |rest| ==> shifted[i] == rest[i] + 1
    ensures forall k, m :: 0 <= k < m < |first + shifted| ==> (first + shifted)[k] < (first + shifted)[m]
  {
    var idx := first + shifted;
    forall k, m | 0 <= k < m < |idx|
      ensures idx[k] < idx[m]
    {
      if k >= |first| {
        assert idx[k] == shifted[k - |first|] && idx[m] == shifted[m - |first|];
      } else {
        assert idx[m] == shifted[m - |first|];
      }
    }
  }

  /** A subsequence is no longer than the sequence it is taken from. */
  lemma {:induction false} SubsequenceBound<T>(t: seq<T>, xs: seq<T>, idx: seq<nat>)
    requires Subsequence(t, xs, idx)
    ensures |t| <= |xs|
  {
    if |idx| > 0 {
      forall k | 0 <= k < |idx|
        ensures idx[k] >= k
      {
        var j := 0;
        while j < k
          invariant 0 <= j <= k && idx[j] >= j
        {
          assert idx[j] < idx[j + 1];
          j := j + 1;
        }
      }
      assert idx[|idx| - 1] < |xs|;
    }
  }
}
