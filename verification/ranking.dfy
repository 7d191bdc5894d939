/** Top-k selection over a probability vector, stated by its contract. The vector is an opaque
    sequence of reals: how it was computed (a softmax over the classifier's logits) is not modelled. */
module Ranking {
  import opened Outcomes

  /** `idx` is a valid answer of `topk(p, k)`: `k` distinct positions of `p`, listed by
      non-increasing value, none of them below any position that was not selected. Which of
      several equal values is selected, and in which order, is deliberately left open. */
  predicate IsTopK(p: seq<real>, k: nat, idx: seq<nat>) {
    && |idx| == k
    && (forall j :: 0 <= j < |idx| ==> idx[j] < |p|)
    && (forall i, j :: 0 <= i < j < |idx| ==> idx[i] != idx[j])
    && (forall i, j :: 0 <= i < j < |idx| && idx[j] < |p| && idx[i] < |p| ==> p[idx[i]] >= p[idx[j]])
    && (forall j, u :: 0 <= j < |idx| && 0 <= u < |p| && u !in idx && idx[j] < |p| ==> p[u] <= p[idx[j]])
  }

  /** The position of a largest value of `p` at or after `from` that is not listed in `taken`,
      or `None` when every such position is taken. */
  function BestUntaken(p: seq<real>, taken: seq<nat>, from: nat): (r: Option<nat>)
    requires from <= |p|
    ensures r.Some? ==> from <= r.value < |p| && r.value !in taken
    ensures r.Some? ==> forall u :: from <= u < |p| && u !in taken ==> p[u] <= p[r.value]
    ensures r.None? <==> forall u :: from <= u < |p| ==> u in taken
    decreases |p| - from
  {
    if from == |p| then None
    else
      var rest := BestUntaken(p, taken, from + 1);
      if from in taken then rest
      else if rest.Some? && p[rest.value] > p[from] then rest
      else Some(from)
  }

  /** A concrete `topk`: repeatedly take the best position not yet taken. */
  function TopK(p: seq<real>, k: nat): (r: seq<nat>)
    requires k <= |p|
    ensures IsTopK(p, k, r)
    decreases k
  {
    if k == 0 then []
    else
      var prev := TopK(p, k - 1);
      UntakenExists(prev, |p|);
      var m := BestUntaken(p, prev, 0);
      var r := prev + [m.value];
      assert forall u :: 0 <= u < |p| && u !in r ==> u !in prev;
      r
  }

  /** Fewer than `n` positions cannot cover all of `0..n`. */
  lemma {:induction false} UntakenExists(taken: seq<nat>, n: nat)
    requires |taken| < n
    ensures exists u :: 0 <= u < n && u !in taken
    decreases n
  {
    if n - 1 in taken {
      var rest := Without(taken, n - 1);
      UntakenExists(rest, n - 1);
      var u :| 0 <= u < n - 1 && u !in rest;
      assert u !in taken;
    }
  }

  /** `s` with every occurrence of `x` removed. */
  function Without(s: seq<nat>, x: nat): (r: seq<nat>)
    ensures |r| <= |s|
    ensures x in s ==> |r| < |s|
    ensures forall y :: y in s && y != x ==> y in r
  {
    if s == [] then []
    else (if s[0] == x then [] else [s[0]]) + Without(s[1..], x)
  }
}
