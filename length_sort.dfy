/**
 * Sorting a batch by descending sequence length and keeping the permutation
 * (`inputs_seq_len.sort(dim=0, descending=True)` followed by `inputs[perm_indices]`).
 * The library does not promise a stable sort, so only the descending order and
 * the permutation are claimed; the insertion sort below is one admissible choice.
 */
module LengthSort {
  predicate NonIncreasing(xs: seq<nat>) {
    forall i, j :: 0 <= i < j < |xs| ==> xs[i] >= xs[j]
  }

  ghost predicate Distinct(p: seq<nat>) {
    forall i, j :: 0 <= i < j < |p| ==> p[i] != p[j]
  }

  /** `p` lists every index `0..n-1` exactly once. */
  ghost predicate IsPermutation(p: seq<nat>, n: nat) {
    && |p| == n
    && Distinct(p)
    && (forall i :: 0 <= i < |p| ==> p[i] < n)
    && (forall k: nat :: k in p <==> k < n)
  }

  /** Every index of `p` is an index of `lens`, and `lens` read through `p` never increases. */
  ghost predicate Descending(lens: seq<nat>, p: seq<nat>) {
    (forall i :: 0 <= i < |p| ==> p[i] < |lens|) &&
    forall i, j :: 0 <= i < j < |p| ==> lens[p[i]] >= lens[p[j]]
  }

  /** `xs[p]`: the elements of `xs` in the order the indices of `p` name them. */
  function Gather<T>(xs: seq<T>, p: seq<nat>): (r: seq<T>)
    requires forall i :: 0 <= i < |p| ==> p[i] < |xs|
    ensures |r| == |p|
    ensures forall i :: 0 <= i < |p| ==> r[i] == xs[p[i]]
  {
    seq(|p|, i requires 0 <= i < |p| => xs[p[i]])
  }

  /** Places index `j` into the descending index list `p`, after every index of no smaller length. */
  function Insert(lens: seq<nat>, p: seq<nat>, j: nat): (r: seq<nat>)
    requires j < |lens| && Descending(lens, p)
    ensures |r| == |p| + 1
    ensures forall x :: x in r <==> x in p || x == j
    ensures r[0] == j || (|p| > 0 && r[0] == p[0])
    ensures Descending(lens, r)
    ensures j !in p && Distinct(p) ==> Distinct(r)
    decreases |p|
  {
    if p == [] || lens[j] > lens[p[0]] then [j] + p
    else
      var rest := Insert(lens, p[1..], j);
      assert j !in p && Distinct(p) ==> Distinct(p[1..]) && p[0] !in rest;
      [p[0]] + rest
  }

  /** The indices `0..n-1` ordered by non-increasing length. */
  function SortPrefix(lens: seq<nat>, n: nat): (p: seq<nat>)
    requires n <= |lens|
    ensures IsPermutation(p, n) && Descending(lens, p)
  {
    if n == 0 then []
    else
      var p := Insert(lens, SortPrefix(lens, n - 1), n - 1);
      assert forall i :: 0 <= i < |p| ==> p[i] in p;
      p
  }

  /**
   * `perm_indices` of the descending sort of `lens`: a permutation of the batch
   * under which the lengths never increase.
   */
  function SortIndices(lens: seq<nat>): (p: seq<nat>)
    ensures IsPermutation(p, |lens|)
    ensures NonIncreasing(Gather(lens, p))
  {
    SortPrefix(lens, |lens|)
  }

  /** The position at which `k` first occurs in `p`. */
  function IndexOf(p: seq<nat>, k: nat): (i: nat)
    requires k in p
    ensures i < |p| && p[i] == k
    ensures forall j :: 0 <= j < i ==> p[j] != k
  {
    if p[0] == k then 0 else 1 + IndexOf(p[1..], k)
  }

  /** Undoes `Gather`: the element sorted to position `i` goes back to position `p[i]`. */
  function Scatter<T>(ys: seq<T>, p: seq<nat>): (r: seq<T>)
    requires IsPermutation(p, |ys|)
    ensures |r| == |ys|
  {
    seq(|ys|, k requires 0 <= k < |ys| => ys[IndexOf(p, k)])
  }

  /** The caller restores its original batch order from the sorted batch and `perm_indices`. */
  lemma ScatterGather<T>(xs: seq<T>, p: seq<nat>)
    requires IsPermutation(p, |xs|)
    ensures Scatter(Gather(xs, p), p) == xs
  {
    var r := Scatter(Gather(xs, p), p);
    forall k | 0 <= k < |xs| ensures r[k] == xs[k] {
      assert p[IndexOf(p, k)] == k;
    }
  }

  /** Sorting a batch that was restored to its original order gives back the sorted batch. */
  lemma GatherScatter<T>(ys: seq<T>, p: seq<nat>)
    requires IsPermutation(p, |ys|)
    ensures Gather(Scatter(ys, p), p) == ys
  {
    var r := Gather(Scatter(ys, p), p);
    forall i | 0 <= i < |ys| ensures r[i] == ys[i] {
      assert IndexOf(p, p[i]) == i;
    }
  }

  /**
   * The batch of lengths [5, 3, 4] admits exactly one descending order:
   * the permutation [0, 2, 1].
   */
  lemma ThreeSequenceScenario(p: seq<nat>)
    requires IsPermutation(p, 3) && Descending([5, 3, 4], p)
    ensures p == [0, 2, 1]
  {
    assert 0 in p && 1 in p && 2 in p;
    var lens: seq<nat> := [5, 3, 4];
    assert lens[p[0]] >= lens[p[1]] >= lens[p[2]];
  }
}
