/**
 * Padded batch tensors, laid out batch-major as [batch][time][feature], over an
 * abstract element type whose addition is supplied by the tensor library.
 */
module Tensors {
  type Frame<E> = seq<E>
  type Tensor<E> = seq<seq<Frame<E>>>

  /** The number of time steps stored for each example of the batch. */
  function Grid<E>(x: Tensor<E>): (g: seq<nat>)
    ensures |g| == |x|
    ensures forall b :: 0 <= b < |x| ==> g[b] == |x[b]|
  {
    seq(|x|, b requires 0 <= b < |x| => |x[b]|)
  }

  /** Every feature vector of `x` has exactly `d` entries (the tensor's last dimension is `d`). */
  ghost predicate Width<E>(x: Tensor<E>, d: int) {
    forall b, t :: 0 <= b < |x| && 0 <= t < |x[b]| ==> |x[b][t]| == d
  }

  /** Element-wise `x + y` of two tensors of the same shape. */
  function Add<E>(x: Tensor<E>, y: Tensor<E>, plus: (E, E) -> E, ghost d: int): (r: Tensor<E>)
    requires Grid(x) == Grid(y) && Width(x, d) && Width(y, d)
    ensures Grid(r) == Grid(x) && Width(r, d)
    ensures forall b, t, f :: 0 <= b < |r| && 0 <= t < |r[b]| && 0 <= f < |r[b][t]| ==>
              r[b][t][f] == plus(x[b][t][f], y[b][t][f])
  {
    seq(|x|, b requires 0 <= b < |x| =>
      seq(|x[b]|, t requires 0 <= t < |x[b]| =>
        seq(|x[b][t]|, f requires 0 <= f < |x[b][t]| => plus(x[b][t][f], y[b][t][f]))))
  }

  ghost predicate Associative<E(!new)>(plus: (E, E) -> E) {
    forall a, b, c :: plus(plus(a, b), c) == plus(a, plus(b, c))
  }

  /** All tensors of `xs` have the batch/time grid `g` and `d` features. */
  ghost predicate Uniform<E>(xs: seq<Tensor<E>>, g: seq<nat>, d: int) {
    forall j :: 0 <= j < |xs| ==> Grid(xs[j]) == g && Width(xs[j], d)
  }

  /** Element-wise addition is associative when the element addition is. */
  lemma AddAssociative<E(!new)>(x: Tensor<E>, y: Tensor<E>, z: Tensor<E>, plus: (E, E) -> E, d: int)
    requires Grid(x) == Grid(y) == Grid(z) && Width(x, d) && Width(y, d) && Width(z, d)
    requires Associative(plus)
    ensures Add(Add(x, y, plus, d), z, plus, d) == Add(x, Add(y, z, plus, d), plus, d)
  {
    var lhs := Add(Add(x, y, plus, d), z, plus, d);
    var rhs := Add(x, Add(y, z, plus, d), plus, d);
    forall b | 0 <= b < |lhs| ensures lhs[b] == rhs[b] {
      forall t | 0 <= t < |lhs[b]| ensures lhs[b][t] == rhs[b][t] {
        assert |lhs[b][t]| == d == |rhs[b][t]|;
      }
    }
  }

  /**
   * The residual loop `for lower in xs: y = y + lower`: `y` plus every tensor of
   * `xs`, added one at a time in list order.
   */
  function Accumulate<E>(y: Tensor<E>, xs: seq<Tensor<E>>, plus: (E, E) -> E, ghost d: int): (r: Tensor<E>)
    requires Width(y, d) && Uniform(xs, Grid(y), d)
    ensures Grid(r) == Grid(y) && Width(r, d)
    decreases |xs|
  {
    if xs == [] then y
    else Add(Accumulate(y, xs[..|xs| - 1], plus, d), xs[|xs| - 1], plus, d)
  }

  /** The sum of a non-empty list of same-shaped tensors. */
  function SumAll<E>(xs: seq<Tensor<E>>, plus: (E, E) -> E, ghost d: int): (r: Tensor<E>)
    requires |xs| > 0 && Uniform(xs, Grid(xs[0]), d)
    ensures Grid(r) == Grid(xs[0]) && Width(r, d)
    decreases |xs|
  {
    if |xs| == 1 then xs[0]
    else Add(SumAll(xs[..|xs| - 1], plus, d), xs[|xs| - 1], plus, d)
  }

  /**
   * With an associative element addition, adding the retained tensors one at a
   * time equals adding their sum once.
   */
  lemma {:induction false} AccumulateIsSum<E(!new)>(y: Tensor<E>, xs: seq<Tensor<E>>, plus: (E, E) -> E, d: int)
    requires |xs| > 0 && Width(y, d) && Uniform(xs, Grid(y), d)
    requires Associative(plus)
    ensures Accumulate(y, xs, plus, d) == Add(y, SumAll(xs, plus, d), plus, d)
    decreases |xs|
  {
    if |xs| > 1 {
      var init := xs[..|xs| - 1];
      AccumulateIsSum(y, init, plus, d);
      assert SumAll(xs, plus, d) == Add(SumAll(init, plus, d), xs[|xs| - 1], plus, d);
      AddAssociative(y, SumAll(init, plus, d), xs[|xs| - 1], plus, d);
    }
  }

  /** `x[:, :, lo:hi]`: the features `lo` up to `hi` of every frame. */
  function Slice<E>(x: Tensor<E>, lo: nat, hi: nat, ghost d: int): (r: Tensor<E>)
    requires Width(x, d) && lo <= hi <= d
    ensures Grid(r) == Grid(x) && Width(r, hi - lo)
    ensures forall b, t, f :: 0 <= b < |r| && 0 <= t < |r[b]| && 0 <= f < |r[b][t]| ==> r[b][t][f] == x[b][t][lo + f]
  {
    seq(|x|, b requires 0 <= b < |x| =>
      seq(|x[b]|, t requires 0 <= t < |x[b]| => x[b][t][lo..hi]))
  }

  /**
   * `x[:, :, :units] + x[:, :, units:]` for a bidirectional output whose frames
   * are the forward half followed by the backward half.
   */
  function MergeDirections<E>(x: Tensor<E>, units: nat, plus: (E, E) -> E): (r: Tensor<E>)
    requires Width(x, 2 * units)
    ensures Grid(r) == Grid(x) && Width(r, units)
    ensures forall b, t, f :: 0 <= b < |r| && 0 <= t < |r[b]| && 0 <= f < |r[b][t]| ==>
              r[b][t][f] == plus(x[b][t][f], x[b][t][units + f])
  {
    Add(Slice(x, 0, units, 2 * units), Slice(x, units, 2 * units, 2 * units), plus, units)
  }
}
