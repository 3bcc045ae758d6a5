/**
 * The forward pass of the hierarchical RNN encoder as a specification: sort the
 * batch by length, run the optional convolutional front-end, fold the recurrent
 * layers (projection, residual sums, sub-task tap), unpad, merge directions and
 * pick the forward-direction final state.
 *
 * The library computations (recurrent cells, projections, the CNN, its length
 * rule and element addition) are parameters of the model; the predicate
 * `Sound` collects the shape behaviour the encoder relies on. Packing and
 * padding are the identity on a (data, lengths) pair.
 */
module EncoderForward {
  import opened Wrappers
  import opened Tensors
  import opened LengthSort
  import opened EncoderConfig

  datatype Kernels<!E, R> = Kernels(
    run: (RnnLayer, Tensor<E>, seq<nat>) -> (Tensor<E>, seq<R>),  // output and h_n of one recurrent module on a packed batch
    project: (Projection, Tensor<E>) -> Tensor<E>,
    cnn: Tensor<E> -> Tensor<E>,
    convOutSize: nat -> nat,                           // the CNN's time-subsampling rule
    plus: (E, E) -> E)

  /**
   * A recurrent module fed `inputSize` features keeps the batch/time grid,
   * emits hidden_size features per direction and one final-state row per
   * direction; a projection keeps the grid and emits its output width; the CNN
   * keeps the batch size and emits `cnnWidth` features; the subsampling rule
   * is monotone.
   */
  ghost predicate Sound<E(!new), R>(k: Kernels<E, R>, cnnWidth: nat) {
    && (forall l: RnnLayer, x: Tensor<E>, lens: seq<nat> {:trigger k.run(l, x, lens)} :: Width(x, l.inputSize) ==>
          && Grid(k.run(l, x, lens).0) == Grid(x)
          && Width(k.run(l, x, lens).0, l.OutputWidth())
          && |k.run(l, x, lens).1| == l.Directions())
    && (forall p: Projection, x: Tensor<E> {:trigger k.project(p, x)} :: Width(x, p.inputSize) ==>
          Grid(k.project(p, x)) == Grid(x) && Width(k.project(p, x), p.outputSize))
    && (forall x: Tensor<E> :: |k.cnn(x)| == |x| && Width(k.cnn(x), cnnWidth))
    && (forall a: nat, b: nat :: a <= b ==> k.convOutSize(a) <= k.convOutSize(b))
  }

  /** A packed batch: padded data with the valid length of each example. */
  datatype Packed<E> = Packed(data: Tensor<E>, lengths: seq<nat>)

  /** `pack_padded_sequence`, which needs one length per example in non-increasing order. */
  function Pack<E>(x: Tensor<E>, lengths: seq<nat>): Packed<E>
    requires |lengths| == |x| && NonIncreasing(lengths)
  {
    Packed(x, lengths)
  }

  /** `pad_packed_sequence`: the padded data and the lengths it was packed with. */
  function Unpack<E>(p: Packed<E>): (Tensor<E>, seq<nat>) {
    (p.data, p.lengths)
  }

  /** The sub-task tap: the packed output and h_n of layer num_layers_sub - 1. */
  datatype Snapshot<E, R> = Snapshot(out: Packed<E>, hn: seq<R>)

  /** The loop variables after some layers: outputs, h_n, res_outputs_list and the tap. */
  datatype Carry<E, R> = Carry(out: Packed<E>, hn: seq<R>, retained: seq<Tensor<E>>, sub: Option<Snapshot<E, R>>)

  /** The width of the loop's `outputs` after `n` layers: the front-end width, then each layer's output width. */
  function CarriedWidth(s: Settings, n: nat): nat {
    if n == 0 then s.frontWidth else OutWidth(s, n - 1)
  }

  /**
   * What the layer loop keeps true after `n` layers, for a batch with grid `g`
   * and lengths `lens`: the output keeps the grid and the tracked lengths, it
   * is as wide as the last layer emits, there is one final-state row per
   * direction, and the retained outputs share the output's shape.
   */
  ghost predicate Fits<E, R>(s: Settings, c: Carry<E, R>, g: seq<nat>, lens: seq<nat>, n: nat) {
    && |lens| == |g| && NonIncreasing(lens)
    && Grid(c.out.data) == g
    && Width(c.out.data, CarriedWidth(s, n))
    && c.out.lengths == lens
    && (n > 0 ==> |c.hn| == s.NumDirections())
    && Uniform(c.retained, g, s.RnnOutputWidth())
  }

  /** The preconditions under which the layer loop runs without a shape error. */
  ghost predicate Runnable<E(!new), R>(s: Settings, k: Kernels<E, R>) {
    s.Valid() && s.ResidualWidthsAgree() && Sound(k, s.frontWidth)
  }

  /** `p0` is a packed batch layer 0 can read: one non-increasing length per example, front-end width. */
  ghost predicate Feeds<E>(s: Settings, p0: Packed<E>) {
    Width(p0.data, s.frontWidth) && |p0.lengths| == |p0.data| && NonIncreasing(p0.lengths)
  }

  /** Layer `i`'s output before residual sums: projected unless it is the top layer or there is no projection. */
  function Projected<E, R>(s: Settings, k: Kernels<E, R>, i: nat, o: Tensor<E>): Tensor<E> {
    if s.numProj > 0 && i != s.numLayers - 1 then k.project(ProjectionAt(s, i), o) else o
  }

  /** The packed output of recurrent layer `i` before any projection or residual sum. */
  function RawLayer<E, R>(s: Settings, k: Kernels<E, R>, c: Carry<E, R>, i: nat): Tensor<E> {
    k.run(RnnLayerAt(s, i), c.out.data, c.out.lengths).0
  }

  /**
   * Layer `i` applied to the loop variables left by layers `0 .. i - 1`: its
   * output after the projection (if any) and the residual sum (if any), and
   * its h_n. A projection applies only below the top layer, so `Projected`
   * leaves the output alone whenever the source skips that branch.
   */
  ghost function LayerResult<E(!new), R>(s: Settings, k: Kernels<E, R>, p0: Packed<E>, i: nat): (r: (Tensor<E>, seq<R>))
    requires Runnable(s, k) && i < s.numLayers
    requires Feeds(s, p0)
    ensures Grid(r.0) == Grid(p0.data) && Width(r.0, OutWidth(s, i)) && |r.1| == s.NumDirections()
    decreases i, 1
  {
    var c := RunLayers(s, k, p0, i);
    var (o, h) := k.run(RnnLayerAt(s, i), c.out.data, c.out.lengths);
    var w := s.RnnOutputWidth();
    var y := Projected(s, k, i, o);
    if s.residual || s.denseResidual then (Accumulate(y, c.retained, k.plus, w), h) else (y, h)
  }

  /**
   * One pass of the layer loop body: layer `i` applied to the loop variables
   * left by layers `0 .. i - 1`.
   */
  ghost function Step<E(!new), R>(s: Settings, k: Kernels<E, R>, p0: Packed<E>, i: nat): (c': Carry<E, R>)
    requires Runnable(s, k) && i < s.numLayers
    requires Feeds(s, p0)
    ensures Fits(s, c', Grid(p0.data), p0.lengths, i + 1)
    decreases i, 2
  {
    var c := RunLayers(s, k, p0, i);
    var lens := p0.lengths;
    var (y, h) := LayerResult(s, k, p0, i);
    var out := Pack(y, lens);
    var retained := if s.residual then [y] else if s.denseResidual then c.retained + [y] else c.retained;
    Carry(out, h, retained, if i == s.numLayersSub - 1 then Some(Snapshot(out, h)) else c.sub)
  }

  /** The loop variables after the first `n` layers, starting from the packed front-end output `p0`. */
  ghost function RunLayers<E(!new), R>(s: Settings, k: Kernels<E, R>, p0: Packed<E>, n: nat): (c: Carry<E, R>)
    requires Runnable(s, k) && n <= s.numLayers
    requires Feeds(s, p0)
    ensures Fits(s, c, Grid(p0.data), p0.lengths, n)
    decreases n, 0
  {
    if n == 0 then Carry(p0, [], [], None) else Step(s, k, p0, n - 1)
  }

  /** How one loop pass updates res_outputs_list: replaced, appended to, or left alone. */
  lemma StepRetained<E(!new), R>(s: Settings, k: Kernels<E, R>, p0: Packed<E>, i: nat)
    requires Runnable(s, k) && i < s.numLayers
    requires Feeds(s, p0)
    ensures s.residual ==> Step(s, k, p0, i).retained == [Step(s, k, p0, i).out.data]
    ensures s.denseResidual ==>
              Step(s, k, p0, i).retained == RunLayers(s, k, p0, i).retained + [Step(s, k, p0, i).out.data]
    ensures !s.residual && !s.denseResidual ==> Step(s, k, p0, i).retained == RunLayers(s, k, p0, i).retained
  {
  }

  /** Under plain residual, res_outputs_list holds only the latest layer output. */
  lemma ResidualRetained<E(!new), R>(s: Settings, k: Kernels<E, R>, p0: Packed<E>, n: nat)
    requires Runnable(s, k) && 1 <= n <= s.numLayers && s.residual
    requires Feeds(s, p0)
    ensures RunLayers(s, k, p0, n).retained == [RunLayers(s, k, p0, n).out.data]
  {
    StepRetained(s, k, p0, n - 1);
  }

  /** The outputs of layers `0 .. n - 1`, in layer order. */
  ghost function LayerOutputs<E(!new), R>(s: Settings, k: Kernels<E, R>, p0: Packed<E>, n: nat): (outs: seq<Tensor<E>>)
    requires Runnable(s, k) && n <= s.numLayers
    requires Feeds(s, p0)
    ensures |outs| == n
  {
    if n == 0 then [] else LayerOutputs(s, k, p0, n - 1) + [RunLayers(s, k, p0, n).out.data]
  }

  /** Entry `j` of LayerOutputs is what layer `j` produced. */
  lemma {:induction false} LayerOutputsAt<E(!new), R>(s: Settings, k: Kernels<E, R>, p0: Packed<E>, n: nat, j: nat)
    requires Runnable(s, k) && j < n <= s.numLayers
    requires Feeds(s, p0)
    ensures LayerOutputs(s, k, p0, n)[j] == RunLayers(s, k, p0, j + 1).out.data
  {
    if j < n - 1 {
      assert LayerOutputs(s, k, p0, n)[j] == LayerOutputs(s, k, p0, n - 1)[j];
      LayerOutputsAt(s, k, p0, n - 1, j);
    }
  }

  /**
   * Under dense residual, res_outputs_list after `n` layers holds the output
   * of every layer so far, in layer order.
   */
  lemma {:induction false} DenseRetained<E(!new), R>(s: Settings, k: Kernels<E, R>, p0: Packed<E>, n: nat)
    requires Runnable(s, k) && n <= s.numLayers && s.denseResidual
    requires Feeds(s, p0)
    ensures RunLayers(s, k, p0, n).retained == LayerOutputs(s, k, p0, n)
  {
    if n > 0 {
      var c := RunLayers(s, k, p0, n - 1);
      StepRetained(s, k, p0, n - 1);
      DenseRetained(s, k, p0, n - 1);
      assert LayerOutputs(s, k, p0, n) == c.retained + [RunLayers(s, k, p0, n).out.data];
    }
  }

  /** Without a residual mode, res_outputs_list stays empty. */
  lemma {:induction false} PlainRetained<E(!new), R>(s: Settings, k: Kernels<E, R>, p0: Packed<E>, n: nat)
    requires Runnable(s, k) && n <= s.numLayers && !s.residual && !s.denseResidual
    requires Feeds(s, p0)
    ensures RunLayers(s, k, p0, n).retained == []
  {
    if n > 0 {
      StepRetained(s, k, p0, n - 1);
      PlainRetained(s, k, p0, n - 1);
    }
  }

  /**
   * Layer `i`'s output is its own (projected) output, plus, from the second
   * layer on and under a residual mode, the sum of the retained lower outputs:
   * under plain residual the previous layer's output, under dense residual
   * the outputs of every lower layer.
   */
  lemma ResidualConnection<E(!new), R>(s: Settings, k: Kernels<E, R>, p0: Packed<E>, i: nat)
    requires Runnable(s, k) && i < s.numLayers && Associative(k.plus)
    requires Feeds(s, p0)
    ensures var c := RunLayers(s, k, p0, i);
            var y := Projected(s, k, i, RawLayer(s, k, c, i));
            var out := RunLayers(s, k, p0, i + 1).out.data;
            && (i == 0 || !(s.residual || s.denseResidual) ==> out == y)
            && (i > 0 && (s.residual || s.denseResidual) ==>
                  && |c.retained| > 0
                  && Uniform(c.retained, Grid(y), s.RnnOutputWidth())
                  && Width(y, s.RnnOutputWidth())
                  && (s.residual ==> c.retained == [c.out.data])
                  && (s.denseResidual ==> c.retained == LayerOutputs(s, k, p0, i))
                  && out == Add(y, SumAll(c.retained, k.plus, s.RnnOutputWidth()), k.plus, s.RnnOutputWidth()))
  {
    var c := RunLayers(s, k, p0, i);
    var w := s.RnnOutputWidth();
    var y := Projected(s, k, i, RawLayer(s, k, c, i));
    assert RunLayers(s, k, p0, i + 1).out.data == LayerResult(s, k, p0, i).0;
    if i > 0 && (s.residual || s.denseResidual) {
      if s.residual {
        ResidualRetained(s, k, p0, i);
      } else {
        DenseRetained(s, k, p0, i);
      }
      assert Width(y, w);
      AccumulateIsSum(y, c.retained, k.plus, w);
    }
  }

  /** How one loop pass updates the sub-task tap. */
  lemma StepTap<E(!new), R>(s: Settings, k: Kernels<E, R>, p0: Packed<E>, i: nat)
    requires Runnable(s, k) && i < s.numLayers
    requires Feeds(s, p0)
    ensures Step(s, k, p0, i).sub ==
              if i == s.numLayersSub - 1 then Some(Snapshot(Step(s, k, p0, i).out, Step(s, k, p0, i).hn))
              else RunLayers(s, k, p0, i).sub
  {
  }

  /**
   * The sub-task tap is unset before layer num_layers_sub - 1 has run; from
   * then on it holds that layer's packed output and h_n and never changes.
   */
  lemma {:induction false} SubLayerTap<E(!new), R>(s: Settings, k: Kernels<E, R>, p0: Packed<E>, n: nat)
    requires Runnable(s, k) && n <= s.numLayers
    requires Feeds(s, p0)
    ensures n < s.numLayersSub ==> RunLayers(s, k, p0, n).sub == None
    ensures n >= s.numLayersSub ==>
              RunLayers(s, k, p0, n).sub == Some(Snapshot(RunLayers(s, k, p0, s.numLayersSub).out, RunLayers(s, k, p0, s.numLayersSub).hn))
  {
    if n > 0 {
      StepTap(s, k, p0, n - 1);
      SubLayerTap(s, k, p0, n - 1);
    }
  }

  /**
   * The final state of the top layer's forward direction from a one-layer
   * h_n of `[num_directions, B, num_units]`: `h_n[-2:-1]` when bidirectional,
   * `h_n[-1].unsqueeze(0)` otherwise.
   */
  function ForwardRow<R>(hn: seq<R>, bidirectional: bool): (r: seq<R>)
    requires |hn| == if bidirectional then 2 else 1
    ensures r == [hn[0]]
  {
    if bidirectional then hn[|hn| - 2..|hn| - 1] else [hn[|hn| - 1]]
  }

  /** The CNN's length rule applied to every sorted length. */
  function ConvLengths(convOutSize: nat -> nat, lens: seq<nat>): (r: seq<nat>)
    ensures |r| == |lens|
    ensures forall i :: 0 <= i < |lens| ==> r[i] == convOutSize(lens[i])
  {
    seq(|lens|, i requires 0 <= i < |lens| => convOutSize(lens[i]))
  }

  /**
   * The packed input of the first recurrent layer: the batch in descending
   * length order, through the CNN when there is one, with lengths rewritten by
   * its subsampling rule. The rewritten lengths stay non-increasing, so
   * packing is legal, and the data is as wide as layer 0 was built to read.
   */
  ghost function FrontEnd<E(!new), R>(s: Settings, k: Kernels<E, R>, inputs: Tensor<E>, inputsSeqLen: seq<nat>): (p: Packed<E>)
    requires Sound(k, s.frontWidth) && |inputsSeqLen| == |inputs|
    requires !s.useCnn ==> Width(inputs, s.frontWidth)
    ensures |p.lengths| == |p.data| == |inputs| && NonIncreasing(p.lengths)
    ensures Width(p.data, s.frontWidth)
    ensures var perm := SortIndices(inputsSeqLen);
            && (forall b :: 0 <= b < |inputs| ==>
                  p.lengths[b] == if s.useCnn then k.convOutSize(inputsSeqLen[perm[b]]) else inputsSeqLen[perm[b]])
            && (!s.useCnn ==> forall b :: 0 <= b < |inputs| ==> p.data[b] == inputs[perm[b]])
            && (s.useCnn ==> p.data == k.cnn(Gather(inputs, perm)))
  {
    var perm := SortIndices(inputsSeqLen);
    var seqLen := Gather(inputsSeqLen, perm);
    var x := Gather(inputs, perm);
    assert !s.useCnn ==> Width(x, s.frontWidth) by {
      if !s.useCnn {
        forall b, t | 0 <= b < |x| && 0 <= t < |x[b]| ensures |x[b][t]| == s.frontWidth {
          assert x[b] == inputs[perm[b]];
        }
      }
    }
    if s.useCnn then Pack(k.cnn(x), ConvLengths(k.convOutSize, seqLen))
    else Pack(x, seqLen)
  }

  /**
   * The shapes the forward pass reads off the last layer and the tap layer:
   * both keep the batch's time grid, each h_n has one row per direction, the
   * top output is num_directions * num_units wide, and when directions are
   * merged the tap output is too. The loop's tap holds the tap layer's values.
   */
  lemma TopAndTap<E(!new), R>(s: Settings, k: Kernels<E, R>, p0: Packed<E>)
    requires Runnable(s, k) && s.MergeWidthsAgree()
    requires Feeds(s, p0)
    ensures var top := RunLayers(s, k, p0, s.numLayers);
            var tap := RunLayers(s, k, p0, s.numLayersSub);
            && Grid(top.out.data) == Grid(p0.data) && Grid(tap.out.data) == Grid(p0.data)
            && Width(top.out.data, s.RnnOutputWidth())
            && (s.bidirectional && s.mergeBidirectional ==> Width(tap.out.data, s.RnnOutputWidth()))
            && top.out.lengths == p0.lengths && tap.out.lengths == p0.lengths
            && |top.hn| == s.NumDirections() && |tap.hn| == s.NumDirections()
            && top.sub == Some(Snapshot(tap.out, tap.hn))
  {
    SubLayerTap(s, k, p0, s.numLayers);
  }

  /** The five values the forward pass returns. */
  datatype EncoderOutput<E, R> = EncoderOutput(
    outputs: Tensor<E>,
    finalStateFw: seq<R>,
    outputsSub: Tensor<E>,
    finalStateFwSub: seq<R>,
    permIndices: seq<nat>)

  /**
   * The forward pass. The returned permutation sorts the lengths into
   * non-increasing order; the outputs are the top layer's and the tap layer's
   * outputs (merged over directions when requested, halving their width to
   * num_units); the final states are those layers' forward-direction rows.
   */
  ghost function ForwardSpec<E(!new), R>(s: Settings, k: Kernels<E, R>, inputs: Tensor<E>, inputsSeqLen: seq<nat>): (r: EncoderOutput<E, R>)
    requires Runnable(s, k) && s.MergeWidthsAgree() && |inputsSeqLen| == |inputs|
    requires !s.useCnn ==> Width(inputs, s.frontWidth)
    ensures r.permIndices == SortIndices(inputsSeqLen) && IsPermutation(r.permIndices, |inputs|)
    ensures NonIncreasing(Gather(inputsSeqLen, r.permIndices))
    ensures var p0 := FrontEnd(s, k, inputs, inputsSeqLen);
            var top := RunLayers(s, k, p0, s.numLayers);
            var tap := RunLayers(s, k, p0, s.numLayersSub);
            var merge := s.bidirectional && s.mergeBidirectional;
            && Grid(r.outputs) == Grid(p0.data) && Grid(r.outputsSub) == Grid(p0.data)
            && Width(r.outputs, if merge then s.numUnits else s.RnnOutputWidth())
            && (merge ==> Width(r.outputsSub, s.numUnits))
            && (!merge ==> Width(r.outputsSub, OutWidth(s, s.numLayersSub - 1)))
            && r.outputs == (if merge then MergeDirections(top.out.data, s.numUnits, k.plus) else top.out.data)
            && r.outputsSub == (if merge then MergeDirections(tap.out.data, s.numUnits, k.plus) else tap.out.data)
            && r.finalStateFw == [top.hn[0]]
            && r.finalStateFwSub == [tap.hn[0]]
  {
    var perm := SortIndices(inputsSeqLen);
    var p0 := FrontEnd(s, k, inputs, inputsSeqLen);
    var c := RunLayers(s, k, p0, s.numLayers);
    var tap := RunLayers(s, k, p0, s.numLayersSub);
    TopAndTap(s, k, p0);
    var sub := c.sub.value;
    var merge := s.bidirectional && s.mergeBidirectional;
    EncoderOutput(
      if merge then MergeDirections(c.out.data, s.numUnits, k.plus) else c.out.data,
      ForwardRow(c.hn, s.bidirectional),
      if merge then MergeDirections(sub.out.data, s.numUnits, k.plus) else sub.out.data,
      ForwardRow(sub.hn, s.bidirectional),
      perm)
  }

  /**
   * Three sequences of lengths [5, 3, 4] padded to 5 frames, one direction,
   * no CNN front-end, any depth and tap (for instance two layers with the
   * sub-task tap at layer 1): the batch is reordered as [0, 2, 1], both
   * outputs keep 5 frames per example, and each final state has one row.
   */
  lemma ThreeSequenceForward<E(!new), R>(s: Settings, k: Kernels<E, R>, inputs: Tensor<E>, lens: seq<nat>)
    requires Runnable(s, k) && !s.useCnn && !s.bidirectional
    requires lens == [5, 3, 4]
    requires |inputs| == 3 && (forall b :: 0 <= b < 3 ==> |inputs[b]| == 5) && Width(inputs, s.frontWidth)
    ensures var r := ForwardSpec(s, k, inputs, lens);
            && r.permIndices == [0, 2, 1]
            && (forall b :: 0 <= b < 3 ==> |r.outputs[b]| == 5 && |r.outputsSub[b]| == 5)
            && |r.finalStateFw| == 1 && |r.finalStateFwSub| == 1
  {
    var r := ForwardSpec(s, k, inputs, lens);
    var p0 := FrontEnd(s, k, inputs, lens);
    ThreeSequenceOutputs(r, p0.data, inputs, lens);
  }

  /**
   * The facts of the forward pass that the three-sequence example needs,
   * stated over any result: its permutation sorts [5, 3, 4], its outputs lie
   * on the grid of the permuted inputs, and its final states have one row.
   */
  lemma ThreeSequenceOutputs<E, R>(r: EncoderOutput<E, R>, sorted: Tensor<E>, inputs: Tensor<E>, lens: seq<nat>)
    requires lens == [5, 3, 4] && |inputs| == 3 && (forall b :: 0 <= b < 3 ==> |inputs[b]| == 5)
    requires IsPermutation(r.permIndices, 3) && NonIncreasing(Gather(lens, r.permIndices))
    requires |sorted| == 3 && forall b :: 0 <= b < 3 ==> sorted[b] == inputs[r.permIndices[b]]
    requires Grid(r.outputs) == Grid(sorted) && Grid(r.outputsSub) == Grid(sorted)
    requires |r.finalStateFw| == 1 && |r.finalStateFwSub| == 1
    ensures r.permIndices == [0, 2, 1]
    ensures forall b :: 0 <= b < 3 ==> |r.outputs[b]| == 5 && |r.outputsSub[b]| == 5
  {
    SortedIsDescending(lens, r.permIndices);
    ThreeSequenceScenario(r.permIndices);
    KeepsFrames(r.outputs, sorted, inputs, r.permIndices, 5);
    KeepsFrames(r.outputsSub, sorted, inputs, r.permIndices, 5);
  }

  /** Lengths read through `p` that never increase are a descending order of `lens`. */
  lemma SortedIsDescending(lens: seq<nat>, p: seq<nat>)
    requires forall i :: 0 <= i < |p| ==> p[i] < |lens|
    requires NonIncreasing(Gather(lens, p))
    ensures Descending(lens, p)
  {
    forall i, j | 0 <= i < j < |p| ensures lens[p[i]] >= lens[p[j]] {
      assert Gather(lens, p)[i] == lens[p[i]] && Gather(lens, p)[j] == lens[p[j]];
    }
  }

  /** An output on the grid of the permuted inputs has the inputs' common frame count. */
  lemma KeepsFrames<E>(out: Tensor<E>, sorted: Tensor<E>, inputs: Tensor<E>, p: seq<nat>, frames: nat)
    requires Grid(out) == Grid(sorted) && |sorted| == |p| == |inputs|
    requires forall b :: 0 <= b < |p| ==> p[b] < |inputs| && sorted[b] == inputs[p[b]]
    requires forall b :: 0 <= b < |inputs| ==> |inputs[b]| == frames
    ensures forall b :: 0 <= b < |out| ==> |out[b]| == frames
  {
    forall b | 0 <= b < |out| ensures |out[b]| == frames {
      assert Grid(out)[b] == Grid(sorted)[b];
    }
  }
}
