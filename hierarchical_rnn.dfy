/**
 * The hierarchical RNN encoder object: construction registers one recurrent
 * module (and, with a projection, one projection module) per layer; the
 * forward pass runs them over a length-sorted, packed batch and also taps the
 * output of layer num_layers_sub - 1 for the sub task.
 */
module HierarchicalRnn {
  import opened Wrappers
  import opened Tensors
  import opened LengthSort
  import opened EncoderConfig
  import opened EncoderForward

  class HierarchicalRnnEncoder {
    const settings: Settings
    var rnns: seq<RnnLayer>
    var projections: seq<Projection>

    /** Layer `i` of `rnns` and of `projections` is the one built for position `i` of the stack. */
    ghost predicate Valid()
      reads this
    {
      && settings.Valid()
      && |rnns| == settings.numLayers
      && (forall i :: 0 <= i < |rnns| ==> rnns[i] == RnnLayerAt(settings, i))
      && |projections| == (if settings.numProj > 0 then settings.numLayers else 0)
      && (forall i :: 0 <= i < |projections| ==> projections[i] == ProjectionAt(settings, i))
    }

    /** Registers the recurrent and projection modules of an accepted configuration. */
    constructor(s: Settings)
      requires s.Valid()
      ensures settings == s && Valid()
    {
      settings := s;
      new;
      rnns := [];
      projections := [];
      var i := 0;
      while i < s.numLayers
        invariant 0 <= i <= s.numLayers
        invariant |rnns| == i
        invariant forall j :: 0 <= j < i ==> rnns[j] == RnnLayerAt(s, j)
        invariant |projections| == (if s.numProj > 0 then i else 0)
        invariant forall j :: 0 <= j < |projections| ==> projections[j] == ProjectionAt(s, j)
      {
        var encoderInputSize;
        if i == 0 {
          encoderInputSize := s.frontWidth;
        } else if s.numProj > 0 {
          encoderInputSize := s.numProj;
        } else {
          encoderInputSize := s.RnnOutputWidth();
        }
        rnns := rnns + [RnnLayer(i, s.rnnType, encoderInputSize, s.numUnits, s.bidirectional)];
        if s.numProj > 0 {
          projections := projections + [Projection(i, s.RnnOutputWidth(), s.numProj)];
        }
        i := i + 1;
      }
    }

    /**
     * One pass of the forward loop for layer `i`: run the recurrent module;
     * under a projection or a residual mode, unpad, project (all but the top
     * layer), add the retained lower outputs and repack; record the sub-task
     * tap at layer num_layers_sub - 1.
     */
    method ApplyLayer<E(!new), R>(k: Kernels<E, R>, ghost p0: Packed<E>, i: nat, outputs: Packed<E>, hn: seq<R>,
                                  resOutputsList: seq<Tensor<E>>, sub: Option<Snapshot<E, R>>)
      returns (outputs': Packed<E>, hn': seq<R>, resOutputsList': seq<Tensor<E>>, sub': Option<Snapshot<E, R>>)
      requires Valid() && Runnable(settings, k) && i < settings.numLayers
      requires Feeds(settings, p0)
      requires Carry(outputs, hn, resOutputsList, sub) == RunLayers(settings, k, p0, i)
      ensures Carry(outputs', hn', resOutputsList', sub') == Step(settings, k, p0, i)
    {
      var s := settings;
      var (o, h) := k.run(rnns[i], outputs.data, outputs.lengths);
      hn' := h;
      outputs' := Packed(o, outputs.lengths);
      resOutputsList' := resOutputsList;
      if s.residual || s.denseResidual || s.numProj > 0 {
        var (padded, unpackedSeqLen) := Unpack(outputs');
        assert unpackedSeqLen == p0.lengths;
        if s.numProj > 0 && i != s.numLayers - 1 {
          padded := k.project(projections[i], padded);
        }
        if s.residual || s.denseResidual {
          padded := ResidualSum(padded, resOutputsList, k.plus, s.RnnOutputWidth());
          if s.residual {
            resOutputsList' := [padded];
          } else {
            resOutputsList' := resOutputsList + [padded];
          }
        }
        outputs' := Pack(padded, unpackedSeqLen);
      }
      sub' := sub;
      if i == s.numLayersSub - 1 {
        sub' := Some(Snapshot(outputs', hn'));
      }
    }

    /**
     * The forward pass over a batch `inputs` of `[B][T][input_size]` with one
     * valid length per example. It returns what ForwardSpec describes: the
     * top and sub-task outputs, their forward-direction final states and the
     * permutation that sorted the batch.
     */
    method Forward<E(!new), R>(inputs: Tensor<E>, inputsSeqLen: seq<nat>, k: Kernels<E, R>) returns (r: EncoderOutput<E, R>)
      requires Valid() && Runnable(settings, k) && settings.MergeWidthsAgree()
      requires |inputsSeqLen| == |inputs|
      requires !settings.useCnn ==> Width(inputs, settings.frontWidth)
      ensures r == ForwardSpec(settings, k, inputs, inputsSeqLen)
    {
      var s := settings;

      // Sort the batch by length, longest first; then the optional CNN.
      var permIndices := SortIndices(inputsSeqLen);
      var seqLen := Gather(inputsSeqLen, permIndices);
      var x := Gather(inputs, permIndices);
      if s.useCnn {
        x := k.cnn(x);
        seqLen := ConvLengths(k.convOutSize, seqLen);
      }
      ghost var p0 := FrontEnd(s, k, inputs, inputsSeqLen);
      assert x == p0.data && seqLen == p0.lengths;

      var outputs := Pack(x, seqLen);
      var hn: seq<R> := [];
      var resOutputsList: seq<Tensor<E>> := [];
      var sub: Option<Snapshot<E, R>> := None;
      for i := 0 to s.numLayers
        invariant Carry(outputs, hn, resOutputsList, sub) == RunLayers(s, k, p0, i)
      {
        outputs, hn, resOutputsList, sub := ApplyLayer(k, p0, i, outputs, hn, resOutputsList, sub);
      }

      TopAndTap(s, k, p0);
      var (padded, unpackedSeqLen) := Unpack(outputs);
      var (paddedSub, unpackedSeqLenSub) := Unpack(sub.value.out);
      assert seqLen == unpackedSeqLen;
      assert seqLen == unpackedSeqLenSub;

      if s.bidirectional && s.mergeBidirectional {
        padded := MergeDirections(padded, s.numUnits, k.plus);
        paddedSub := MergeDirections(paddedSub, s.numUnits, k.plus);
      }

      var finalStateFw := ForwardRow(hn, s.bidirectional);
      var finalStateFwSub := ForwardRow(sub.value.hn, s.bidirectional);
      r := EncoderOutput(padded, finalStateFw, paddedSub, finalStateFwSub, permIndices);
    }
  }

  /** `for outputs_lower in res_outputs_list: outputs = outputs + outputs_lower`. */
  method ResidualSum<E>(y: Tensor<E>, lower: seq<Tensor<E>>, plus: (E, E) -> E, ghost d: int) returns (z: Tensor<E>)
    requires Width(y, d) && Uniform(lower, Grid(y), d)
    ensures z == Accumulate(y, lower, plus, d)
  {
    z := y;
    for j := 0 to |lower|
      invariant z == Accumulate(y, lower[..j], plus, d)
    {
      assert lower[..j + 1][..j] == lower[..j];
      z := Add(z, lower[j], plus, d);
    }
    assert lower[..|lower|] == lower;
  }

  /**
   * `HierarchicalRNNEncoder(...)`: refuses the configurations the constructor
   * refuses, with the error it raises first, and otherwise builds an encoder
   * whose settings are the validated ones.
   */
  method Build(cfg: Config, cnnOutputSize: nat) returns (r: Result<HierarchicalRnnEncoder, ConfigError>)
    ensures r.Failure? <==> Validate(cfg, cnnOutputSize).Failure?
    ensures r.Failure? ==> r.error == Validate(cfg, cnnOutputSize).error
    ensures r.Success? ==> fresh(r.value) && r.value.Valid() && r.value.settings == Validate(cfg, cnnOutputSize).value
  {
    match Validate(cfg, cnnOutputSize)
    case Failure(e) =>
      r := Failure(e);
    case Success(s) =>
      var encoder := new HierarchicalRnnEncoder(s);
      r := Success(encoder);
  }
}
