/**
 * Construction-time validation and shape arithmetic of the hierarchical RNN
 * encoder: which configurations are refused, the width the first recurrent
 * layer reads, and the registered recurrent and projection layers.
 */
module EncoderConfig {
  import opened Wrappers

  datatype RnnType = Lstm | Gru | Rnn

  function ParseRnnType(name: string): Option<RnnType> {
    if name == "lstm" then Some(Lstm)
    else if name == "gru" then Some(Gru)
    else if name == "rnn" then Some(Rnn)
    else None
  }

  /**
   * The constructor arguments that the bookkeeping depends on. Lists of
   * convolution parameters matter only through their lengths here; their
   * values are handed to the convolutional front-end.
   */
  datatype Config = Config(
    inputSize: nat,
    rnnType: string,
    bidirectional: bool,
    numUnits: nat,
    numProj: Option<int>,
    numLayers: nat,
    numLayersSub: int,
    mergeBidirectional: bool,
    numStack: nat,
    splice: nat,
    convChannels: seq<nat>,
    convKernelSizes: seq<(nat, nat)>,
    convStrides: seq<(nat, nat)>,
    residual: bool,
    denseResidual: bool)

  /** Why a configuration is refused, in the order the constructor checks. */
  datatype ConfigError =
    | SubLayerOutOfRange    // ValueError: num_layers_sub outside 1..num_layers
    | BothResidualModes     // assertion: residual and dense_residual together
    | StackedFramesWithCnn  // assertion: num_stack != 1 with a CNN front-end
    | SplicedFramesWithCnn  // assertion: splice != 1 with a CNN front-end
    | UnknownRnnType        // ValueError: rnn_type not lstm, gru or rnn

  /** The attributes an accepted configuration leaves on the encoder. */
  datatype Settings = Settings(
    rnnType: RnnType,
    bidirectional: bool,
    numUnits: nat,
    numProj: int,
    numLayers: nat,
    numLayersSub: nat,
    mergeBidirectional: bool,
    residual: bool,
    denseResidual: bool,
    useCnn: bool,
    frontWidth: nat)
  {
    function NumDirections(): nat {
      DirectionCount(bidirectional)
    }

    /** `num_units * num_directions`: the width of an unprojected layer output. */
    function RnnOutputWidth(): nat {
      StackedWidth(numUnits, bidirectional)
    }

    /** The invariant every constructed encoder satisfies. */
    ghost predicate Valid() {
      1 <= numLayersSub <= numLayers && !(residual && denseResidual)
    }

    /**
     * With more than one layer, residual sums add projected lower outputs to
     * the unprojected top output, so with a projection both widths must agree
     * (otherwise the tensor library refuses the addition, or broadcasts a
     * 1-wide operand). A single layer is never projected and has nothing to add.
     */
    predicate ResidualWidthsAgree() {
      (residual || denseResidual) && numProj > 0 && numLayers > 1 ==> numProj == RnnOutputWidth()
    }

    /**
     * Merging the directions splits the sub-task output into two halves of
     * num_units features; a projected sub-task output must then have
     * 2 * num_units features (otherwise the tensor library refuses the sum,
     * or broadcasts a 1-wide second half).
     */
    predicate MergeWidthsAgree() {
      bidirectional && mergeBidirectional && numProj > 0 && numLayersSub < numLayers ==>
        numProj == 2 * numUnits
    }
  }

  /** The front-end is convolutional exactly when the three convolution lists are non-empty and equally long. */
  predicate UsesCnn(cfg: Config) {
    |cfg.convChannels| > 0 &&
    |cfg.convChannels| == |cfg.convKernelSizes| &&
    |cfg.convKernelSizes| == |cfg.convStrides|
  }

  predicate SubLayerInRange(cfg: Config) {
    1 <= cfg.numLayersSub <= cfg.numLayers
  }

  /** Front-end checks: a CNN front-end forbids frame stacking and splicing. */
  predicate FrontEndAccepted(cfg: Config) {
    UsesCnn(cfg) ==> cfg.numStack == 1 && cfg.splice == 1
  }

  /**
   * The checks of the constructor, in its order, and the settings it records.
   * `cnnOutputSize` is the feature width the convolutional front-end reports;
   * it is used only when that front-end is built.
   */
  function Validate(cfg: Config, cnnOutputSize: nat): (r: Result<Settings, ConfigError>)
    ensures r == Failure(SubLayerOutOfRange) <==> !SubLayerInRange(cfg)
    ensures r == Failure(BothResidualModes) <==>
              SubLayerInRange(cfg) && cfg.residual && cfg.denseResidual
    ensures r == Failure(StackedFramesWithCnn) <==>
              SubLayerInRange(cfg) && !(cfg.residual && cfg.denseResidual) &&
              UsesCnn(cfg) && cfg.numStack != 1
    ensures r == Failure(SplicedFramesWithCnn) <==>
              SubLayerInRange(cfg) && !(cfg.residual && cfg.denseResidual) &&
              UsesCnn(cfg) && cfg.numStack == 1 && cfg.splice != 1
    ensures r == Failure(UnknownRnnType) <==>
              SubLayerInRange(cfg) && !(cfg.residual && cfg.denseResidual) &&
              FrontEndAccepted(cfg) && ParseRnnType(cfg.rnnType).None?
    ensures r.Success? ==>
              && r.value.Valid()
              && ParseRnnType(cfg.rnnType) == Some(r.value.rnnType)
              && r.value.useCnn == UsesCnn(cfg)
              && r.value.frontWidth == (if UsesCnn(cfg) then cnnOutputSize
                                        else cfg.inputSize * cfg.splice * cfg.numStack)
              && r.value.numProj == (if cfg.numProj.Some? then cfg.numProj.value else 0)
              && r.value.numLayers == cfg.numLayers && r.value.numLayersSub == cfg.numLayersSub
              && r.value.numUnits == cfg.numUnits && r.value.bidirectional == cfg.bidirectional
              && r.value.mergeBidirectional == cfg.mergeBidirectional
              && r.value.residual == cfg.residual && r.value.denseResidual == cfg.denseResidual
  {
    if cfg.numLayersSub < 1 || cfg.numLayers < cfg.numLayersSub then Failure(SubLayerOutOfRange)
    else if cfg.residual && cfg.denseResidual then Failure(BothResidualModes)
    else if UsesCnn(cfg) && cfg.numStack != 1 then Failure(StackedFramesWithCnn)
    else if UsesCnn(cfg) && cfg.splice != 1 then Failure(SplicedFramesWithCnn)
    else
      match ParseRnnType(cfg.rnnType)
      case None => Failure(UnknownRnnType)
      case Some(kind) =>
        Success(Settings(
          rnnType := kind,
          bidirectional := cfg.bidirectional,
          numUnits := cfg.numUnits,
          numProj := if cfg.numProj.Some? then cfg.numProj.value else 0,
          numLayers := cfg.numLayers,
          numLayersSub := cfg.numLayersSub as nat,
          mergeBidirectional := cfg.mergeBidirectional,
          residual := cfg.residual,
          denseResidual := cfg.denseResidual,
          useCnn := UsesCnn(cfg),
          frontWidth := if UsesCnn(cfg) then cnnOutputSize else cfg.inputSize * cfg.splice * cfg.numStack))
  }

  /** A registered recurrent module: the `i`-th one-layer RNN of the stack. */
  datatype RnnLayer = RnnLayer(layer: nat, kind: RnnType, inputSize: nat, hiddenSize: nat, bidirectional: bool) {
    function Directions(): nat {
      DirectionCount(bidirectional)
    }

    /** `hidden_size * num_directions`: the width of this module's output. */
    function OutputWidth(): nat {
      StackedWidth(hiddenSize, bidirectional)
    }
  }

  /** `num_directions`: two for a bidirectional module, one otherwise. */
  function DirectionCount(bidirectional: bool): nat {
    if bidirectional then 2 else 1
  }

  /** `units * num_directions`, the directions' outputs side by side. */
  function StackedWidth(units: nat, bidirectional: bool): nat {
    if bidirectional then 2 * units else units
  }

  /** A registered projection (affine) module after the `i`-th recurrent layer. */
  datatype Projection = Projection(layer: nat, inputSize: nat, outputSize: nat)

  /** The input width of recurrent layer `i`. */
  function LayerInputWidth(s: Settings, i: nat): nat {
    if i == 0 then s.frontWidth
    else if s.numProj > 0 then s.numProj
    else s.RnnOutputWidth()
  }

  /** The width of layer `i`'s output once its projection (if any) is applied. */
  function OutWidth(s: Settings, i: nat): nat {
    if s.numProj > 0 && i != s.numLayers - 1 then s.numProj
    else s.RnnOutputWidth()
  }

  function RnnLayerAt(s: Settings, i: nat): RnnLayer {
    RnnLayer(i, s.rnnType, LayerInputWidth(s, i), s.numUnits, s.bidirectional)
  }

  function ProjectionAt(s: Settings, i: nat): Projection
    requires s.numProj > 0
  {
    Projection(i, s.RnnOutputWidth(), s.numProj)
  }
}
