# Hierarchical RNN encoder — a verified model

This project models `HierarchicalRNNEncoder` from
`models/pytorch/encoders/hierarchical_rnn.py`, the encoder of a hierarchical
(multi-task) speech-recognition model. It stacks `num_layers` one-layer
recurrent modules (LSTM, GRU or plain RNN, optionally bidirectional). An
optional convolutional front-end comes first. Each layer except the top one
may be followed by a linear projection. Residual or dense-residual sums run
across layers. The output of layer `num_layers_sub - 1` is returned as well,
for a second decoder.

The model covers the bookkeeping around the library calls:

- construction: the checks, the first layer's input width, and the registered modules;
- the forward pass, step by step:
  - sorting the batch by length and keeping the permutation;
  - rewriting the lengths after the CNN;
  - the per-layer loop with its projection, residual sums and sub-task tap;
  - the length checks;
  - merging the two directions;
  - choosing the forward-direction final state.

The recurrent cells, projections, CNN, its length rule and element addition
are parameters (`EncoderForward.Kernels`). A recurrent module receives the
packed batch, data and lengths. The shape behaviour of these parameters is
stated once, in the predicate `EncoderForward.Sound`. Tensors are `seq<seq<seq<E>>>`, indexed
`[batch][time][feature]`, over an abstract element type `E`. Packing and
unpacking are the identity on a `(data, lengths)` pair.

Files:

- `wrappers.dfy`: `Option`, `Result`.
- `tensors.dfy` (`Tensors`): shapes, element-wise addition, residual sums and direction merging.
- `length_sort.dfy` (`LengthSort`): the descending length sort, its permutation, and restoring the original order.
- `encoder_config.dfy` (`EncoderConfig`): constructor validation and per-layer widths.
- `encoder_forward.dfy` (`EncoderForward`): the forward pass as a specification (`ForwardSpec`, the fold `RunLayers` of `Step`) and its properties.
- `hierarchical_rnn.dfy` (`HierarchicalRnn`): the encoder class.
  - Its constructor loop appends to `rnns` and `projections`.
  - Its `Forward` method runs the layer loop and is proved equal to `ForwardSpec`.

The code and the comment at lines 281-282 disagree, and the model follows the code. The comment says `h_n` has `num_layers * num_directions` rows. Each registered module has a single layer, though, so its `h_n` has `num_directions` rows. Row `-2` (bidirectional) or row `-1` (one direction) is therefore row 0, the forward direction of that module.

The docstring at lines 179-183 and the code disagree too, and the model follows the code. The docstring gives `outputs_sub` `num_units (* num_directions)` features. With `num_proj > 0` and `num_layers_sub < num_layers`, though, the tap layer is projected (lines 237-238) and tapped after its projection (lines 255-256), so unmerged `outputs_sub` has `num_proj` features.

## Model

| member | source | states |
|---|---|---|
| EncoderConfig.Validate | models/pytorch/encoders/hierarchical_rnn.py:77-114 | Each refusal happens exactly when the constructor raises it, in its check order: `num_layers_sub` outside `1..num_layers`, then both residual modes, then stacking or splicing with a CNN, then an unknown `rnn_type`. An accepted configuration has `num_proj` defaulted to 0. The first-layer width is the CNN output size when all three conv lists are non-empty and equally long, and `input_size * splice * num_stack` otherwise. |
| HierarchicalRnn.HierarchicalRnnEncoder.constructor | models/pytorch/encoders/hierarchical_rnn.py:116-163 | `rnns` has exactly `num_layers` entries. Entry `i` reads the front-end width (i = 0), `num_proj` (if > 0) or `num_units * num_directions`. `projections` has `num_layers` entries mapping `num_units * num_directions` to `num_proj` when `num_proj > 0`, and none otherwise. |
| HierarchicalRnn.Build | models/pytorch/encoders/hierarchical_rnn.py:75-163 | Construction fails exactly when `Validate` refuses, with the same error. Otherwise it returns a fresh encoder, built from the validated settings and satisfying the constructor's invariant. |
| LengthSort.SortIndices | models/pytorch/encoders/hierarchical_rnn.py:197-198 | The returned indices are a permutation of `0..B-1`, and the lengths read through them are non-increasing. |
| LengthSort.ScatterGather | models/pytorch/encoders/hierarchical_rnn.py:197-199 | Putting each sorted element back at `perm_indices[i]` recovers the original batch. |
| LengthSort.GatherScatter | models/pytorch/encoders/hierarchical_rnn.py:197-199 | Sorting the restored batch gives back the sorted batch. |
| LengthSort.ThreeSequenceScenario | models/pytorch/encoders/hierarchical_rnn.py:197-198 | For lengths `[5, 3, 4]`, the only permutation that orders them descending is `[0, 2, 1]`. |
| EncoderForward.ConvLengths | models/pytorch/encoders/hierarchical_rnn.py:213-214 | The CNN length rule yields one rewritten length per example: entry `b` is the rule applied to the `b`-th sorted length. |
| EncoderForward.FrontEnd | models/pytorch/encoders/hierarchical_rnn.py:196-218 | Layer 0's packed input has the following properties. Entry `b` is the input at `perm[b]`, or the CNN's output for the permuted batch. Its length is `len[perm[b]]`, rewritten by the CNN length rule when there is one. The lengths are non-increasing, so packing is legal. The data is as wide as layer 0 was built to read. |
| EncoderForward.LayerResult | models/pytorch/encoders/hierarchical_rnn.py:224-248 | Layer `i`'s output, after its projection and residual sum, keeps the batch grid and is as wide as layer `i` emits after its projection. Its `h_n` has one row per direction. |
| EncoderForward.Step | models/pytorch/encoders/hierarchical_rnn.py:224-257 | One pass of the layer loop keeps the loop invariant. The time grid and the tracked lengths are unchanged, which is the assertion at line 234. The output is as wide as layer `i` emits after its projection. `h_n` has one row per direction. Retained outputs share the output's shape. |
| EncoderForward.RunLayers | models/pytorch/encoders/hierarchical_rnn.py:220-257 | After any number of layers, the loop variables satisfy the same invariant. |
| EncoderForward.StepRetained | models/pytorch/encoders/hierarchical_rnn.py:245-248 | One pass replaces `res_outputs_list` by the new output under residual, appends the new output under dense residual, and otherwise leaves it alone. |
| EncoderForward.ResidualRetained | models/pytorch/encoders/hierarchical_rnn.py:245-246 | Under residual, after `n >= 1` layers, the list is exactly `[latest output]`. |
| EncoderForward.LayerOutputsAt | models/pytorch/encoders/hierarchical_rnn.py:247-248 | Entry `j` of `LayerOutputs(s, k, p0, n)`, the list of the outputs of layers `0..n-1`, is the output of layer `j`. |
| EncoderForward.DenseRetained | models/pytorch/encoders/hierarchical_rnn.py:247-248 | Under dense residual, after `n` layers, the retained list is the outputs of layers `0..n-1` in order. |
| EncoderForward.PlainRetained | models/pytorch/encoders/hierarchical_rnn.py:221-248 | Without a residual mode, the retained list stays empty. |
| Tensors.AccumulateIsSum | models/pytorch/encoders/hierarchical_rnn.py:243-244 | Adding the retained outputs one at a time, in list order, equals adding their total once, provided element addition is associative. |
| EncoderForward.ResidualConnection | models/pytorch/encoders/hierarchical_rnn.py:237-248 | Layer `i`'s raw output is projected exactly when `num_proj > 0` and `i != num_layers - 1`. For the first layer, or without a residual mode, the layer output is that result. Otherwise it is that result plus the sum of the non-empty retained list: under residual, the previous layer's output; under dense residual, every lower layer's output. |
| HierarchicalRnn.ResidualSum | models/pytorch/encoders/hierarchical_rnn.py:243-244 | The loop adding each retained lower output computes the in-order sum `Accumulate`. |
| EncoderForward.StepTap | models/pytorch/encoders/hierarchical_rnn.py:255-257 | One pass sets the sub-task tap to its packed output and `h_n` exactly at layer `num_layers_sub - 1`, and otherwise keeps it. |
| EncoderForward.SubLayerTap | models/pytorch/encoders/hierarchical_rnn.py:255-257 | Before layer `num_layers_sub - 1` runs, the tap is unset. From then on it holds that layer's packed output and `h_n`. So every accepted configuration defines `outputs_sub` and `h_n_sub`. |
| EncoderForward.TopAndTap | models/pytorch/encoders/hierarchical_rnn.py:259-265 | After the loop, the top and tap outputs keep the batch grid and the tracked lengths, which is the pair of assertions at lines 264-265. They carry one `h_n` row per direction. The top output is `num_units * num_directions` wide, and so is the tap output when the directions are merged. |
| Tensors.MergeDirections | models/pytorch/encoders/hierarchical_rnn.py:268-272 | Merging halves the width from `2 * num_units` to `num_units`. Each feature `f` is the sum of features `f` and `num_units + f`. |
| EncoderForward.ForwardRow | models/pytorch/encoders/hierarchical_rnn.py:274-280 | For a one-layer `h_n` with one row per direction, both `h_n[-2:-1]` (bidirectional) and `h_n[-1].unsqueeze(0)` select row 0, the forward direction. |
| EncoderForward.ForwardSpec | models/pytorch/encoders/hierarchical_rnn.py:165-286 | Properties of the five returned values. `perm_indices` is a permutation that sorts the lengths non-increasingly. Both outputs keep the sorted batch's time grid. Each output is the top or tap layer output, merged to `num_units` features when requested. Unmerged, the top output is `num_units * num_directions` wide, and the tap output is as wide as its layer emits after its projection (`num_proj` when that layer is below the top and `num_proj > 0`). Each final state is its layer's forward-direction `h_n` row. |
| EncoderForward.ThreeSequenceForward | models/pytorch/encoders/hierarchical_rnn.py:196-286 | For three sequences of lengths `[5, 3, 4]` padded to 5 frames, one direction and no CNN, at any depth and tap layer: the permutation is `[0, 2, 1]`, both outputs have 5 frames per example, and each final state has one row. |
| HierarchicalRnn.HierarchicalRnnEncoder.ApplyLayer | models/pytorch/encoders/hierarchical_rnn.py:224-257 | The loop body updates `outputs`, `h_n`, `res_outputs_list` and the tap exactly as `Step` describes, using the registered modules. |
| HierarchicalRnn.HierarchicalRnnEncoder.Forward | models/pytorch/encoders/hierarchical_rnn.py:165-286 | The forward method returns exactly `ForwardSpec`'s result. |

## Left out

- Recurrent-cell math (`nn.LSTM`, `nn.GRU`, `nn.RNN`), `LinearND`, `CNNEncoder` and `ConvOutSize` are not modelled. They are library code or not part of this model, so they appear as the functions in `Kernels`. `Sound` states only the shape facts the encoder relies on; the monotone length rule is one of them.
- Floating-point arithmetic, dropout, parameter initialisation and the `volatile` flag are not modelled. Elements are an abstract type with an abstract `+`, assumed associative only where `ResidualConnection` needs it.
- `pack_padded_sequence` and `pad_packed_sequence` are the identity on `(data, lengths)`. The model therefore does not capture padding to the longest length or the rule that lengths must be positive.
- CUDA placement, `setattr` registration, `_init_hidden` (the zero initial state), `var2np` and the `batch_first` time-major transposes are not modelled. They are device or layout plumbing.
- The LSTM cell state returned with `h_n` is dropped. The encoder never reads it.
- Tie order in the length sort is not modelled, because the library does not promise a stable sort. The model uses a stable insertion sort and claims only the permutation and the non-increasing order.
- With more than one layer, a residual mode and `num_proj > 0`, the residual sum adds a projected lower output (`num_proj` wide) to the unprojected top output (`num_units * num_directions` wide). When the widths differ, the tensor library raises, or broadcasts when one operand is 1 wide. `Settings.ResidualWidthsAgree` excludes these configurations as a precondition; the model neither raises nor broadcasts. A single layer is never projected and sums an empty list, so it is not excluded.
- Merging directions when the tap layer is projected adds the first `num_units` features of a `num_proj`-wide output to the features after them. Unless `num_proj == 2 * num_units`, the two slices differ in width, and the tensor library raises, or broadcasts when one slice is 1 wide. `Settings.MergeWidthsAgree` excludes these configurations as a precondition.
- A recurrent module's packed output keeps its input's lengths, and every repacking uses the tracked lengths. The length checks at lines 234 and 264-265 therefore hold by construction, and their failure path is not modelled.
- EncoderConfig.Validate: the `rnn_type` check is made once, before the layer loop. The source makes it in the first loop pass. This is equivalent, because an accepted configuration has at least one layer.
- The CNN's output width is a parameter of `Validate` (`cnnOutputSize`), not computed from the convolution lists.
- `examples/csj/s5/exp/visualization/plot_attention_weights.py` and `plot_nested_attention_weights.py` are not part of this model. They load data and draw plots.
- `examples/librispeech/evaluation/eval.py` is not part of this model. It reads configuration and calls external error-rate routines.
