# PyLaia Washington recipe helpers: a verified Dafny model

The model covers the parts of `egs/washington/steps/dortmund_utils.py` in PyLaia's
Washington word-spotting recipe that carry real logic. The rest of that file assembles PyTorch layers.

- **Checkpoint rotation** (`ModelCheckpointKeepLastSaver.__call__`), in `checkpoint.dfy`.
  - The file system is a class holding a map from file names to byte contents.
  - The saver is a class whose `Call` method runs the source's descending rename loop and then saves the new state under the base name.
  - `Call` is proved against a functional description (`Rotated`).
  - It is also proved against a slot-by-slot closed form (`RotationSpec`), and that closed form is shown to determine the result uniquely.
  - Slot names are `filename-<i>` with `i` written in decimal (`decimal.dfy`). They are distinct because decimal rendering round-trips.
- **Sequence-length arithmetic** (`DortmundCTCModule.size_after_conv`), in `ctc_module.dfy`.
  - It is integer ceiling division by 2, applied twice. It agrees exactly with the source's `ceil((x-2)/2 + 1)` on integer sizes.
  - A proof shows it equals the width that the convolutional part of `build_conv_model` produces, under PyTorch's max-pool width rule (`layers.dfy`).
- **The layer plan of `build_ctc_model2`**, in `ctc_model.dfy`.
  - A method with the source's loop builds the plan as a sequence of named layer records.
  - The proved properties are where each `conv<i>`, `relu<i>` and `max_pool<i>` sits, when a pooling is emitted, how the channel count threads through the loop, and the LSTM's input size.
- **`build_dortmund_model`**, in `dortmund_model.dfy`.
  - It covers the `fc6` input width `512 * sum(range(1, levels+1))` and the Caffe-style initialisation decision for each parameter: zero fill for `.bias`, otherwise a fan-in that is the product of all dimensions but the first.
  - The initialisation raises in two cases, and both are modelled as errors:
    - `reduce` of an empty list, for a weight of at most one dimension;
    - the division `2.0 / fan_in` with a zero fan-in.
  - Every parameter of the PHOCNet is initialised when `levels >= 1`.
  - With `levels <= 0`, `fc6` has zero input features. Initialisation fills every convolutional parameter and then fails at `fc6.weight`.

The missing-predecessor case of the rotation deserves a note. A slot whose predecessor did not exist does not keep its old contents in general.
- For `1 <= i < keep_last-1`, slot `i`'s own version has already been moved up to slot `i+1` by the earlier iteration. So slot `i` ends up absent.
- Only the top slot `keep_last-1` keeps what it had when slot `keep_last-2` is missing.

`RotationSpec` and `Checkpoint.MissingPredecessor` state this precise behaviour.

## Model

| member | source | states |
|---|---|---|
| Checkpoint.ModelCheckpointKeepLastSaver.Call | egs/washington/steps/dortmund_utils.py:244-252 | the loop over i = keep_last-1 down to 1 (rename slot i-1 onto slot i when it is a file) followed by the save leaves exactly `Rotated(old files)`, and that satisfies the slot-by-slot rotation description |
| Checkpoint.ModelCheckpointKeepLastSaver.constructor | egs/washington/steps/dortmund_utils.py:239-242 | the saver keeps the base file name and the bound keep_last (5 by default) |
| Checkpoint.FileSystem.IsFile | egs/washington/steps/dortmund_utils.py:250 | true exactly when the name is a file of the file system |
| Checkpoint.FileSystem.Rename | egs/washington/steps/dortmund_utils.py:251 | rename replaces the target with the source's contents and removes the source; nothing else changes |
| Checkpoint.FileSystem.Save | egs/washington/steps/dortmund_utils.py:252 | the base name is created or overwritten with the saved state; nothing else changes |
| Checkpoint.RotatedMeetsSpec | egs/washington/steps/dortmund_utils.py:246-252 | after a call: the base file holds the new state; each slot i < keep_last-1 mirrors old slot i-1 (including being absent); the top slot takes old slot keep_last-2 if that was a file and otherwise keeps its own; every unmanaged name is unchanged |
| Checkpoint.RotationSpecUnique | egs/washington/steps/dortmund_utils.py:246-252 | the slot-by-slot description determines the resulting file map completely |
| Checkpoint.ShiftByOne | egs/washington/steps/dortmund_utils.py:246-251 | for 1 <= i < keep_last, when slot i-1 (the base file for i = 1) existed, slot i afterwards holds its pre-call contents: the descending order reads every source before overwriting it |
| Checkpoint.MissingPredecessor | egs/washington/steps/dortmund_utils.py:246-251 | when slot i-1 was missing, the top slot keep_last-1 keeps its contents and any lower slot i ends up absent |
| Checkpoint.OlderSlotsUntouched | egs/washington/steps/dortmund_utils.py:246 | `filename-k` for k >= keep_last is never touched |
| Checkpoint.SmallKeepLastOnlySaves | egs/washington/steps/dortmund_utils.py:246-252 | with keep_last <= 1 the call only writes the base file |
| Checkpoint.OldestVersionDropped | egs/washington/steps/dortmund_utils.py:246-251 | when slot keep_last-2 existed, every managed slot afterwards holds the new state or what the slot below held, so the old top version survives under no managed name |
| Checkpoint.SlotNameInjective | egs/washington/steps/dortmund_utils.py:247-249 | the names `filename` and `filename-<i>` of different slots are different, whatever the base name |
| Decimal.NatToString | egs/washington/steps/dortmund_utils.py:247 | the decimal rendering of an integer is a non-empty string of digits with no leading zero ("0" for zero), one digit long exactly below 10 |
| Decimal.DecimalRoundTrip | egs/washington/steps/dortmund_utils.py:247 | reading back the decimal rendering gives the integer again |
| Decimal.NatToStringInjective | egs/washington/steps/dortmund_utils.py:247-248 | two integers have the same rendering exactly when they are equal |
| DortmundCtcModule.PoolStep | egs/washington/steps/dortmund_utils.py:157 | one step is the ceiling of x/2: 2r-1 <= x <= 2r |
| DortmundCtcModule.PoolStepMatchesFormula | egs/washington/steps/dortmund_utils.py:157 | on integer sizes the integer step equals ceil((x-2)/2 + 1) computed exactly |
| DortmundCtcModule.SizeAfterConv | egs/washington/steps/dortmund_utils.py:155-159 | the two steps give the ceiling of x/4: 4r-3 <= x <= 4r |
| DortmundCtcModule.SizesAfterConv | egs/washington/steps/dortmund_utils.py:155-159 | on a batch of sizes: same length, and every element is the ceiling of its input over 4 |
| DortmundCtcModule.SizeAfterConvMonotone | egs/washington/steps/dortmund_utils.py:155-159 | larger sizes never give smaller results |
| DortmundCtcModule.SizeAfterConvBounds | egs/washington/steps/dortmund_utils.py:155-159 | for x >= 0 the result is between 0 and x, and it is at least 1 when x >= 1 |
| DortmundCtcModule.PoolStepIsMaxPoolWidth | egs/washington/steps/dortmund_utils.py:28 | one step is the output width of `MaxPool2d(2, ceil_mode=True)` |
| DortmundCtcModule.SizeAfterConvTracksConvModel | egs/washington/steps/dortmund_utils.py:20-63 | the width after the whole convolutional part (3x3 padded convolutions, ReLUs and the max poolings at lines 28 and 35) is exactly `size_after_conv` of the input width |
| Layers.ConvModelChannels | egs/washington/steps/dortmund_utils.py:20-63 | the convolutions of the PHOCNet chain: each takes the channels the previous produced, from 1 in to 512 out |
| CtcModel2.BuildCtcModel2 | egs/washington/steps/dortmund_utils.py:201-235 | the loop builds exactly the plan: the convolution units, then the six head entries; its length is the offset past the last unit plus 6; the `blstm` entry's input size is the last filter count (1 if there is none) times the pooled height |
| CtcModel2.ConvStackLength | egs/washington/steps/dortmund_utils.py:208-219 | the convolutional part has two entries per convolution plus one per emitted pooling |
| CtcModel2.ConvStackLayout | egs/washington/steps/dortmund_utils.py:208-219 | `conv<i>` takes the previous filter count (1 for i = 0) and gives filter i; `relu<i>` (a LeakyReLU) follows it immediately; `max_pool<i>` follows that when pooling is configured for i |
| CtcModel2.ConvStackPools | egs/washington/steps/dortmund_utils.py:216-219 | every max pooling of the convolutional part sits right after the `relu<i>` of a convolution i for which pooling is configured |
| CtcModel2.MaxPoolPlacement | egs/washington/steps/dortmund_utils.py:216-219 | entry k of the plan is a max pooling if and only if it directly follows `relu<i>` with i < len(cnn_maxpool_size), i < len(cnn_num_filters)-1 and cnn_maxpool_size[i] > 0 |
| CtcModel2.NoPoolAfterLastConv | egs/washington/steps/dortmund_utils.py:216-221 | the last convolution's ReLU is followed by the adaptive pooling, never by a max pooling |
| CtcModel2.LstmInputFromLastConv | egs/washington/steps/dortmund_utils.py:207-226 | the LSTM's input size is the last convolution's output channels times the pooled height |
| CtcModel2.ConvStackChannels | egs/washington/steps/dortmund_utils.py:207-214 | the convolutions chain (each takes what the previous produced), and what comes out is the last filter count, 1 if there is none |
| DortmundModel.SumRangeClosedForm | egs/washington/steps/dortmund_utils.py:73 | twice sum(range(lo, hi)) is (hi-lo)(lo+hi-1) |
| DortmundModel.Fc6Width | egs/washington/steps/dortmund_utils.py:73 | the `fc6` input width is 512 * levels(levels+1)/2 for levels >= 0 and 0 otherwise; it is positive exactly when levels >= 1 |
| DortmundModel.HeadParams | egs/washington/steps/dortmund_utils.py:69-81 | the head's layer sizes are valid; with levels >= 1 all of it can be initialised; with levels <= 0 its first parameter is `fc6.weight` and fails with a zero fan-in |
| DortmundModel.FoldMulIsProduct | egs/washington/steps/dortmund_utils.py:90 | `reduce(operator.mul, ...)` as a left fold is the product of the dimensions |
| DortmundModel.InitDecisionCases | egs/washington/steps/dortmund_utils.py:84-91 | a parameter is zero-filled if and only if its name ends in `.bias`; otherwise a weight of at most one dimension fails in `reduce`, a zero product of `size()[1:]` fails the division, and any other weight gets a normal fill with that fan-in and variance 2/fan_in |
| DortmundModel.InitializeAsCaffe | egs/washington/steps/dortmund_utils.py:84-91 | the loop fills a prefix of the parameters in order, each with its decision; it either fills all of them or stops at the first one whose decision is an error, reporting that error |
| DortmundModel.NamedParametersOk | egs/washington/steps/dortmund_utils.py:84-91 | every parameter of a plan of initialisable convolutions and linear layers gets a fill without error |
| DortmundModel.StopsAtFirstFailure | egs/washington/steps/dortmund_utils.py:84-91 | when all of a prefix succeeds and the next parameter fails, the loop fills exactly the prefix and reports that parameter's error |
| DortmundModel.DortmundInitSucceeds | egs/washington/steps/dortmund_utils.py:66-93 | with at least one pyramid level every parameter of the PHOCNet is initialised |
| DortmundModel.InitFailsAtFc6 | egs/washington/steps/dortmund_utils.py:66-93 | with no pyramid level, initialisation fills every convolutional parameter and then fails with a zero fan-in at `fc6.weight` |
| DortmundModel.BuildDortmundModel | egs/washington/steps/dortmund_utils.py:66-93 | the model (levels 5 by default) is the convolutional part followed by the head in order; every fill applied is that parameter's decision; with levels >= 1 all parameters are filled; with levels <= 0 exactly the parameters before the head are filled and the error is the zero fan-in of `fc6.weight` |

## Left out

- Convolution, pooling, LSTM, linear and dropout computations and all tensor maths: they are calls into PyTorch and `laia.nn`, whose code is not part of this model. A layer is described only by its constructor arguments.
- The max-pool width rule and the order and shapes of `named_parameters()` (weight `[out, in, k, k]` or `[out, in]`, then bias `[out]`) follow PyTorch's documented behaviour, not code of this repository.
- `RNNWrapper`, `PackedSequenceWrapper` and `DortmundCTCModule.forward` and `dropout` (lines 96-128, 145-153, 161-175) only unwrap and rewrap framework sequence objects. They are not modelled; the wrappers appear in plans only as `RNNWrapper` and `PackedSequenceWrapper` records.
- `DortmundCTCModule.__init__` (lines 132-143) is layer assembly: the convolutional part, an adaptive pooling, a sequence collapse, a bidirectional LSTM with input size `512 * adaptive_pool_height` and a linear output layer, held as attributes rather than in a sequential plan. It is not modelled.
- `build_ctc_model` (lines 178-198) is not part of this model. It is a fixed plan whose only logic is already in `build_conv_model`.
- DortmundModel.InitializeAsCaffe: the random normal draw is not modelled. A weight's fill records its fan-in and the variance 2/fan_in of the draw.
- DortmundModel.BuildDortmundModel: it assumes PyTorch accepts `Linear(0, 4096)` and `TemporalPyramidMaxPool2d(levels)` for every `levels`. A library version that raises in those constructors fails earlier than the modelled `fc6.weight` error.
- DortmundCtcModule.SizeAfterConv: floating point is not modelled. The `float`/`ceil`/`long` round trip is taken to be exact, which holds for sizes up to 2^24, where `x-2` and the halving stay exact in float32. Above that the float computation can round: for x = 2^25+4 line 157 gives 2^24 where the ceiling of x/2 is 2^24+2.
- Checkpoint.ModelCheckpointKeepLastSaver.Call: the state to save is a parameter (the serialised `state_dict()`). `torch.save` serialisation and the `@action` hook decorator (line 244) are not modelled.
- Checkpoint.ModelCheckpointKeepLastSaver.constructor: `os.path.normpath` of the file name (line 241) is not modelled. The name is taken as already normalised.
- Checkpoint.FileSystem.Rename: requires the source to exist. The `FileNotFoundError` of a missing source is not modelled, because the saver only renames a name it has just seen as a file.
- Checkpoint.FileSystem: only regular files are modelled. Directories and other non-regular entries, which `os.path.isfile` skips and `os.rename` may refuse as a target, are not; neither are concurrent changes to the directory between `isfile` and `rename`.
- DortmundModel.BuildDortmundModel: `phoc_size` is a natural number. A negative `phoc_size`, for which `torch.nn.Linear(4096, phoc_size)` at line 79 raises, is not modelled.
- The `isinstance` assertions of `build_ctc_model2` (lines 204-205) are expressed by the parameter types.
