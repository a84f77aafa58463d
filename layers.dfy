/**
 * The layer plans the model builders assemble: a `torch.nn.Sequential` is an
 * ordered sequence of named entries, and each layer is described only by the
 * constructor arguments the builders pass (its tensor maths is not modelled).
 */
module Layers {
  import opened Wrappers

  datatype Layer =
    | Conv2d(inChannels: int, outChannels: int, kernelSize: int, padding: int)
    | ReLU
    | LeakyReLU
    | MaxPool2d(kernelSize: int, ceilMode: bool)
    | TemporalPyramidMaxPool2d(levels: int)
    | Linear(inFeatures: int, outFeatures: int)
    | Dropout
    | AdaptiveAvgPool2d(height: int)
    | ImageToSequence(returnPacked: bool)
    | LSTM(inputSize: int, hiddenSize: int, numLayers: int, dropout: real, bidirectional: bool)
    | RNNWrapper(inner: Layer)
    | PackedSequenceWrapper(inner: Layer)

  datatype Entry = Entry(name: string, layer: Layer)

  /** A 3x3 convolution with padding 1, as every convolution of these models is. */
  function Conv3x3(name: string, inChannels: int, outChannels: int): Entry
  {
    Entry(name, Conv2d(inChannels, outChannels, 3, 1))
  }

  /** `build_conv_model`: the convolutional part of the PHOCNet, stage by stage. */
  function ConvModel(): seq<Entry>
  {
    Stage1() + [Entry("maxpool1", MaxPool2d(2, true))]
    + Stage2() + [Entry("maxpool2", MaxPool2d(2, true))]
    + Stage3() + Stage4()
  }

  /** A 3x3 convolution followed by its in-place ReLU. */
  function ConvReLU(conv: string, relu: string, inChannels: int, outChannels: int): seq<Entry>
  {
    [Conv3x3(conv, inChannels, outChannels), Entry(relu, ReLU)]
  }

  function Stage1(): seq<Entry>
  {
    ConvReLU("conv1_1", "relu1_1", 1, 64) + ConvReLU("conv1_2", "relu1_2", 64, 64)
  }

  function Stage2(): seq<Entry>
  {
    ConvReLU("conv2_1", "relu2_1", 64, 128) + ConvReLU("conv2_2", "relu2_2", 128, 128)
  }

  function Stage3(): seq<Entry>
  {
    ConvReLU("conv3_1", "relu3_1", 128, 256) + ConvReLU("conv3_2", "relu3_2", 256, 256)
    + ConvReLU("conv3_3", "relu3_3", 256, 256) + ConvReLU("conv3_4", "relu3_4", 256, 256)
    + ConvReLU("conv3_5", "relu3_5", 256, 256) + ConvReLU("conv3_6", "relu3_6", 256, 256)
  }

  function Stage4(): seq<Entry>
  {
    ConvReLU("conv4_1", "relu4_1", 256, 512) + ConvReLU("conv4_2", "relu4_2", 512, 512)
    + ConvReLU("conv4_3", "relu4_3", 512, 512)
  }

  /**
   * Channel bookkeeping along a plan: starting from `channels` input
   * channels, every convolution must take exactly the channels the previous
   * one produced; the result is the number of channels that comes out, or
   * None at the first convolution that does not fit.
   */
  function OutChannels(model: seq<Entry>, channels: int): Option<int>
  {
    if model == [] then Some(channels)
    else match model[0].layer
      case Conv2d(inC, outC, _, _) =>
        if inC == channels then OutChannels(model[1..], outC) else None
      case _ => OutChannels(model[1..], channels)
  }

  lemma {:induction false} OutChannelsAppend(a: seq<Entry>, b: seq<Entry>, channels: int)
    ensures OutChannels(a + b, channels) ==
      match OutChannels(a, channels)
      case Some(c) => OutChannels(b, c)
      case None => None
  {
    if a != [] {
      assert (a + b)[1..] == a[1..] + b;
      match a[0].layer
      case Conv2d(inC, outC, _, _) =>
        if inC == channels { OutChannelsAppend(a[1..], b, outC); }
      case _ => OutChannelsAppend(a[1..], b, channels);
    } else {
      assert a + b == b;
    }
  }

  /** A plan with no convolution leaves the channel count as it is. */
  lemma {:induction false} OutChannelsWithoutConv(model: seq<Entry>, channels: int)
    requires forall i :: 0 <= i < |model| ==> !model[i].layer.Conv2d?
    ensures OutChannels(model, channels) == Some(channels)
  {
    if model != [] {
      OutChannelsWithoutConv(model[1..], channels);
    }
  }

  /**
   * Output width of a 2-D max pooling with window and stride `k`, no padding
   * and dilation 1, by PyTorch's documented rule: floor or ceil of (w-k)/k,
   * plus one; in ceil mode a last window that would start past the input is
   * dropped.
   */
  function PoolOutWidth(w: int, k: int, ceilMode: bool): int
    requires k > 0
  {
    var out := (if ceilMode then (w - k + k - 1) / k else (w - k) / k) + 1;
    if ceilMode && (out - 1) * k >= w then out - 1 else out
  }

  /** The layers whose effect on the input width the plan describes. */
  predicate IsSpatial(l: Layer)
  {
    || (l.Conv2d? && l.kernelSize > 0)
    || l.ReLU? || l.LeakyReLU?
    || (l.MaxPool2d? && l.kernelSize > 0)
  }

  predicate AllSpatial(model: seq<Entry>)
  {
    forall i :: 0 <= i < |model| ==> IsSpatial(model[i].layer)
  }

  /** Width after one layer: a stride-1 convolution gives w + 2p - k + 1. */
  function LayerWidth(l: Layer, w: int): int
    requires IsSpatial(l)
  {
    match l
    case Conv2d(_, _, k, p) => w + 2 * p - k + 1
    case MaxPool2d(k, ceilMode) => PoolOutWidth(w, k, ceilMode)
    case _ => w
  }

  /** Width after a plan made of convolutions, activations and max poolings. */
  function WidthAfter(model: seq<Entry>, w: int): int
    requires AllSpatial(model)
  {
    if model == [] then w else WidthAfter(model[1..], LayerWidth(model[0].layer, w))
  }

  lemma {:induction false} WidthAfterAppend(a: seq<Entry>, b: seq<Entry>, w: int)
    requires AllSpatial(a) && AllSpatial(b)
    ensures AllSpatial(a + b)
    ensures WidthAfter(a + b, w) == WidthAfter(b, WidthAfter(a, w))
  {
    if a != [] {
      assert (a + b)[1..] == a[1..] + b;
      WidthAfterAppend(a[1..], b, LayerWidth(a[0].layer, w));
    } else {
      assert a + b == b;
    }
  }

  /** A 3x3 convolution with padding 1, or an activation: the width stays. */
  predicate KeepsWidth(l: Layer)
  {
    l.ReLU? || l.LeakyReLU? || (l.Conv2d? && l.kernelSize == 3 && l.padding == 1)
  }

  /** A block of 3x3 padded convolutions and activations keeps the width. */
  lemma {:induction false} ConvBlockKeepsWidth(block: seq<Entry>, w: int)
    requires forall i :: 0 <= i < |block| ==> KeepsWidth(block[i].layer)
    ensures AllSpatial(block)
    ensures WidthAfter(block, w) == w
  {
    if block != [] {
      ConvBlockKeepsWidth(block[1..], w);
    }
  }

  lemma ConvReLUChannels(conv: string, relu: string, inChannels: int, outChannels: int)
    ensures OutChannels(ConvReLU(conv, relu, inChannels, outChannels), inChannels) == Some(outChannels)
  {
    var u := ConvReLU(conv, relu, inChannels, outChannels);
    assert u[1..][1..] == [];
    assert OutChannels(u[1..], outChannels) == OutChannels(u[1..][1..], outChannels);
  }

  lemma StageChannels()
    ensures OutChannels(Stage1(), 1) == Some(64)
    ensures OutChannels(Stage2(), 64) == Some(128)
    ensures OutChannels(Stage3(), 128) == Some(256)
    ensures OutChannels(Stage4(), 256) == Some(512)
  {
    ConvReLUChannels("conv1_1", "relu1_1", 1, 64);
    ConvReLUChannels("conv1_2", "relu1_2", 64, 64);
    OutChannelsAppend(ConvReLU("conv1_1", "relu1_1", 1, 64), ConvReLU("conv1_2", "relu1_2", 64, 64), 1);
    ConvReLUChannels("conv2_1", "relu2_1", 64, 128);
    ConvReLUChannels("conv2_2", "relu2_2", 128, 128);
    OutChannelsAppend(ConvReLU("conv2_1", "relu2_1", 64, 128), ConvReLU("conv2_2", "relu2_2", 128, 128), 64);
    Stage3Channels();
    Stage4Channels();
  }

  lemma Stage3Channels()
    ensures OutChannels(Stage3(), 128) == Some(256)
  {
    var p1, p2, p3 := ConvReLU("conv3_1", "relu3_1", 128, 256), ConvReLU("conv3_2", "relu3_2", 256, 256), ConvReLU("conv3_3", "relu3_3", 256, 256);
    var p4, p5, p6 := ConvReLU("conv3_4", "relu3_4", 256, 256), ConvReLU("conv3_5", "relu3_5", 256, 256), ConvReLU("conv3_6", "relu3_6", 256, 256);
    ConvReLUChannels("conv3_1", "relu3_1", 128, 256);
    ConvReLUChannels("conv3_2", "relu3_2", 256, 256);
    ConvReLUChannels("conv3_3", "relu3_3", 256, 256);
    ConvReLUChannels("conv3_4", "relu3_4", 256, 256);
    ConvReLUChannels("conv3_5", "relu3_5", 256, 256);
    ConvReLUChannels("conv3_6", "relu3_6", 256, 256);
    OutChannelsAppend(p1, p2, 128);
    OutChannelsAppend(p1 + p2, p3, 128);
    OutChannelsAppend(p1 + p2 + p3, p4, 128);
    OutChannelsAppend(p1 + p2 + p3 + p4, p5, 128);
    OutChannelsAppend(p1 + p2 + p3 + p4 + p5, p6, 128);
  }

  lemma Stage4Channels()
    ensures OutChannels(Stage4(), 256) == Some(512)
  {
    var p1, p2, p3 := ConvReLU("conv4_1", "relu4_1", 256, 512), ConvReLU("conv4_2", "relu4_2", 512, 512), ConvReLU("conv4_3", "relu4_3", 512, 512);
    ConvReLUChannels("conv4_1", "relu4_1", 256, 512);
    ConvReLUChannels("conv4_2", "relu4_2", 512, 512);
    ConvReLUChannels("conv4_3", "relu4_3", 512, 512);
    OutChannelsAppend(p1, p2, 256);
    OutChannelsAppend(p1 + p2, p3, 256);
  }

  /** The convolutions of `build_conv_model` chain: 1 channel goes in, 512 come out. */
  lemma ConvModelChannels()
    ensures OutChannels(ConvModel(), 1) == Some(512)
  {
    var pool1, pool2 := [Entry("maxpool1", MaxPool2d(2, true))], [Entry("maxpool2", MaxPool2d(2, true))];
    StageChannels();
    OutChannelsWithoutConv(pool1, 64);
    OutChannelsWithoutConv(pool2, 128);
    OutChannelsAppend(Stage1(), pool1, 1);
    OutChannelsAppend(Stage1() + pool1, Stage2(), 1);
    OutChannelsAppend(Stage1() + pool1 + Stage2(), pool2, 1);
    OutChannelsAppend(Stage1() + pool1 + Stage2() + pool2, Stage3(), 1);
    OutChannelsAppend(Stage1() + pool1 + Stage2() + pool2 + Stage3(), Stage4(), 1);
  }
}
