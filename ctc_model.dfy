/**
 * `build_ctc_model2`: a configurable convolutional stack followed by the
 * recurrent CTC head.  Convolution i is named `conv<i>` and followed by
 * `relu<i>`, and by `max_pool<i>` when pooling is configured for it and it
 * is not the last convolution; the number of channels threads through the
 * loop and fixes the LSTM's input size.
 */
module CtcModel2 {
  import opened Decimal
  import opened Wrappers
  import opened Layers

  /** Channels going into convolution i: one (grey image) for the first, the previous filter count otherwise. */
  function InChannels(filters: seq<int>, i: nat): int
    requires i <= |filters|
  {
    if i == 0 then 1 else filters[i - 1]
  }

  /** Whether a max pooling follows convolution i. */
  predicate PoolAfter(filters: seq<int>, pools: seq<int>, i: nat)
  {
    i < |pools| && i < |filters| - 1 && pools[i] > 0
  }

  /** The entries the loop appends for convolution i. */
  function ConvUnit(filters: seq<int>, pools: seq<int>, i: nat): seq<Entry>
    requires i < |filters|
  {
    [ Conv3x3("conv" + NatToString(i), InChannels(filters, i), filters[i]),
      Entry("relu" + NatToString(i), LeakyReLU) ]
    + if PoolAfter(filters, pools, i) then [Entry("max_pool" + NatToString(i), MaxPool2d(pools[i], false))] else []
  }

  /** The entries for the first n convolutions. */
  function ConvStack(filters: seq<int>, pools: seq<int>, n: nat): seq<Entry>
    requires n <= |filters|
  {
    if n == 0 then [] else ConvStack(filters, pools, n - 1) + ConvUnit(filters, pools, n - 1)
  }

  /** Position of `conv<i>`: two entries per earlier convolution, plus one per earlier pooling. */
  function Offset(filters: seq<int>, pools: seq<int>, i: nat): nat
  {
    if i == 0 then 0
    else Offset(filters, pools, i - 1) + 2 + (if PoolAfter(filters, pools, i - 1) then 1 else 0)
  }

  /** The fixed entries after the convolutions; `channels` is what the last convolution produces. */
  function CtcHead(channels: int, poolHeight: int, hiddenSize: int, numLayers: int, numOutputs: int): seq<Entry>
  {
    [ Entry("adaptive_pool", AdaptiveAvgPool2d(poolHeight)),
      Entry("collapse", ImageToSequence(true)),
      Entry("dropout_blstm", RNNWrapper(Dropout)),
      Entry("blstm", LSTM(channels * poolHeight, hiddenSize, numLayers, 0.5, true)),
      Entry("dropout_linear", RNNWrapper(Dropout)),
      Entry("linear", PackedSequenceWrapper(Linear(2 * hiddenSize, numOutputs))) ]
  }

  /** The whole plan `build_ctc_model2` builds. */
  function CtcModel2Plan(filters: seq<int>, pools: seq<int>, poolHeight: int,
                         hiddenSize: int, numLayers: int, numOutputs: int): seq<Entry>
  {
    ConvStack(filters, pools, |filters|)
    + CtcHead(InChannels(filters, |filters|), poolHeight, hiddenSize, numLayers, numOutputs)
  }

  method BuildCtcModel2(cnnNumFilters: seq<int>, cnnMaxpoolSize: seq<int>, adaptivePoolHeight: int,
                        lstmHiddenSize: int, lstmNumLayers: int, numOutputs: int)
    returns (model: seq<Entry>)
    ensures model == CtcModel2Plan(cnnNumFilters, cnnMaxpoolSize, adaptivePoolHeight,
                                   lstmHiddenSize, lstmNumLayers, numOutputs)
    ensures |model| == Offset(cnnNumFilters, cnnMaxpoolSize, |cnnNumFilters|) + 6
    ensures model[|model| - 3].name == "blstm"
    ensures model[|model| - 3].layer.LSTM?
    ensures model[|model| - 3].layer.inputSize ==
      (if cnnNumFilters == [] then 1 else cnnNumFilters[|cnnNumFilters| - 1]) * adaptivePoolHeight
  {
    model := [];
    var inputChannels := 1;
    for i := 0 to |cnnNumFilters|
      invariant model == ConvStack(cnnNumFilters, cnnMaxpoolSize, i)
      invariant inputChannels == InChannels(cnnNumFilters, i)
    {
      var n := cnnNumFilters[i];
      model := model + [Entry("conv" + NatToString(i), Conv2d(inputChannels, n, 3, 1))];
      inputChannels := n;
      model := model + [Entry("relu" + NatToString(i), LeakyReLU)];
      if i < |cnnMaxpoolSize| && i < |cnnNumFilters| - 1 && cnnMaxpoolSize[i] > 0 {
        model := model + [Entry("max_pool" + NatToString(i), MaxPool2d(cnnMaxpoolSize[i], false))];
      }
    }
    model := model + [Entry("adaptive_pool", AdaptiveAvgPool2d(adaptivePoolHeight))];
    model := model + [Entry("collapse", ImageToSequence(true))];
    model := model + [Entry("dropout_blstm", RNNWrapper(Dropout))];
    model := model + [Entry("blstm", LSTM(inputChannels * adaptivePoolHeight, lstmHiddenSize,
                                          lstmNumLayers, 0.5, true))];
    model := model + [Entry("dropout_linear", RNNWrapper(Dropout))];
    model := model + [Entry("linear", PackedSequenceWrapper(Linear(2 * lstmHiddenSize, numOutputs)))];
    ConvStackLength(cnnNumFilters, cnnMaxpoolSize, |cnnNumFilters|);
  }

  lemma {:induction false} ConvStackLength(filters: seq<int>, pools: seq<int>, n: nat)
    requires n <= |filters|
    ensures |ConvStack(filters, pools, n)| == Offset(filters, pools, n)
  {
    if n > 0 {
      ConvStackLength(filters, pools, n - 1);
    }
  }

  /**
   * Layout of the convolutional part: `conv<i>` sits at Offset(i), takes the
   * previous filter count (1 for i == 0) and produces filters[i]; `relu<i>`
   * follows it immediately, and `max_pool<i>` follows that when pooling is
   * configured for convolution i.
   */
  lemma {:induction false} ConvStackLayout(filters: seq<int>, pools: seq<int>, n: nat, i: nat)
    requires i < n <= |filters|
    ensures var m, o := ConvStack(filters, pools, n), Offset(filters, pools, i);
      && o + 2 <= |m|
      && m[o] == Entry("conv" + NatToString(i), Conv2d(if i == 0 then 1 else filters[i - 1], filters[i], 3, 1))
      && m[o + 1] == Entry("relu" + NatToString(i), LeakyReLU)
      && (PoolAfter(filters, pools, i) ==>
            o + 3 <= |m| && m[o + 2] == Entry("max_pool" + NatToString(i), MaxPool2d(pools[i], false)))
  {
    ConvStackLength(filters, pools, n - 1);
    if i < n - 1 {
      ConvStackLayout(filters, pools, n - 1, i);
    }
  }

  /** Every max pooling of the convolutional part is one of the configured ones, right after its `relu<i>`. */
  lemma {:induction false} ConvStackPools(filters: seq<int>, pools: seq<int>, n: nat, k: nat)
    requires n <= |filters|
    requires k < |ConvStack(filters, pools, n)| && ConvStack(filters, pools, n)[k].layer.MaxPool2d?
    ensures exists i: nat :: i < n && PoolAfter(filters, pools, i) && k == Offset(filters, pools, i) + 2
  {
    ConvStackLength(filters, pools, n - 1);
    var prev := ConvStack(filters, pools, n - 1);
    if k < |prev| {
      ConvStackPools(filters, pools, n - 1, k);
    } else {
      assert ConvStack(filters, pools, n)[k] == ConvUnit(filters, pools, n - 1)[k - |prev|];
      assert k == Offset(filters, pools, n - 1) + 2;
    }
  }

  /**
   * Max-pool placement over the whole plan: entry k is a max pooling exactly
   * when it is the entry right after `relu<i>` for a convolution i with
   * i < len(cnn_maxpool_size), i < len(cnn_num_filters) - 1 and
   * cnn_maxpool_size[i] > 0.
   */
  lemma MaxPoolPlacement(filters: seq<int>, pools: seq<int>, poolHeight: int,
                         hiddenSize: int, numLayers: int, numOutputs: int, k: nat)
    requires k < |CtcModel2Plan(filters, pools, poolHeight, hiddenSize, numLayers, numOutputs)|
    ensures CtcModel2Plan(filters, pools, poolHeight, hiddenSize, numLayers, numOutputs)[k].layer.MaxPool2d?
      <==> exists i: nat :: i < |filters| && PoolAfter(filters, pools, i) && k == Offset(filters, pools, i) + 2
  {
    var m := CtcModel2Plan(filters, pools, poolHeight, hiddenSize, numLayers, numOutputs);
    var stack := ConvStack(filters, pools, |filters|);
    ConvStackLength(filters, pools, |filters|);
    if m[k].layer.MaxPool2d? && k < |stack| {
      ConvStackPools(filters, pools, |filters|, k);
    }
    if exists i: nat :: i < |filters| && PoolAfter(filters, pools, i) && k == Offset(filters, pools, i) + 2 {
      var i: nat :| i < |filters| && PoolAfter(filters, pools, i) && k == Offset(filters, pools, i) + 2;
      ConvStackLayout(filters, pools, |filters|, i);
    }
  }

  /** No pooling follows the last convolution: after its `relu` comes the adaptive pooling. */
  lemma NoPoolAfterLastConv(filters: seq<int>, pools: seq<int>, poolHeight: int,
                            hiddenSize: int, numLayers: int, numOutputs: int)
    requires filters != []
    ensures var m, o := CtcModel2Plan(filters, pools, poolHeight, hiddenSize, numLayers, numOutputs),
                        Offset(filters, pools, |filters| - 1);
      && o + 2 < |m|
      && m[o].name == "conv" + NatToString(|filters| - 1)
      && m[o + 1].layer == LeakyReLU
      && m[o + 2] == Entry("adaptive_pool", AdaptiveAvgPool2d(poolHeight))
  {
    var n := |filters|;
    ConvStackLength(filters, pools, n);
    ConvStackLayout(filters, pools, n, n - 1);
    assert Offset(filters, pools, n) == Offset(filters, pools, n - 1) + 2;
  }

  /** The LSTM reads what the last convolution produces, times the pooled height. */
  lemma LstmInputFromLastConv(filters: seq<int>, pools: seq<int>, poolHeight: int,
                              hiddenSize: int, numLayers: int, numOutputs: int)
    requires filters != []
    ensures var m, o := CtcModel2Plan(filters, pools, poolHeight, hiddenSize, numLayers, numOutputs),
                        Offset(filters, pools, |filters| - 1);
      && o < |m| - 3
      && m[|m| - 3].layer.LSTM? && m[o].layer.Conv2d?
      && m[|m| - 3].layer.inputSize == m[o].layer.outChannels * poolHeight
  {
    var n := |filters|;
    ConvStackLength(filters, pools, n);
    ConvStackLayout(filters, pools, n, n - 1);
  }

  /** The convolutions chain: each takes exactly the channels the previous one produced. */
  lemma {:induction false} ConvStackChannels(filters: seq<int>, pools: seq<int>, n: nat)
    requires n <= |filters|
    ensures OutChannels(ConvStack(filters, pools, n), 1) == Some(InChannels(filters, n))
  {
    if n > 0 {
      ConvStackChannels(filters, pools, n - 1);
      var u := ConvUnit(filters, pools, n - 1);
      OutChannelsAppend(ConvStack(filters, pools, n - 1), u, 1);
      OutChannelsAppend(u[..1], u[1..], InChannels(filters, n - 1));
      assert u[..1] + u[1..] == u;
      OutChannelsWithoutConv(u[1..], filters[n - 1]);
    }
  }
}
