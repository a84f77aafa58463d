/**
 * `build_dortmund_model`: the PHOCNet plan (the convolutional part, a
 * temporal pyramid pooling and three fully connected layers) and its
 * Caffe-style initialisation, of which the model keeps the decision made for
 * each parameter and the fan-in, not the random draw.
 */
module DortmundModel {
  import opened Wrappers
  import opened Layers

  /** Python's `sum(range(lo, hi))`. */
  function SumRange(lo: int, hi: int): int
    decreases hi - lo
  {
    if lo >= hi then 0 else lo + SumRange(lo + 1, hi)
  }

  /** Gauss: twice the sum of lo, ..., hi-1 is (hi - lo) * (lo + hi - 1). */
  lemma {:induction false} SumRangeClosedForm(lo: int, hi: int)
    requires lo <= hi
    ensures 2 * SumRange(lo, hi) == (hi - lo) * (lo + hi - 1)
    decreases hi - lo
  {
    if lo < hi {
      SumRangeClosedForm(lo + 1, hi);
      assert (hi - lo - 1) * (lo + hi) + 2 * lo == (hi - lo) * (lo + hi - 1);
    }
  }

  /** Input width of `fc6`: 512 channels for each of the 1 + 2 + ... + levels pyramid bins. */
  function Fc6InFeatures(levels: int): int
  {
    512 * SumRange(1, levels + 1)
  }

  lemma Fc6Width(levels: int)
    ensures Fc6InFeatures(levels) == if levels >= 0 then 512 * (levels * (levels + 1) / 2) else 0
    ensures Fc6InFeatures(levels) > 0 <==> levels >= 1
  {
    if levels >= 0 {
      SumRangeClosedForm(1, levels + 1);
      assert levels * (levels + 1) >= 0;
    }
  }

  /** The entries `build_dortmund_model` appends after the convolutional part, in order. */
  function DortmundHead(phocSize: nat, levels: int): seq<Entry>
  {
    [ Entry("tpp5", TemporalPyramidMaxPool2d(levels)),
      Entry("fc6", Linear(Fc6InFeatures(levels), 4096)),
      Entry("relu6", ReLU),
      Entry("drop6", Dropout),
      Entry("fc7", Linear(4096, 4096)),
      Entry("relu7", ReLU),
      Entry("drop7", Dropout),
      Entry("fc8", Linear(4096, phocSize)) ]
  }

  // ----- Initialisation -----

  /** The fill a parameter gets: zeros, or a normal draw with mean 0 and variance 2 / fanIn. */
  datatype Init = ZeroFill | NormalFill(fanIn: nat, variance: real)

  /**
   * The ways the initialisation raises: `reduce` of an empty size list (a
   * weight with fewer than two dimensions), and division by a zero fan-in.
   */
  datatype InitError = EmptyReduce | ZeroFanIn

  datatype NamedParam = NamedParam(name: string, shape: seq<nat>)

  /** Python's `s[-k:]`, for k >= 1: the last k characters, or all of a shorter string. */
  function LastChars(s: string, k: nat): string
    requires k >= 1
  {
    if |s| >= k then s[|s| - k..] else s
  }

  predicate HasSuffix(s: string, suffix: string)
  {
    |suffix| <= |s| && s[|s| - |suffix|..] == suffix
  }

  /** Python's `reduce(operator.mul, xs[1:], xs[0])`: a left fold of multiplication. */
  function FoldMul(acc: nat, xs: seq<nat>): nat
    decreases |xs|
  {
    if xs == [] then acc else FoldMul(acc * xs[0], xs[1..])
  }

  /** The product of all elements, the reference definition of what the fold computes. */
  function Product(xs: seq<nat>): nat
  {
    if xs == [] then 1 else xs[0] * Product(xs[1..])
  }

  lemma {:induction false} FoldMulIsProduct(acc: nat, xs: seq<nat>)
    ensures FoldMul(acc, xs) == acc * Product(xs)
    decreases |xs|
  {
    if xs != [] {
      FoldMulIsProduct(acc * xs[0], xs[1..]);
      assert acc * xs[0] * Product(xs[1..]) == acc * (xs[0] * Product(xs[1..]));
    }
  }

  /** The decision the initialisation loop makes for one parameter. */
  function InitDecision(p: NamedParam): Result<Init, InitError>
  {
    if LastChars(p.name, 5) == ".bias" then Success(ZeroFill)
    else if |p.shape| <= 1 then Failure(EmptyReduce)
    else
      var fanIn := FoldMul(p.shape[1], p.shape[2..]);
      if fanIn == 0 then Failure(ZeroFanIn) else Success(NormalFill(fanIn, 2.0 / fanIn as real))
  }

  /**
   * A parameter is zero-filled exactly when its name ends in ".bias";
   * otherwise its fan-in is the product of all its dimensions but the first,
   * and the two failing cases are a weight of at most one dimension and a
   * zero fan-in.
   */
  lemma InitDecisionCases(p: NamedParam)
    ensures InitDecision(p) == Success(ZeroFill) <==> HasSuffix(p.name, ".bias")
    ensures !HasSuffix(p.name, ".bias") && |p.shape| <= 1 ==> InitDecision(p) == Failure(EmptyReduce)
    ensures !HasSuffix(p.name, ".bias") && |p.shape| > 1 ==>
      var fanIn := Product(p.shape[1..]);
      InitDecision(p) == if fanIn == 0 then Failure(ZeroFanIn) else Success(NormalFill(fanIn, 2.0 / fanIn as real))
  {
    if |p.shape| > 1 {
      FoldMulIsProduct(p.shape[1], p.shape[2..]);
      assert p.shape[1..] == [p.shape[1]] + p.shape[2..];
      assert Product(p.shape[1..]) == p.shape[1] * Product(p.shape[2..]);
    }
  }

  /**
   * The initialisation loop over `named_parameters()`: the fills applied, in
   * order, and the error that stopped it, if any.  Parameters before the
   * failing one have already been filled when the error is raised.
   */
  method InitializeAsCaffe(params: seq<NamedParam>) returns (applied: seq<Init>, failure: Option<InitError>)
    ensures |applied| <= |params|
    ensures forall k :: 0 <= k < |applied| ==> InitDecision(params[k]) == Success(applied[k])
    ensures failure.None? ==> |applied| == |params|
    ensures failure.Some? ==> |applied| < |params| && InitDecision(params[|applied|]) == Failure(failure.value)
  {
    applied := [];
    failure := None;
    var i := 0;
    while i < |params|
      invariant i <= |params| && |applied| == i
      invariant forall k :: 0 <= k < i ==> InitDecision(params[k]) == Success(applied[k])
    {
      var p := params[i];
      var fill: Init;
      if LastChars(p.name, 5) == ".bias" {
        fill := ZeroFill;
      } else {
        if |p.shape| <= 1 {
          failure := Some(EmptyReduce);
          return;
        }
        var fanIn := p.shape[1];
        for j := 2 to |p.shape|
          invariant FoldMul(fanIn, p.shape[j..]) == FoldMul(p.shape[1], p.shape[2..])
        {
          assert p.shape[j..][1..] == p.shape[j + 1..];
          fanIn := fanIn * p.shape[j];
        }
        assert p.shape[|p.shape|..] == [];
        if fanIn == 0 {
          failure := Some(ZeroFanIn);
          return;
        }
        fill := NormalFill(fanIn, 2.0 / fanIn as real);
      }
      applied := applied + [fill];
      i := i + 1;
    }
  }

  // ----- The parameters of a plan and the whole build -----

  /** Sizes PyTorch accepts for a layer's constructor. */
  predicate ValidSizes(l: Layer)
  {
    match l
    case Conv2d(i, o, k, _) => i >= 0 && o >= 0 && k >= 0
    case Linear(i, o) => i >= 0 && o >= 0
    case _ => true
  }

  predicate AllValidSizes(model: seq<Entry>)
  {
    forall i :: 0 <= i < |model| ==> ValidSizes(model[i].layer)
  }

  /**
   * PyTorch's parameter registration: a convolution has `<name>.weight` of
   * size [out, in, k, k] then `<name>.bias` of size [out]; a linear layer
   * `<name>.weight` of size [out, in] then `<name>.bias`; the other layers of
   * these plans have none.
   */
  function EntryParams(e: Entry): seq<NamedParam>
    requires ValidSizes(e.layer)
  {
    match e.layer
    case Conv2d(i, o, k, _) => [NamedParam(e.name + ".weight", [o, i, k, k]), NamedParam(e.name + ".bias", [o])]
    case Linear(i, o) => [NamedParam(e.name + ".weight", [o, i]), NamedParam(e.name + ".bias", [o])]
    case _ => []
  }

  /** `model.named_parameters()`, in registration order. */
  function NamedParameters(model: seq<Entry>): seq<NamedParam>
    requires AllValidSizes(model)
  {
    if model == [] then [] else EntryParams(model[0]) + NamedParameters(model[1..])
  }

  lemma {:induction false} NamedParametersAppend(a: seq<Entry>, b: seq<Entry>)
    requires AllValidSizes(a) && AllValidSizes(b)
    ensures AllValidSizes(a + b)
    ensures NamedParameters(a + b) == NamedParameters(a) + NamedParameters(b)
  {
    if a != [] {
      assert (a + b)[1..] == a[1..] + b;
      NamedParametersAppend(a[1..], b);
    } else {
      assert a + b == b;
    }
  }

  /** A layer whose parameters the initialisation fills without raising. */
  predicate InitSafe(l: Layer)
  {
    match l
    case Conv2d(i, o, k, _) => i >= 1 && o >= 0 && k >= 1
    case Linear(i, o) => i >= 1 && o >= 0
    case _ => true
  }

  predicate AllInitOk(params: seq<NamedParam>)
  {
    forall k :: 0 <= k < |params| ==> InitDecision(params[k]).Success?
  }

  lemma WeightAndBiasNames(name: string)
    ensures !HasSuffix(name + ".weight", ".bias")
    ensures HasSuffix(name + ".bias", ".bias")
  {
    var w, b := name + ".weight", name + ".bias";
    assert w[|w| - 5..] == "eight";
    assert b[|b| - 5..] == ".bias";
  }

  lemma WeightDecisionOk(name: string, shape: seq<nat>)
    requires |shape| >= 2 && Product(shape[1..]) >= 1
    ensures InitDecision(NamedParam(name + ".weight", shape)).Success?
  {
    WeightAndBiasNames(name);
    InitDecisionCases(NamedParam(name + ".weight", shape));
  }

  lemma BiasDecisionOk(name: string, shape: seq<nat>)
    ensures InitDecision(NamedParam(name + ".bias", shape)) == Success(ZeroFill)
  {
    WeightAndBiasNames(name);
    InitDecisionCases(NamedParam(name + ".bias", shape));
  }

  lemma EntryParamsOk(e: Entry)
    requires InitSafe(e.layer)
    ensures ValidSizes(e.layer) && AllInitOk(EntryParams(e))
  {
    match e.layer
    case Conv2d(i, o, k, _) =>
      var shape: seq<nat> := [o, i, k, k];
      assert shape[1..] == [i, k, k];
      assert Product([k]) == k;
      assert Product([k, k]) == k * k;
      assert Product([i, k, k]) == i * (k * k);
      assert k * k >= 1;
      assert i * (k * k) >= 1;
      WeightDecisionOk(e.name, shape);
      BiasDecisionOk(e.name, [o]);
    case Linear(i, o) =>
      var shape: seq<nat> := [o, i];
      assert shape[1..] == [i];
      assert Product([i]) == i;
      WeightDecisionOk(e.name, shape);
      BiasDecisionOk(e.name, [o]);
    case _ =>
  }

  /** Every parameter of a plan whose layers are all InitSafe is filled without error. */
  lemma {:induction false} NamedParametersOk(model: seq<Entry>)
    requires AllInitSafe(model)
    ensures AllValidSizes(model) && AllInitOk(NamedParameters(model))
  {
    if model != [] {
      EntryParamsOk(model[0]);
      NamedParametersOk(model[1..]);
      assert AllValidSizes(model) by {
        forall i | 0 <= i < |model| ensures ValidSizes(model[i].layer) {
          if i > 0 { assert model[i] == model[1..][i - 1]; }
        }
      }
      var a, b := EntryParams(model[0]), NamedParameters(model[1..]);
      assert NamedParameters(model) == a + b;
      forall k | 0 <= k < |a + b| ensures InitDecision((a + b)[k]).Success? {
        if k >= |a| { assert (a + b)[k] == b[k - |a|]; }
      }
    }
  }

  predicate AllInitSafe(model: seq<Entry>)
  {
    forall i :: 0 <= i < |model| ==> InitSafe(model[i].layer)
  }

  lemma AllInitSafeAppend(a: seq<Entry>, b: seq<Entry>)
    requires AllInitSafe(a) && AllInitSafe(b)
    ensures AllInitSafe(a + b)
  {
    forall i | 0 <= i < |a + b| ensures InitSafe((a + b)[i].layer) {
      if i >= |a| { assert (a + b)[i] == b[i - |a|]; }
    }
  }

  /** Every layer of `build_conv_model` can be initialised. */
  lemma ConvModelInitSafe()
    ensures AllInitSafe(ConvModel())
  {
    var pool1, pool2 := [Entry("maxpool1", MaxPool2d(2, true))], [Entry("maxpool2", MaxPool2d(2, true))];
    assert AllInitSafe(Stage1()) && AllInitSafe(Stage2()) && AllInitSafe(Stage3()) && AllInitSafe(Stage4());
    assert AllInitSafe(pool1) && AllInitSafe(pool2);
    var a := Stage1() + pool1;
    AllInitSafeAppend(Stage1(), pool1);
    var b := a + Stage2();
    AllInitSafeAppend(a, Stage2());
    var c := b + pool2;
    AllInitSafeAppend(b, pool2);
    var d := c + Stage3();
    AllInitSafeAppend(c, Stage3());
    AllInitSafeAppend(d, Stage4());
    assert d + Stage4() == ConvModel();
  }

  /** With at least one pyramid level the head can be initialised; with none, `fc6.weight` has fan-in 0. */
  lemma HeadParams(phocSize: nat, levels: int)
    ensures AllValidSizes(DortmundHead(phocSize, levels))
    ensures levels >= 1 ==> AllInitSafe(DortmundHead(phocSize, levels))
    ensures levels <= 0 ==>
      var ps := NamedParameters(DortmundHead(phocSize, levels));
      |ps| > 0 && ps[0].name == "fc6.weight" && InitDecision(ps[0]) == Failure(ZeroFanIn)
  {
    Fc6Width(levels);
    var head := DortmundHead(phocSize, levels);
    if levels <= 0 {
      assert NamedParameters(head) == NamedParameters(head[1..]);
      assert NamedParameters(head)[0] == NamedParam("fc6.weight", [4096, 0]);
      WeightAndBiasNames("fc6");
      InitDecisionCases(NamedParam("fc6.weight", [4096, 0]));
      assert [4096, 0][1..] == [0];
    }
  }

  /** What InitializeAsCaffe promises pins down where it stops: at the first parameter that fails. */
  lemma StopsAtFirstFailure(a: seq<NamedParam>, b: seq<NamedParam>, applied: seq<Init>, failure: Option<InitError>)
    requires AllInitOk(a) && b != [] && InitDecision(b[0]).Failure?
    requires |applied| <= |a + b|
    requires forall k :: 0 <= k < |applied| ==> InitDecision((a + b)[k]) == Success(applied[k])
    requires failure.None? ==> |applied| == |a + b|
    requires failure.Some? ==> |applied| < |a + b| && InitDecision((a + b)[|applied|]) == Failure(failure.value)
    ensures failure == Some(InitDecision(b[0]).error) && |applied| == |a|
  {
    assert (a + b)[|a|] == b[0];
    assert |applied| <= |a|;
  }

  /** With at least one pyramid level, every parameter of the PHOCNet plan can be filled. */
  lemma DortmundInitSucceeds(phocSize: nat, levels: int)
    requires levels >= 1
    ensures AllValidSizes(ConvModel() + DortmundHead(phocSize, levels))
    ensures AllInitOk(NamedParameters(ConvModel() + DortmundHead(phocSize, levels)))
  {
    var conv, head := ConvModel(), DortmundHead(phocSize, levels);
    ConvModelInitSafe();
    HeadParams(phocSize, levels);
    AllInitSafeAppend(conv, head);
    NamedParametersOk(conv + head);
  }

  /**
   * With no pyramid level, initialising a plan made of an initialisable
   * convolutional part and the PHOCNet head fills every convolutional
   * parameter and then stops with a division by zero at `fc6.weight`.
   */
  lemma InitFailsAtFc6(conv: seq<Entry>, phocSize: nat, levels: int, applied: seq<Init>, failure: Option<InitError>)
    requires levels <= 0 && AllInitSafe(conv)
    requires AllValidSizes(conv + DortmundHead(phocSize, levels))
    requires var ps := NamedParameters(conv + DortmundHead(phocSize, levels));
      && |applied| <= |ps|
      && (forall k :: 0 <= k < |applied| ==> InitDecision(ps[k]) == Success(applied[k]))
      && (failure.None? ==> |applied| == |ps|)
      && (failure.Some? ==> |applied| < |ps| && InitDecision(ps[|applied|]) == Failure(failure.value))
    ensures AllValidSizes(conv)
    ensures failure == Some(ZeroFanIn)
    ensures |applied| == |NamedParameters(conv)|
    ensures NamedParameters(conv + DortmundHead(phocSize, levels))[|applied|].name == "fc6.weight"
  {
    var head := DortmundHead(phocSize, levels);
    NamedParametersOk(conv);
    HeadParams(phocSize, levels);
    NamedParametersAppend(conv, head);
    var a, b := NamedParameters(conv), NamedParameters(head);
    StopsAtFirstFailure(a, b, applied, failure);
    assert (a + b)[|a|] == b[0];
  }

  /**
   * `build_dortmund_model`: the convolutional part, the head appended entry
   * by entry, then the initialisation of every parameter.  With at least one
   * pyramid level every parameter is filled; with none, the initialisation
   * fails with a division by zero at `fc6.weight`, after filling all the
   * convolutional parameters.
   */
  method BuildDortmundModel(phocSize: nat, levels: int := 5)
    returns (model: seq<Entry>, applied: seq<Init>, failure: Option<InitError>)
    ensures model == ConvModel() + DortmundHead(phocSize, levels)
    ensures AllValidSizes(model) && AllValidSizes(DortmundHead(phocSize, levels))
    ensures |applied| <= |NamedParameters(model)|
    ensures forall k :: 0 <= k < |applied| ==> InitDecision(NamedParameters(model)[k]) == Success(applied[k])
    ensures levels >= 1 ==> failure == None && |applied| == |NamedParameters(model)|
    ensures levels <= 0 ==>
      (&& failure == Some(ZeroFanIn)
       && |applied| == |NamedParameters(model)| - |NamedParameters(DortmundHead(phocSize, levels))|
       && |applied| < |NamedParameters(model)|
       && NamedParameters(model)[|applied|].name == "fc6.weight")
  {
    model := ConvModel();
    var head := DortmundHead(phocSize, levels);
    for k := 0 to |head|
      invariant model == ConvModel() + head[..k]
    {
      model := model + [head[k]];
    }
    assert head[..|head|] == head;
    ConvModelInitSafe();
    HeadParams(phocSize, levels);
    NamedParametersAppend(ConvModel(), head);
    applied, failure := InitializeAsCaffe(NamedParameters(model));
    if levels >= 1 {
      DortmundInitSucceeds(phocSize, levels);
    } else {
      InitFailsAtFc6(ConvModel(), phocSize, levels, applied, failure);
    }
  }
}
