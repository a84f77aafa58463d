/**
 * `DortmundCTCModule.size_after_conv`: the image sizes after the
 * convolutional part, which halves them (rounding up) at each of its two
 * 2x2 ceil-mode max poolings.
 */
module DortmundCtcModule {
  import opened Layers

  /** The least integer not below `r`. */
  function Ceil(r: real): (c: int)
    ensures c as real - 1.0 < r <= c as real
  {
    -((-r).Floor)
  }

  /** One step as the source writes it, in exact arithmetic: ceil((x - 2) / 2 + 1). */
  function PoolStepFormula(x: int): int
  {
    Ceil((x as real - 2.0) / 2.0 + 1.0)
  }

  /** One step in integer arithmetic: the ceiling of x / 2. */
  function PoolStep(x: int): (r: int)
    ensures 2 * r - 1 <= x <= 2 * r
  {
    (x + 1) / 2
  }

  /** On integer sizes the integer step and the source's formula agree exactly. */
  lemma PoolStepMatchesFormula(x: int)
    ensures PoolStep(x) == PoolStepFormula(x)
  {
    var r := (x as real - 2.0) / 2.0 + 1.0;
    assert r == x as real / 2.0;
    var q := PoolStep(x);
    assert q as real - 1.0 < r <= q as real;
  }

  /** `size_after_conv` on one size: the ceiling of x / 4. */
  function SizeAfterConv(x: int): (r: int)
    ensures 4 * r - 3 <= x <= 4 * r
  {
    PoolStep(PoolStep(x))
  }

  /** `size_after_conv` on a batch of sizes, element by element. */
  function SizesAfterConv(xs: seq<int>): (r: seq<int>)
    ensures |r| == |xs|
    ensures forall i :: 0 <= i < |xs| ==> 4 * r[i] - 3 <= xs[i] <= 4 * r[i]
  {
    seq(|xs|, i requires 0 <= i < |xs| => SizeAfterConv(xs[i]))
  }

  lemma SizeAfterConvMonotone(x: int, y: int)
    requires x <= y
    ensures SizeAfterConv(x) <= SizeAfterConv(y)
  {
  }

  lemma SizeAfterConvBounds(x: int)
    requires x >= 0
    ensures 0 <= SizeAfterConv(x) <= x
    ensures x >= 1 ==> SizeAfterConv(x) >= 1
  {
  }

  /** Each step is the output width of `MaxPool2d(2, ceil_mode=True)`. */
  lemma PoolStepIsMaxPoolWidth(x: int)
    ensures PoolStep(x) == PoolOutWidth(x, 2, true)
  {
  }

  /** The four convolution stages keep the width. */
  lemma StagesKeepWidth(w: int)
    ensures AllSpatial(Stage1()) && AllSpatial(Stage2()) && AllSpatial(Stage3()) && AllSpatial(Stage4())
    ensures WidthAfter(Stage1(), w) == w && WidthAfter(Stage2(), w) == w
    ensures WidthAfter(Stage3(), w) == w && WidthAfter(Stage4(), w) == w
  {
    ConvBlockKeepsWidth(Stage1(), w);
    ConvBlockKeepsWidth(Stage2(), w);
    ConvBlockKeepsWidth(Stage3(), w);
    ConvBlockKeepsWidth(Stage4(), w);
  }

  /** `size_after_conv` is exactly the width `build_conv_model` produces. */
  lemma SizeAfterConvTracksConvModel(w: int)
    ensures AllSpatial(ConvModel())
    ensures WidthAfter(ConvModel(), w) == SizeAfterConv(w)
  {
    var pool1, pool2 := [Entry("maxpool1", MaxPool2d(2, true))], [Entry("maxpool2", MaxPool2d(2, true))];
    var w1, w2 := PoolStep(w), SizeAfterConv(w);
    StagesKeepWidth(w);
    StagesKeepWidth(w1);
    StagesKeepWidth(w2);
    PoolStepIsMaxPoolWidth(w);
    PoolStepIsMaxPoolWidth(w1);
    assert WidthAfter(pool1, w) == w1;
    assert WidthAfter(pool2, w1) == w2;
    var a := Stage1() + pool1;
    WidthAfterAppend(Stage1(), pool1, w);
    var b := a + Stage2();
    WidthAfterAppend(a, Stage2(), w);
    var c := b + pool2;
    WidthAfterAppend(b, pool2, w);
    var d := c + Stage3();
    WidthAfterAppend(c, Stage3(), w);
    WidthAfterAppend(d, Stage4(), w);
    assert d + Stage4() == ConvModel();
  }
}
