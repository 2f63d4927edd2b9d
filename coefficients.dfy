/**
 * Filter coefficient sets and the magnitude of a cascade of them.
 *
 * The coefficient formulas belong to the DSP library and are not part of this
 * model. A coefficient set is therefore represented by the designer call that
 * produced it: `MakeHighPass(44100.0, 33.0, 0.707)` stands for whatever
 * `Coefficients::makeHighPass(44100, 33, 0.707)` returns. The model only ever
 * proves equalities between such terms, and those hold for any concrete designer.
 * Likewise the magnitude of one stage at a frequency is a function supplied by
 * the caller (`StageResponse`), standing for `Coefficients::getMagnitudeForFrequency`.
 */
module Coefficients {
  import opened Wrappers
  import opened Bands
  import Constants

  /** The linear gain `Decibels::decibelsToGain(decibels)` returns. */
  datatype LinearGain = DecibelsToGain(decibels: real)

  datatype Coeffs =
    | DefaultSet
      // the set a newly constructed filter holds before any band update
    | MakeHighPass(sampleRate: real, frequency: real, q: real)
    | MakePeakFilter(sampleRate: real, frequency: real, q: real, gainFactor: LinearGain)
    | MakeLowPass(sampleRate: real, frequency: real, q: real)

  /** Magnitude of one stage's frequency response: (coefficients, frequency, sample rate) -> gain. */
  type StageResponse = (Coeffs, real, real) -> real

  /**
   * The coefficient set a band update builds for band `b`: the band's role picks
   * the designer, the given sample rate, frequency and Q are passed through, and
   * only the peaking role takes the gain, converted from decibels to a linear factor.
   */
  function Design(b: Band, sampleRate: real, freq: real, gainDb: real, q: real): (c: Coeffs)
    ensures !c.DefaultSet?
    ensures c.sampleRate == sampleRate && c.frequency == freq && c.q == q
    ensures b == HighPass <==> c.MakeHighPass?
    ensures b == LowPass <==> c.MakeLowPass?
    ensures IsPeak(b) <==> c.MakePeakFilter?
    ensures c.MakePeakFilter? ==> c.gainFactor == DecibelsToGain(gainDb)
  {
    match b
    case HighPass => MakeHighPass(sampleRate, freq, q)
    case Peak1 => MakePeakFilter(sampleRate, freq, q, DecibelsToGain(gainDb))
    case Peak2 => MakePeakFilter(sampleRate, freq, q, DecibelsToGain(gainDb))
    case Peak3 => MakePeakFilter(sampleRate, freq, q, DecibelsToGain(gainDb))
    case Peak4 => MakePeakFilter(sampleRate, freq, q, DecibelsToGain(gainDb))
    case LowPass => MakeLowPass(sampleRate, freq, q)
  }

  /** Design for a raw band index: no coefficient set at all for an index outside 0..5. */
  function BandDesign(bandIndex: int, sampleRate: real, freq: real, gainDb: real, q: real): (d: Option<Coeffs>)
    ensures d.Some? <==> 0 <= bandIndex < Constants.NumBands
    ensures d.Some? ==> d.value == Design(BandOf(bandIndex).value, sampleRate, freq, gainDb, q)
  {
    match BandOf(bandIndex)
    case None => None
    case Some(b) => Some(Design(b, sampleRate, freq, gainDb, q))
  }

  /** The high-pass and low-pass roles ignore the gain argument altogether. */
  lemma PassBandsIgnoreGain(b: Band, sampleRate: real, freq: real, gainA: real, gainB: real, q: real)
    requires !IsPeak(b)
    ensures Design(b, sampleRate, freq, gainA, q) == Design(b, sampleRate, freq, gainB, q)
  {
  }

  /** The factor one stage contributes to the cascade: a stage holding no coefficient set contributes nothing. */
  function Factor(stage: Option<Coeffs>, frequency: real, sampleRate: real, response: StageResponse): (f: real)
    ensures stage.None? ==> f == 1.0
    ensures stage.Some? ==> f == response(stage.value, frequency, sampleRate)
  {
    match stage
    case None => 1.0
    case Some(c) => response(c, frequency, sampleRate)
  }

  /** Each stage's factor at one frequency, in chain order. */
  function Responses(stages: seq<Option<Coeffs>>, frequency: real, sampleRate: real, response: StageResponse): (rs: seq<real>)
    ensures |rs| == |stages|
    ensures forall k :: 0 <= k < |stages| ==> rs[k] == Factor(stages[k], frequency, sampleRate, response)
  {
    seq(|stages|, k requires 0 <= k < |stages| => Factor(stages[k], frequency, sampleRate, response))
  }

  /** Start from 1 and multiply in the first `n` values, first value first. */
  function Product(xs: seq<real>, n: int): real
    requires 0 <= n <= |xs|
    decreases n
  {
    if n == 0 then 1.0 else Product(xs, n - 1) * xs[n - 1]
  }

  /** The response of a whole chain: the product of its stages' factors, taken in chain order from 1. */
  function Cascade(stages: seq<Option<Coeffs>>, frequency: real, sampleRate: real, response: StageResponse): real
  {
    Product(Responses(stages, frequency, sampleRate, response), |stages|)
  }

  function Abs(x: real): (r: real)
    ensures r >= 0.0 && (r == x || r == -x)
  {
    if x < 0.0 then -x else x
  }

  /** The product of the first n values depends only on those values. */
  lemma {:induction false} ProductDependsOnPrefix(xs: seq<real>, ys: seq<real>, n: int)
    requires 0 <= n <= |xs| && n <= |ys|
    requires forall k :: 0 <= k < n ==> xs[k] == ys[k]
    ensures Product(xs, n) == Product(ys, n)
    decreases n
  {
    if n > 0 {
      ProductDependsOnPrefix(xs, ys, n - 1);
    }
  }

  /** Arithmetic for the base case below: a * x * y == a * y * x. */
  lemma TradeFactor(a: real, fNew: real, fOld: real, withNew: real, withOld: real)
    requires withNew == a * fNew && withOld == a * fOld
    ensures withNew * fOld == withOld * fNew
  {
  }

  /** Arithmetic for the step case below: both sides of an equation multiplied by the same g. */
  lemma ExtendByFactor(au: real, as_: real, g: real, fOld: real, fNew: real, nextU: real, nextS: real)
    requires au * fOld == as_ * fNew
    requires nextU == au * g && nextS == as_ * g
    ensures nextU * fOld == nextS * fNew
  {
  }

  /** Replacing the i-th value of a product swaps exactly one factor: the others contribute as before. */
  lemma {:induction false} ProductReplace(xs: seq<real>, i: int, y: real, n: int)
    requires 0 <= i < n <= |xs|
    ensures Product(xs[i := y], n) * xs[i] == Product(xs, n) * y
    decreases n
  {
    var u := xs[i := y];
    if n == i + 1 {
      ProductDependsOnPrefix(u, xs, i);
      TradeFactor(Product(xs, i), y, xs[i], Product(u, n), Product(xs, n));
    } else {
      ProductReplace(xs, i, y, n - 1);
      ExtendByFactor(Product(u, n - 1), Product(xs, n - 1), xs[n - 1], xs[i], y, Product(u, n), Product(xs, n));
    }
  }

  /**
   * Installing x at stage i of a chain trades that stage's old factor for x's
   * and leaves the factors of the other five stages as they were.
   */
  lemma CascadeReplace(s: seq<Option<Coeffs>>, i: int, x: Option<Coeffs>, frequency: real, sampleRate: real, response: StageResponse)
    requires 0 <= i < |s|
    ensures Cascade(s[i := x], frequency, sampleRate, response) * Factor(s[i], frequency, sampleRate, response)
         == Cascade(s, frequency, sampleRate, response) * Factor(x, frequency, sampleRate, response)
  {
    var rs := Responses(s, frequency, sampleRate, response);
    assert Responses(s[i := x], frequency, sampleRate, response) == rs[i := Factor(x, frequency, sampleRate, response)];
    ProductReplace(rs, i, Factor(x, frequency, sampleRate, response), |s|);
  }

  /** A stage holding no coefficient set contributes exactly what a stage of unity response would. */
  lemma EmptyStageIsUnity(s: seq<Option<Coeffs>>, i: int, c: Coeffs, frequency: real, sampleRate: real, response: StageResponse)
    requires 0 <= i < |s|
    requires response(c, frequency, sampleRate) == 1.0
    ensures Cascade(s[i := None], frequency, sampleRate, response)
         == Cascade(s[i := Some(c)], frequency, sampleRate, response)
  {
    assert Responses(s[i := None], frequency, sampleRate, response)
        == Responses(s[i := Some(c)], frequency, sampleRate, response);
  }

  /** The product of values that are all 1 is 1. */
  lemma {:induction false} ProductOfOnes(xs: seq<real>, n: int)
    requires 0 <= n <= |xs|
    requires forall k :: 0 <= k < |xs| ==> xs[k] == 1.0
    ensures Product(xs, n) == 1.0
    decreases n
  {
    if n > 0 {
      ProductOfOnes(xs, n - 1);
    }
  }

  /** A chain none of whose stages holds coefficients has unity response. */
  lemma EmptyChainIsUnity(s: seq<Option<Coeffs>>, frequency: real, sampleRate: real, response: StageResponse)
    requires forall k :: 0 <= k < |s| ==> s[k].None?
    ensures Cascade(s, frequency, sampleRate, response) == 1.0
  {
    ProductOfOnes(Responses(s, frequency, sampleRate, response), |s|);
  }

  /** A product of non-negative values is non-negative. */
  lemma {:induction false} ProductNonNegative(xs: seq<real>, n: int)
    requires 0 <= n <= |xs|
    requires forall k :: 0 <= k < |xs| ==> xs[k] >= 0.0
    ensures Product(xs, n) >= 0.0
    decreases n
  {
    if n > 0 {
      ProductNonNegative(xs, n - 1);
      var a, f := Product(xs, n - 1), xs[n - 1];
      assert a * f >= 0.0;
    }
  }

  /** When every stage response is a non-negative magnitude, the final absolute value of the query changes nothing. */
  lemma CascadeMagnitudeIsProduct(s: seq<Option<Coeffs>>, frequency: real, sampleRate: real, response: StageResponse)
    requires forall c: Coeffs :: response(c, frequency, sampleRate) >= 0.0
    ensures Cascade(s, frequency, sampleRate, response) >= 0.0
    ensures Abs(Cascade(s, frequency, sampleRate, response)) == Cascade(s, frequency, sampleRate, response)
  {
    ProductNonNegative(Responses(s, frequency, sampleRate, response), |s|);
  }
}
