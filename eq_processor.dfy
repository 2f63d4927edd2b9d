/**
 * The band-table engine: two filter chains (left and right channel) of six
 * stages each, a stored sample rate with a 44100 Hz fallback, band updates that
 * write the same new coefficients into one stage of both chains, channel
 * routing for processing, and the magnitude query over the left chain.
 */
module EqEngine {
  import opened Wrappers
  import opened Bands
  import opened Coefficients
  import opened Constants

  const FallbackSampleRate: real := 44100.0

  /** What `prepare` is given; only the sample rate is kept by the engine. */
  datatype ProcessSpec = ProcessSpec(sampleRate: real, maximumBlockSize: nat, numChannels: nat)

  /** One block a chain has processed, with the coefficient sets of its stages at that time. */
  datatype Run = Run(coefficients: seq<Option<Coeffs>>, input: seq<real>)

  /**
   * The filtering the DSP library performs for one block: given everything the
   * chain has processed since it was last prepared (which determines its filter
   * memory), its current coefficients and the input block, the output block.
   */
  type Renderer = (seq<Run>, seq<Option<Coeffs>>, seq<real>) -> seq<real>

  /** A filter turns a block of samples into a block of the same length. */
  ghost predicate KeepsLength(render: Renderer)
  {
    forall history, coefficients, block :: |render(history, coefficients, block)| == |block|
  }

  /** The reference-counted coefficient object a filter stage points to; band updates overwrite its contents. */
  class CoefficientSet {
    var value: Coeffs

    constructor (c: Coeffs)
      ensures value == c
    {
      value := c;
    }
  }

  /** The value held at one stage: None when the stage points to no coefficient set. */
  function StageValue(stage: CoefficientSet?): Option<Coeffs>
    reads stage
  {
    if stage == null then None else Some(stage.value)
  }

  /** One channel's cascade of six filter stages. */
  class FilterChain {
    /** Each stage's coefficient pointer; the model never re-points one, it only writes through it. */
    const stages: seq<CoefficientSet?>
    /** The blocks processed since the last `Prepare`, standing for the filters' memory. */
    var history: seq<Run>
    ghost const Repr: set<object>

    ghost predicate Valid()
    {
      && |stages| == NumBands
      && this in Repr
      && (forall i :: 0 <= i < |stages| && stages[i] != null ==> stages[i] in Repr)
      && (forall i, j :: 0 <= i < j < |stages| && stages[i] != null ==> stages[i] != stages[j])
    }

    /** Every stage points to a coefficient set. */
    ghost predicate Populated()
    {
      forall i :: 0 <= i < |stages| ==> stages[i] != null
    }

    /** The coefficient sets of the six stages, in processing order. */
    function StageCoefficients(): (cs: seq<Option<Coeffs>>)
      reads stages
      ensures |cs| == |stages|
      ensures forall i :: 0 <= i < |stages| ==> cs[i] == StageValue(stages[i])
    {
      seq(|stages|, i requires 0 <= i < |stages| reads stages => StageValue(stages[i]))
    }

    /** A new chain: six stages, each holding the default set of a newly constructed filter. */
    constructor ()
      ensures Valid() && Populated() && fresh(Repr)
      ensures StageCoefficients() == seq(NumBands, _ => Some(DefaultSet))
      ensures history == []
    {
      var s0 := new CoefficientSet(DefaultSet);
      var s1 := new CoefficientSet(DefaultSet);
      var s2 := new CoefficientSet(DefaultSet);
      var s3 := new CoefficientSet(DefaultSet);
      var s4 := new CoefficientSet(DefaultSet);
      var s5 := new CoefficientSet(DefaultSet);
      stages := [s0, s1, s2, s3, s4, s5];
      history := [];
      Repr := {this, s0, s1, s2, s3, s4, s5};
    }

    /** Reset the filters' memory; the coefficient sets are kept. */
    method Prepare()
      requires Valid()
      modifies this
      ensures history == []
    {
      history := [];
    }

    /** Run one block through the six stages in order. */
    method Process(block: seq<real>, render: Renderer) returns (output: seq<real>)
      requires Valid()
      requires KeepsLength(render)
      modifies this
      ensures |output| == |block|
      ensures output == render(old(history), StageCoefficients(), block)
      ensures history == old(history) + [Run(StageCoefficients(), block)]
    {
      output := render(history, StageCoefficients(), block);
      history := history + [Run(StageCoefficients(), block)];
    }
  }

  class EqProcessor {
    const left: FilterChain
    const right: FilterChain
    var sampleRate: real
    ghost const Repr: set<object>

    ghost predicate Valid()
    {
      && left.Valid() && right.Valid()
      && left.Repr !! right.Repr
      && this !in left.Repr && this !in right.Repr
      && Repr == {this} + left.Repr + right.Repr
    }

    /** Both channels carry the same coefficients, stage by stage. */
    ghost predicate ChainsAgree()
      reads left.stages, right.stages
    {
      left.StageCoefficients() == right.StageCoefficients()
    }

    /** Every stage of both chains points to a coefficient set (so a band update may write through it). */
    ghost predicate Populated()
    {
      left.Populated() && right.Populated()
    }

    constructor ()
      ensures Valid() && Populated() && fresh(Repr)
      ensures sampleRate == FallbackSampleRate
      ensures left.StageCoefficients() == seq(NumBands, _ => Some(DefaultSet)) && ChainsAgree()
      ensures left.history == [] && right.history == []
    {
      var l := new FilterChain();
      var r := new FilterChain();
      left, right := l, r;
      sampleRate := FallbackSampleRate;
      Repr := {this} + l.Repr + r.Repr;
    }

    /** The stored sample rate: the fallback until `Prepare` records one. */
    function GetSampleRate(): (r: real)
      reads this
      ensures r == sampleRate
    {
      sampleRate
    }

    /** Record the sample rate and reset both chains; no coefficient set is written. */
    method Prepare(spec: ProcessSpec)
      requires Valid()
      modifies this, left, right
      ensures sampleRate == spec.sampleRate
      ensures left.history == [] && right.history == []
      ensures left.StageCoefficients() == old(left.StageCoefficients()) && right.StageCoefficients() == old(right.StageCoefficients())
    {
      sampleRate := spec.sampleRate;
      left.Prepare();
      right.Prepare();
    }

    /**
     * Route channel 0 through the left chain and channel 1 through the right
     * chain, in place; any further channel is left as it was.
     */
    method Process(buffer: array<seq<real>>, render: Renderer)
      requires Valid()
      requires buffer.Length >= 2
      requires KeepsLength(render)
      modifies buffer, left, right
      ensures |buffer[0]| == |old(buffer[0])| && |buffer[1]| == |old(buffer[1])|
      ensures buffer[0] == render(old(left.history), left.StageCoefficients(), old(buffer[0]))
      ensures buffer[1] == render(old(right.history), right.StageCoefficients(), old(buffer[1]))
      ensures forall c :: 2 <= c < buffer.Length ==> buffer[c] == old(buffer[c])
      ensures left.history == old(left.history) + [Run(left.StageCoefficients(), old(buffer[0]))]
      ensures right.history == old(right.history) + [Run(right.StageCoefficients(), old(buffer[1]))]
      ensures left.StageCoefficients() == old(left.StageCoefficients()) && right.StageCoefficients() == old(right.StageCoefficients()) && sampleRate == old(sampleRate)
    {
      var leftBlock, rightBlock := buffer[0], buffer[1];
      var leftOut := left.Process(leftBlock, render);
      var rightOut := right.Process(rightBlock, render);
      buffer[0] := leftOut;
      buffer[1] := rightOut;
    }

    /** Copy the replacement's contents into the existing target object (`*old = *replacements`). */
    method UpdateCoefficients(target: CoefficientSet, replacements: CoefficientSet)
      modifies target
      ensures target.value == old(replacements.value)
      ensures replacements.value == old(replacements.value)
    {
      target.value := replacements.value;
    }

    /** Write one freshly designed set into stage `i` of both chains. */
    method InstallInBothChains(i: int, coeffs: CoefficientSet)
      requires Valid() && Populated() && 0 <= i < NumBands
      requires coeffs !in Repr
      modifies left.stages[i], right.stages[i]
      ensures left.StageCoefficients() == old(left.StageCoefficients())[i := Some(coeffs.value)]
      ensures right.StageCoefficients() == old(right.StageCoefficients())[i := Some(coeffs.value)]
      ensures coeffs.value == old(coeffs.value)
    {
      UpdateCoefficients(left.stages[i], coeffs);
      UpdateCoefficients(right.stages[i], coeffs);
    }

    /**
     * Build the coefficient set the band's role calls for, from the stored
     * sample rate, and install it at that stage of both chains. An index outside
     * 0..5 changes nothing.
     */
    method UpdateBandParameters(bandIndex: int, freq: real, gainDb: real, q: real)
      requires Valid() && Populated()
      modifies Repr
      ensures sampleRate == old(sampleRate)
      ensures left.history == old(left.history) && right.history == old(right.history)
      ensures var d := BandDesign(bandIndex, sampleRate, freq, gainDb, q);
              if d.None? then left.StageCoefficients() == old(left.StageCoefficients()) && right.StageCoefficients() == old(right.StageCoefficients())
              else left.StageCoefficients() == old(left.StageCoefficients())[bandIndex := d] && right.StageCoefficients() == old(right.StageCoefficients())[bandIndex := d]
      ensures old(ChainsAgree()) ==> ChainsAgree()
    {
      match BandOf(bandIndex)
      case Some(HighPass) =>
        var coeffs := new CoefficientSet(MakeHighPass(sampleRate, freq, q));
        InstallInBothChains(bandIndex, coeffs);
      case Some(Peak1) =>
        var coeffs := new CoefficientSet(MakePeakFilter(sampleRate, freq, q, DecibelsToGain(gainDb)));
        InstallInBothChains(bandIndex, coeffs);
      case Some(Peak2) =>
        var coeffs := new CoefficientSet(MakePeakFilter(sampleRate, freq, q, DecibelsToGain(gainDb)));
        InstallInBothChains(bandIndex, coeffs);
      case Some(Peak3) =>
        var coeffs := new CoefficientSet(MakePeakFilter(sampleRate, freq, q, DecibelsToGain(gainDb)));
        InstallInBothChains(bandIndex, coeffs);
      case Some(Peak4) =>
        var coeffs := new CoefficientSet(MakePeakFilter(sampleRate, freq, q, DecibelsToGain(gainDb)));
        InstallInBothChains(bandIndex, coeffs);
      case Some(LowPass) =>
        var coeffs := new CoefficientSet(MakeLowPass(sampleRate, freq, q));
        InstallInBothChains(bandIndex, coeffs);
      case None =>
        // unknown band index: only logged
    }

    /** One `accumulateMag` step: multiply in the stage's magnitude if it holds coefficients. */
    static method AccumulateMagnitude(result: real, filter: CoefficientSet?, frequency: real, sampleRate: real, response: StageResponse)
      returns (next: real)
      ensures next == result * Factor(StageValue(filter), frequency, sampleRate, response)
    {
      next := result;
      if filter != null {
        next := result * response(filter.value, frequency, sampleRate);
      }
    }

    /**
     * Magnitude of the whole equaliser at `frequency`, for the caller's sample
     * rate: the left chain's stages multiplied from 1 in order, as an absolute
     * value. The right chain is not read; when the chains agree it gives the same.
     */
    method GetMagnitudeForFrequency(frequency: real, sampleRate: real, response: StageResponse) returns (magnitude: real)
      requires Valid()
      ensures magnitude == Abs(Cascade(left.StageCoefficients(), frequency, sampleRate, response))
      ensures ChainsAgree() ==> magnitude == Abs(Cascade(right.StageCoefficients(), frequency, sampleRate, response))
    {
      ghost var rs := Responses(left.StageCoefficients(), frequency, sampleRate, response);
      var result := 1.0;
      result := AccumulateMagnitude(result, left.stages[0], frequency, sampleRate, response);
      StepCascade(left.StageCoefficients(), rs, 0, StageValue(left.stages[0]), frequency, sampleRate, response);
      assert result == Product(rs, 1);
      result := AccumulateMagnitude(result, left.stages[1], frequency, sampleRate, response);
      StepCascade(left.StageCoefficients(), rs, 1, StageValue(left.stages[1]), frequency, sampleRate, response);
      assert result == Product(rs, 2);
      result := AccumulateMagnitude(result, left.stages[2], frequency, sampleRate, response);
      StepCascade(left.StageCoefficients(), rs, 2, StageValue(left.stages[2]), frequency, sampleRate, response);
      assert result == Product(rs, 3);
      result := AccumulateMagnitude(result, left.stages[3], frequency, sampleRate, response);
      StepCascade(left.StageCoefficients(), rs, 3, StageValue(left.stages[3]), frequency, sampleRate, response);
      assert result == Product(rs, 4);
      result := AccumulateMagnitude(result, left.stages[4], frequency, sampleRate, response);
      StepCascade(left.StageCoefficients(), rs, 4, StageValue(left.stages[4]), frequency, sampleRate, response);
      assert result == Product(rs, 5);
      result := AccumulateMagnitude(result, left.stages[5], frequency, sampleRate, response);
      StepCascade(left.StageCoefficients(), rs, 5, StageValue(left.stages[5]), frequency, sampleRate, response);
      assert result == Product(rs, NumBands);
      magnitude := Abs(result);
    }
  }

  /** Multiplying in stage `k`'s factor extends the product of the first `k` responses by one. */
  lemma StepCascade(stages: seq<Option<Coeffs>>, rs: seq<real>, k: int, stage: Option<Coeffs>,
                    frequency: real, sampleRate: real, response: StageResponse)
    requires rs == Responses(stages, frequency, sampleRate, response)
    requires 0 <= k < |stages| && stages[k] == stage
    ensures Product(rs, k + 1) == Product(rs, k) * Factor(stage, frequency, sampleRate, response)
  {
  }

  /** Before any `Prepare`, a band update designs its coefficients for the 44100 Hz fallback rate. */
  method UpdateBeforePrepare(bandIndex: int, freq: real, gainDb: real, q: real) returns (leftStage: Option<Coeffs>, rightStage: Option<Coeffs>)
    requires 0 <= bandIndex < NumBands
    ensures leftStage == rightStage
    ensures leftStage == BandDesign(bandIndex, FallbackSampleRate, freq, gainDb, q)
    ensures leftStage.value.sampleRate == 44100.0
  {
    var eq := new EqProcessor();
    eq.UpdateBandParameters(bandIndex, freq, gainDb, q);
    leftStage := eq.left.StageCoefficients()[bandIndex];
    rightStage := eq.right.StageCoefficients()[bandIndex];
  }

  /** After `Prepare`, updates design for the prepared rate, and `GetSampleRate` reports it. */
  method UpdateAfterPrepare(spec: ProcessSpec, bandIndex: int, freq: real, gainDb: real, q: real) returns (rate: real, stage: Option<Coeffs>)
    requires 0 <= bandIndex < NumBands
    ensures rate == spec.sampleRate
    ensures stage == BandDesign(bandIndex, spec.sampleRate, freq, gainDb, q)
  {
    var eq := new EqProcessor();
    eq.Prepare(spec);
    eq.UpdateBandParameters(bandIndex, freq, gainDb, q);
    rate := eq.GetSampleRate();
    stage := eq.left.StageCoefficients()[bandIndex];
  }
}
