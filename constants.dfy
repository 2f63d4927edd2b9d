/**
 * Configuration constants of the equaliser: band count, per-band defaults, the
 * parameter ranges the controls clamp to, and the frequency labels of the graph.
 * The source declares them as `float`/`double` literals; here they are exact
 * decimals, which keeps every order relation between them unchanged.
 */
module Constants {

  /** Number of bands (and of filter stages per channel). */
  const NumBands: int := 6

  /** A band's display colour, as the three 8-bit channels passed to `Colour::fromRGB`. */
  datatype Colour = Rgb(red: int, green: int, blue: int)

  const BandColours: seq<Colour> := [
    Rgb(177, 73, 238),
    Rgb(0, 162, 255),
    Rgb(0, 255, 0),
    Rgb(255, 255, 0),
    Rgb(255, 127, 0),
    Rgb(255, 0, 0)
  ]

  const DefaultFrequencies: seq<real> := [33.0, 100.0, 350.0, 1350.0, 5000.0, 16000.0]
  const DefaultGain: real := 0.0
  const DefaultQs: seq<real> := [0.707, 1.0, 1.0, 1.0, 1.0, 0.707]

  /** Frequencies labelled on the graph's horizontal axis. */
  const FrequencyGraphLabels: seq<real> :=
    [20.0, 50.0, 100.0, 200.0, 500.0, 1000.0, 2000.0, 5000.0, 10000.0, 20000.0]
  const NumFrequencyLabels: int := 10

  const MinFreq: real := 20.0
  const MaxFreq: real := 20000.0
  const MinDb: real := -18.0
  const MaxDb: real := 18.0
  const MinQ: real := 0.1
  const MaxQ: real := 6.0

  predicate StrictlyIncreasing(s: seq<real>)
  {
    forall i, j :: 0 <= i < j < |s| ==> s[i] < s[j]
  }

  predicate AllWithin(s: seq<real>, lo: real, hi: real)
  {
    forall i :: 0 <= i < |s| ==> lo <= s[i] <= hi
  }

  /** Every per-band table has one entry per band. */
  lemma BandTablesHaveOneEntryPerBand()
    ensures NumBands == 6
    ensures |BandColours| == NumBands
    ensures |DefaultFrequencies| == NumBands
    ensures |DefaultQs| == NumBands
  {
  }

  /** Colour channels are 8-bit values. */
  lemma BandColoursAreRgb()
    ensures forall i :: 0 <= i < |BandColours| ==>
      0 <= BandColours[i].red < 256 && 0 <= BandColours[i].green < 256 && 0 <= BandColours[i].blue < 256
  {
  }

  /** Default frequencies run from the lowest band to the highest and sit inside the frequency range. */
  lemma DefaultFrequenciesOrderedAndInRange()
    ensures StrictlyIncreasing(DefaultFrequencies)
    ensures AllWithin(DefaultFrequencies, MinFreq, MaxFreq)
  {
  }

  lemma DefaultQsInRange()
    ensures AllWithin(DefaultQs, MinQ, MaxQ)
  {
  }

  lemma DefaultGainInRange()
    ensures MinDb <= DefaultGain <= MaxDb
  {
  }

  /** The axis labels are sorted and span exactly the frequency range. */
  lemma GraphLabelsSpanFrequencyRange()
    ensures |FrequencyGraphLabels| == NumFrequencyLabels
    ensures StrictlyIncreasing(FrequencyGraphLabels)
    ensures FrequencyGraphLabels[0] == MinFreq
    ensures FrequencyGraphLabels[NumFrequencyLabels - 1] == MaxFreq
  {
  }

  /** Every clamp interval the controls use is non-empty. */
  lemma RangesNonEmpty()
    ensures MinFreq < MaxFreq && MinDb < MaxDb && MinQ < MaxQ
    ensures 0.0 < MinFreq && 0.0 < MinQ
  {
  }
}
