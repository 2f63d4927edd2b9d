/**
 * The six bands of the equaliser and the filter role each index stands for.
 * Index 0 is the high-pass stage, indices 1..4 the peaking stages and index 5
 * the low-pass stage; the same order is the processing order of a filter chain.
 */
module Bands {
  import opened Wrappers
  import Constants

  datatype Band = HighPass | Peak1 | Peak2 | Peak3 | Peak4 | LowPass

  /** The enumerator's integer value: HighPass = 0 and each following band one more. */
  function Index(b: Band): (i: int)
    ensures 0 <= i < Constants.NumBands
    ensures b == HighPass <==> i == 0
    ensures b == LowPass <==> i == Constants.NumBands - 1
  {
    match b
    case HighPass => 0
    case Peak1 => 1
    case Peak2 => 2
    case Peak3 => 3
    case Peak4 => 4
    case LowPass => 5
  }

  /** The band an integer index selects, as a `switch` over the enumerators does; None for any other index. */
  function BandOf(index: int): (b: Option<Band>)
    ensures b.Some? <==> 0 <= index < Constants.NumBands
    ensures b.Some? ==> Index(b.value) == index
  {
    if index == 0 then Some(HighPass)
    else if index == 1 then Some(Peak1)
    else if index == 2 then Some(Peak2)
    else if index == 3 then Some(Peak3)
    else if index == 4 then Some(Peak4)
    else if index == 5 then Some(LowPass)
    else None
  }

  predicate IsPeak(b: Band)
  {
    b == Peak1 || b == Peak2 || b == Peak3 || b == Peak4
  }

  /** The user interface's test `Peak1 <= i && i <= Peak4` on a raw band index. */
  predicate IsPeakIndex(index: int)
  {
    Index(Peak1) <= index <= Index(Peak4)
  }

  /** The enumerators take the consecutive values 0..5, so indices and bands correspond one to one. */
  lemma {:induction false} IndexIsConsecutive(b: Band)
    ensures BandOf(Index(b)) == Some(b)
    ensures b != LowPass ==> exists c :: Index(c) == Index(b) + 1
    ensures forall c :: Index(c) == Index(b) ==> c == b
  {
    match b
    case HighPass => assert Index(Peak1) == 1;
    case Peak1 => assert Index(Peak2) == 2;
    case Peak2 => assert Index(Peak3) == 3;
    case Peak3 => assert Index(Peak4) == 4;
    case Peak4 => assert Index(LowPass) == 5;
    case LowPass =>
  }

  /** The raw-index peaking test of the user interface agrees with the band's role. */
  lemma PeakIndexMatchesRole(index: int)
    ensures IsPeakIndex(index) <==> BandOf(index).Some? && IsPeak(BandOf(index).value)
  {
  }
}
