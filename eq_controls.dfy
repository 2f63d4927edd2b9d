/**
 * Value-level pieces of the editor: points and rectangles, the value constraint
 * a slider applies, the clamp used by mouse edits, the hit test shared by the
 * mouse handlers, and the per-band node record with its configured state.
 */
module EqControls {
  import opened Wrappers
  import opened Constants
  import opened Bands

  datatype Point = Point(x: real, y: real)

  /** An integer rectangle, as the layout code produces it. */
  datatype Rect = Rect(x: int, y: int, width: nat, height: nat)

  /** A slider's range, step and current value. */
  datatype Slider = Slider(minimum: real, maximum: real, interval: real, value: real)

  /** The three sliders of a band. */
  datatype SliderKind = FrequencyKnob | GainBar | QualityKnob

  /**
   * One band's controls. `gainSlider` is None for the two pass bands, whose
   * gain slider is never configured or shown.
   */
  datatype EqNode = EqNode(
    bandIndex: int,
    freq: real,
    gain: real,
    q: real,
    position: Point,
    freqSlider: Slider,
    gainSlider: Option<Slider>,
    qSlider: Slider)

  /** `jlimit(lo, hi, v)`: v, pulled back into [lo, hi]. */
  function Clamp(lo: real, hi: real, v: real): (r: real)
    ensures lo <= hi ==> lo <= r <= hi
    ensures lo <= v <= hi ==> r == v
    ensures v < lo ==> r == lo
    ensures lo <= v && hi < v ==> r == hi
  {
    if v < lo then lo else if hi < v then hi else v
  }

  /**
   * The value a slider ends up holding when asked to take `v`: rounded to the
   * nearest step counted from the minimum (when the step is positive), then
   * limited to the range.
   */
  function SnapToLegalValue(s: Slider, v: real): (r: real)
    ensures s.minimum < s.maximum ==> s.minimum <= r <= s.maximum
    ensures s.maximum <= s.minimum ==> r == s.minimum
    ensures s.minimum < s.maximum && s.interval <= 0.0 ==> r == Clamp(s.minimum, s.maximum, v)
    ensures s.minimum < s.maximum && s.interval > 0.0 ==>
              -s.interval / 2.0 < r - Clamp(s.minimum, s.maximum, v) <= s.interval / 2.0
  {
    var snapped := if s.interval > 0.0 then GridPoint(s.minimum, s.interval, v) else v;
    SnapIsNear(s.minimum, s.interval, v);
    if snapped <= s.minimum || s.maximum <= s.minimum then s.minimum
    else if snapped >= s.maximum then s.maximum
    else snapped
  }

  /** The point of the grid `start + k * interval` nearest to `v` (ties go up). */
  function GridPoint(start: real, interval: real, v: real): real
    requires interval > 0.0
  {
    start + interval * ((v - start) / interval + 0.5).Floor as real
  }

  /** Rounding to the step grid moves a value by at most half a step. */
  lemma SnapIsNear(start: real, interval: real, v: real)
    ensures interval > 0.0 ==> -interval / 2.0 < GridPoint(start, interval, v) - v <= interval / 2.0
  {
    if interval > 0.0 {
      var q := (v - start) / interval;
      var f := (q + 0.5).Floor as real;
      assert f <= q + 0.5 < f + 1.0;
      DivideThenScale(v - start, interval);
      NearFromFloor(start, interval, v, q, f);
    }
  }

  lemma DivideThenScale(x: real, k: real)
    requires k > 0.0
    ensures k * (x / k) == x
  {
  }

  /** With `interval * q == v - start` and `f` the floor of `q + 0.5`, the grid point `start + interval * f` is within half a step of `v`. */
  lemma NearFromFloor(start: real, interval: real, v: real, q: real, f: real)
    requires interval > 0.0 && interval * q == v - start
    requires f <= q + 0.5 < f + 1.0
    ensures -interval / 2.0 < start + interval * f - v <= interval / 2.0
  {
    var d := f - q;
    assert -0.5 < d <= 0.5;
    assert start + interval * f - v == interval * d by {
      assert interval * f == interval * d + interval * q;
    }
    ScaleBetween(interval, d);
  }

  lemma ScaleBetween(k: real, d: real)
    requires k > 0.0 && -0.5 < d <= 0.5
    ensures -k / 2.0 < k * d <= k / 2.0
  {
  }

  /** The same slider holding the value it takes when asked for `v`. */
  function SetValue(s: Slider, v: real): Slider
  {
    s.(value := SnapToLegalValue(s, v))
  }

  /** A slider with range [lo, hi] and step `step` whose value lies in its range. */
  predicate SliderOver(s: Slider, lo: real, hi: real, step: real)
  {
    s.minimum == lo && s.maximum == hi && s.interval == step && lo <= s.value <= hi
  }

  /**
   * The invariant of band `i`'s controls: the band index, the three slider
   * ranges, a gain slider exactly for the peak bands, and freq, Q and (for a
   * peak) gain within the ranges the controls allow.
   */
  predicate WellFormedNode(i: int, n: EqNode)
  {
    && n.bandIndex == i
    && SliderOver(n.freqSlider, MinFreq, MaxFreq, 1.0)
    && SliderOver(n.qSlider, MinQ, MaxQ, 0.1)
    && (n.gainSlider.Some? <==> IsPeakIndex(i))
    && (n.gainSlider.Some? ==> SliderOver(n.gainSlider.value, MinDb, MaxDb, 0.1))
    && MinFreq <= n.freq <= MaxFreq
    && MinQ <= n.q <= MaxQ
    && (IsPeakIndex(i) ==> MinDb <= n.gain <= MaxDb)
  }

  /** A node before configuration: default sliders at the origin; only `gain` survives configuration. */
  function BlankNode(unsetGain: real): EqNode
  {
    EqNode(0, 0.0, unsetGain, 0.0, Point(0.0, 0.0), Slider(0.0, 10.0, 0.0, 0.0), None, Slider(0.0, 10.0, 0.0, 0.0))
  }

  /**
   * Band `i`'s node after configuration: each slider gets its range and step and
   * is asked for the band's default; freq, Q and (for a peak) gain are read back
   * from the sliders. A pass band's gain and every position are left as they were.
   */
  function ConfiguredNode(i: int, prior: EqNode): (n: EqNode)
    requires 0 <= i < NumBands
    ensures WellFormedNode(i, n)
    ensures n.position == prior.position
    ensures !IsPeakIndex(i) ==> n.gain == prior.gain
  {
    var freqSlider := SetValue(prior.freqSlider.(minimum := MinFreq, maximum := MaxFreq, interval := 1.0), DefaultFrequencies[i]);
    var qSlider := SetValue(prior.qSlider.(minimum := MinQ, maximum := MaxQ, interval := 0.1), DefaultQs[i]);
    var gainSlider := if IsPeakIndex(i) then Some(SetValue(Slider(MinDb, MaxDb, 0.1, 0.0), DefaultGain)) else None;
    var gain := if IsPeakIndex(i) then gainSlider.value.value else prior.gain;
    EqNode(i, freqSlider.value, gain, qSlider.value, prior.position, freqSlider, gainSlider, qSlider)
  }

  /**
   * The configured values are the defaults, except that the 0.707 default Q of
   * the two pass bands lands on the slider's 0.1 grid as 0.7.
   */
  lemma ConfiguredDefaults(i: int, prior: EqNode)
    requires 0 <= i < NumBands
    ensures ConfiguredNode(i, prior).freq == DefaultFrequencies[i]
    ensures ConfiguredNode(i, prior).q == (if IsPeakIndex(i) then DefaultQs[i] else 0.7)
    ensures IsPeakIndex(i) ==> ConfiguredNode(i, prior).gain == DefaultGain
  {
    var f := DefaultFrequencies[i];
    assert (f - MinFreq) / 1.0 + 0.5 == (f - MinFreq) + 0.5;
    assert ((f - MinFreq) + 0.5).Floor as real == f - MinFreq;
    if IsPeakIndex(i) {
      assert (DefaultQs[i] - MinQ) / 0.1 + 0.5 == 9.5;
      assert (9.5).Floor == 9;
      assert (DefaultGain - MinDb) / 0.1 + 0.5 == 180.5;
      assert (180.5).Floor == 180;
    } else {
      assert (DefaultQs[i] - MinQ) / 0.1 + 0.5 == 6.57;
      assert (6.57).Floor == 6;
    }
  }

  /** The gain a slider change sends: the gain slider's value for a peak band, 0 for a pass band. */
  function SliderGain(bandIndex: int, n: EqNode): (g: real)
    ensures !IsPeakIndex(bandIndex) ==> g == 0.0
    ensures WellFormedNode(bandIndex, n) && IsPeakIndex(bandIndex) ==> g == n.gainSlider.value.value && MinDb <= g <= MaxDb
  {
    if IsPeakIndex(bandIndex) && n.gainSlider.Some? then n.gainSlider.value.value else 0.0
  }

  /** `a` lies strictly within `radius` of `b` (compared through squared distances). */
  predicate Within(a: Point, b: Point, radius: real)
  {
    (a.x - b.x) * (a.x - b.x) + (a.y - b.y) * (a.y - b.y) < radius * radius
  }

  /** The lowest index at or after `from` whose centre is within `radius` of `p`, or -1. */
  function FirstHitFrom(centres: seq<Point>, p: Point, radius: real, from: nat): (k: int)
    requires from <= |centres|
    ensures k == -1 || from <= k < |centres|
    ensures k >= 0 ==> Within(centres[k], p, radius)
    ensures forall j :: from <= j < |centres| && (k == -1 || j < k) ==> !Within(centres[j], p, radius)
    decreases |centres| - from
  {
    if from == |centres| then -1
    else if Within(centres[from], p, radius) then from
    else FirstHitFrom(centres, p, radius, from + 1)
  }

  /** The lowest index whose centre is within `radius` of `p`, or -1 when none is. */
  function FirstHit(centres: seq<Point>, p: Point, radius: real): (k: int)
    ensures -1 <= k < |centres|
    ensures k >= 0 ==> Within(centres[k], p, radius)
    ensures forall j :: 0 <= j < |centres| && (k == -1 || j < k) ==> !Within(centres[j], p, radius)
  {
    FirstHitFrom(centres, p, radius, 0)
  }

  /** The hit test's answer is fixed by its ensures: any index meeting them is the one it returns. */
  lemma FirstHitIsUnique(centres: seq<Point>, p: Point, radius: real, k: int)
    requires -1 <= k < |centres|
    requires k >= 0 ==> Within(centres[k], p, radius)
    requires forall j :: 0 <= j < |centres| && (k == -1 || j < k) ==> !Within(centres[j], p, radius)
    ensures FirstHit(centres, p, radius) == k
  {
  }

  /**
   * Centre of band `i`'s label circle in the slider area: the middle of its
   * column (columns are a sixth of the width, in whole pixels) on the area's top edge.
   */
  function LabelCentre(area: Rect, i: int): (c: Point)
    ensures c.y == area.y as real
    ensures 0 <= i < NumBands ==> area.x as real <= c.x
    ensures 0 <= i < NumBands && area.width > 0 ==> c.x < (area.x + area.width) as real
  {
    var bandWidth := area.width / NumBands;
    ColumnMiddleInside(area.width, bandWidth, i);
    Point((area.x + i * bandWidth + bandWidth / 2) as real, area.y as real)
  }

  /** The middle of column `i` of six whole-pixel columns lies inside the width. */
  lemma ColumnMiddleInside(width: nat, bandWidth: int, i: int)
    requires bandWidth == width / NumBands
    ensures 0 <= i < NumBands ==> 0 <= i * bandWidth + bandWidth / 2
    ensures 0 <= i < NumBands && width > 0 ==> i * bandWidth + bandWidth / 2 < width
  {
    if 0 <= i < NumBands {
      assert 0 <= i * bandWidth <= 5 * bandWidth;
      assert 6 * bandWidth <= width;
    }
  }

  /** The six label centres: on one horizontal line, one column width apart, left to right. */
  function LabelCentres(area: Rect): (cs: seq<Point>)
    ensures |cs| == NumBands
    ensures forall i :: 0 <= i < NumBands ==> cs[i] == LabelCentre(area, i)
    ensures forall i :: 0 <= i < NumBands ==> cs[i].y == area.y as real
    ensures forall i :: 0 < i < NumBands ==> cs[i].x - cs[i - 1].x == (area.width / NumBands) as real
  {
    LabelsEvenlySpaced(area);
    seq(NumBands, i => LabelCentre(area, i))
  }

  lemma LabelsEvenlySpaced(area: Rect)
    ensures forall i :: 0 < i < NumBands ==> LabelCentre(area, i).x - LabelCentre(area, i - 1).x == (area.width / NumBands) as real
  {
    forall i | 0 < i < NumBands
      ensures LabelCentre(area, i).x - LabelCentre(area, i - 1).x == (area.width / NumBands) as real
    {
      var bandWidth := area.width / NumBands;
      NextColumn(i, bandWidth);
    }
  }

  lemma NextColumn(i: int, bandWidth: int)
    ensures i * bandWidth == (i - 1) * bandWidth + bandWidth
  {
  }
}
