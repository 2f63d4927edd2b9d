/**
 * The editor's control state: six band nodes, which node is under the mouse,
 * which is being dragged, which band's slider label is hovered, and the
 * handlers that keep nodes, sliders and the engine in step.
 */
module EqEditor {
  import opened Wrappers
  import opened Constants
  import opened Bands
  import opened Coefficients
  import opened EqEngine
  import opened EqControls

  /** The radius within which a pointer picks up a node. */
  const NodeRadius: real := 10.0
  /** The radius of a band's label circle in the slider area. */
  const LabelRadius: real := 18.0

  class EqUi {
    const eq: EqProcessor
    const nodes: array<EqNode>
    var nodeUnderMouse: int
    var nodeBeingDragged: int
    var hoveredSliderBand: int

    ghost predicate Valid()
      reads this, nodes
    {
      && eq.Valid() && eq.Populated()
      && nodes !in eq.Repr && this !in eq.Repr
      && nodes.Length == NumBands
      && (forall i :: 0 <= i < NumBands ==> WellFormedNode(i, nodes[i]))
      && -1 <= nodeUnderMouse < NumBands
      && -1 <= nodeBeingDragged < NumBands
      && -1 <= hoveredSliderBand < NumBands
    }

    /** The node positions, in band order. */
    function Positions(): (ps: seq<Point>)
      reads nodes
      ensures |ps| == nodes.Length
      ensures forall i :: 0 <= i < nodes.Length ==> ps[i] == nodes[i].position
    {
      seq(nodes.Length, i requires 0 <= i < nodes.Length reads nodes => nodes[i].position)
    }

    /**
     * Build the editor for an engine: every node configured from the band
     * defaults, nothing hovered or dragged. `unsetGain` is the gain a pass-band
     * node holds before anything assigns it.
     */
    constructor (processor: EqProcessor, unsetGain: real)
      requires processor.Valid() && processor.Populated()
      ensures Valid() && eq == processor && fresh(nodes)
      ensures forall i :: 0 <= i < NumBands ==> nodes[i] == ConfiguredNode(i, BlankNode(unsetGain))
      ensures nodeUnderMouse == -1 && nodeBeingDragged == -1 && hoveredSliderBand == -1
    {
      eq := processor;
      nodes := new EqNode[NumBands](_ => BlankNode(unsetGain));
      nodeUnderMouse, nodeBeingDragged, hoveredSliderBand := -1, -1, -1;
      new;
      ConfigureEq();
    }

    /** Configure each band's node in turn. */
    method ConfigureEq()
      requires nodes.Length == NumBands
      modifies nodes
      ensures forall i :: 0 <= i < NumBands ==> nodes[i] == ConfiguredNode(i, old(nodes[i]))
    {
      for i := 0 to NumBands
        invariant forall j :: 0 <= j < i ==> nodes[j] == ConfiguredNode(j, old(nodes[j]))
        invariant forall j :: i <= j < NumBands ==> nodes[j] == old(nodes[j])
      {
        nodes[i] := ConfiguredNode(i, nodes[i]);
      }
    }

    /** The band whose response area is highlighted: dragged node, else node under the mouse, else hovered label. */
    function FocusedBand(): (b: int)
      reads this
      ensures nodeBeingDragged >= 0 ==> b == nodeBeingDragged
      ensures nodeBeingDragged < 0 && nodeUnderMouse >= 0 ==> b == nodeUnderMouse
      ensures nodeBeingDragged < 0 && nodeUnderMouse < 0 ==> b == hoveredSliderBand
    {
      if nodeBeingDragged >= 0 then nodeBeingDragged
      else if nodeUnderMouse >= 0 then nodeUnderMouse
      else hoveredSliderBand
    }

    /** The focused band is either none or a valid band, so the highlight's colour lookup is in range. */
    lemma FocusedBandIsNoneOrABand()
      requires Valid()
      ensures FocusedBand() == -1 || 0 <= FocusedBand() < NumBands
      ensures FocusedBand() == -1 <==> nodeBeingDragged == -1 && nodeUnderMouse == -1 && hoveredSliderBand == -1
    {
    }

    /** A band slider's hover callback: entering marks its band hovered, leaving clears the mark. */
    method SliderHoverChanged(bandIndex: int, isHovered: bool)
      requires Valid() && 0 <= bandIndex < NumBands
      modifies this
      ensures Valid()
      ensures hoveredSliderBand == (if isHovered then bandIndex else -1)
      ensures nodeUnderMouse == old(nodeUnderMouse) && nodeBeingDragged == old(nodeBeingDragged)
    {
      hoveredSliderBand := if isHovered then bandIndex else -1;
    }

    /**
     * A band's slider moved: read freq and Q back from their sliders, take the
     * gain from the gain slider for a peak band and 0 for a pass band, and send
     * all four to the engine.
     */
    method HandleSliderChange(bandIndex: int)
      requires Valid() && 0 <= bandIndex < NumBands
      modifies nodes, eq.Repr
      ensures Valid()
      ensures var n := old(nodes[bandIndex]);
              nodes[bandIndex] == n.(freq := n.freqSlider.value, q := n.qSlider.value, gain := SliderGain(bandIndex, n))
      ensures forall i :: 0 <= i < NumBands && i != bandIndex ==> nodes[i] == old(nodes[i])
      ensures var n := nodes[bandIndex];
              var d := BandDesign(bandIndex, eq.sampleRate, n.freq, n.gain, n.q);
              eq.left.StageCoefficients() == old(eq.left.StageCoefficients())[bandIndex := d] && eq.right.StageCoefficients() == old(eq.right.StageCoefficients())[bandIndex := d]
      ensures eq.sampleRate == old(eq.sampleRate) && eq.left.history == old(eq.left.history) && eq.right.history == old(eq.right.history)
    {
      var c := nodes[bandIndex];
      c := c.(freq := c.freqSlider.value);
      c := c.(q := c.qSlider.value);
      c := c.(gain := if IsPeakIndex(bandIndex) then c.gainSlider.value.value else 0.0);
      nodes[bandIndex] := c;
      eq.UpdateBandParameters(bandIndex, c.freq, c.gain, c.q);
    }

    /**
     * The user moves one of band `bandIndex`'s sliders towards `v`: the slider
     * takes the snapped value and, if that changed it, the change handler runs.
     * A pass band has no gain slider to move.
     */
    method MoveSlider(bandIndex: int, kind: SliderKind, v: real)
      requires Valid() && 0 <= bandIndex < NumBands
      modifies nodes, eq.Repr
      ensures Valid()
      ensures forall i :: 0 <= i < NumBands && i != bandIndex ==> nodes[i] == old(nodes[i])
      ensures kind.GainBar? && !IsPeakIndex(bandIndex) ==> nodes[bandIndex] == old(nodes[bandIndex])
      ensures kind.FrequencyKnob? ==> nodes[bandIndex].freqSlider == SetValue(old(nodes[bandIndex].freqSlider), v)
      ensures kind.QualityKnob? ==> nodes[bandIndex].qSlider == SetValue(old(nodes[bandIndex].qSlider), v)
      ensures kind.GainBar? && IsPeakIndex(bandIndex) ==>
                nodes[bandIndex].gainSlider == Some(SetValue(old(nodes[bandIndex].gainSlider.value), v))
      ensures nodes[bandIndex] != old(nodes[bandIndex]) ==>
                var n := nodes[bandIndex];
                && n.freq == n.freqSlider.value && n.q == n.qSlider.value && n.gain == SliderGain(bandIndex, n)
                && var d := BandDesign(bandIndex, eq.sampleRate, n.freq, n.gain, n.q);
                   eq.left.StageCoefficients() == old(eq.left.StageCoefficients())[bandIndex := d] && eq.right.StageCoefficients() == old(eq.right.StageCoefficients())[bandIndex := d]
      ensures nodes[bandIndex] == old(nodes[bandIndex]) ==> eq.left.StageCoefficients() == old(eq.left.StageCoefficients()) && eq.right.StageCoefficients() == old(eq.right.StageCoefficients())
      ensures var n := old(nodes[bandIndex]);
              var m := (match kind
                        case FrequencyKnob => n.(freqSlider := SetValue(n.freqSlider, v))
                        case QualityKnob => n.(qSlider := SetValue(n.qSlider, v))
                        case GainBar => if n.gainSlider.Some? then n.(gainSlider := Some(SetValue(n.gainSlider.value, v))) else n);
              nodes[bandIndex] == if m == n then n else m.(freq := m.freqSlider.value, q := m.qSlider.value, gain := SliderGain(bandIndex, m))
      ensures eq.sampleRate == old(eq.sampleRate) && eq.left.history == old(eq.left.history) && eq.right.history == old(eq.right.history)
    {
      var c := nodes[bandIndex];
      var before := c;
      match kind {
        case FrequencyKnob =>
          c := c.(freqSlider := SetValue(c.freqSlider, v));
        case QualityKnob =>
          c := c.(qSlider := SetValue(c.qSlider, v));
        case GainBar =>
          if c.gainSlider.Some? {
            c := c.(gainSlider := Some(SetValue(c.gainSlider.value, v)));
          }
      }
      if c != before {
        nodes[bandIndex] := c;
        HandleSliderChange(bandIndex);
      }
    }

    /**
     * A node was moved with the mouse: send its values to the engine, then set
     * its sliders to them without notification (the gain slider only for a peak band).
     */
    method HandleNodeChange(bandIndex: int)
      requires Valid() && 0 <= bandIndex < NumBands
      modifies nodes, eq.Repr
      ensures Valid()
      ensures var n := old(nodes[bandIndex]);
              nodes[bandIndex] == n.(freqSlider := SetValue(n.freqSlider, n.freq),
                                     qSlider := SetValue(n.qSlider, n.q),
                                     gainSlider := if IsPeakIndex(bandIndex) then Some(SetValue(n.gainSlider.value, n.gain)) else n.gainSlider)
      ensures forall i :: 0 <= i < NumBands && i != bandIndex ==> nodes[i] == old(nodes[i])
      ensures var n := nodes[bandIndex];
              var d := BandDesign(bandIndex, eq.sampleRate, n.freq, n.gain, n.q);
              eq.left.StageCoefficients() == old(eq.left.StageCoefficients())[bandIndex := d] && eq.right.StageCoefficients() == old(eq.right.StageCoefficients())[bandIndex := d]
      ensures eq.sampleRate == old(eq.sampleRate) && eq.left.history == old(eq.left.history) && eq.right.history == old(eq.right.history)
    {
      var c := nodes[bandIndex];
      eq.UpdateBandParameters(c.bandIndex, c.freq, c.gain, c.q);
      c := c.(freqSlider := SetValue(c.freqSlider, c.freq));
      c := c.(qSlider := SetValue(c.qSlider, c.q));
      if IsPeakIndex(c.bandIndex) {
        c := c.(gainSlider := Some(SetValue(c.gainSlider.value, c.gain)));
      }
      nodes[bandIndex] := c;
    }

    /** A press picks up the lowest-numbered node within reach; a press that hits none leaves the dragged node as it was. */
    method MouseDown(p: Point)
      requires Valid()
      modifies this
      ensures Valid()
      ensures var hit := FirstHit(Positions(), p, NodeRadius);
              nodeBeingDragged == (if hit >= 0 then hit else old(nodeBeingDragged))
      ensures nodeUnderMouse == old(nodeUnderMouse) && hoveredSliderBand == old(hoveredSliderBand)
    {
      var i := 0;
      while i < nodes.Length
        invariant 0 <= i <= nodes.Length
        invariant forall j :: 0 <= j < i ==> !Within(nodes[j].position, p, NodeRadius)
        invariant nodeBeingDragged == old(nodeBeingDragged)
      {
        if Within(nodes[i].position, p, NodeRadius) {
          nodeBeingDragged := i;
          FirstHitIsUnique(Positions(), p, NodeRadius, i);
          return;
        }
        i := i + 1;
      }
      FirstHitIsUnique(Positions(), p, NodeRadius, -1);
    }

    /** Releasing the mouse always drops the dragged node. */
    method MouseUp()
      requires Valid()
      modifies this
      ensures Valid()
      ensures nodeBeingDragged == -1
      ensures nodeUnderMouse == old(nodeUnderMouse) && hoveredSliderBand == old(hoveredSliderBand)
    {
      nodeBeingDragged := -1;
    }

    /** Index of the first of `centres` within `radius` of `p`, or -1. */
    static method FindHit(centres: seq<Point>, p: Point, radius: real) returns (k: int)
      ensures k == FirstHit(centres, p, radius)
    {
      k := 0;
      while k < |centres|
        invariant 0 <= k <= |centres|
        invariant forall j :: 0 <= j < k ==> !Within(centres[j], p, radius)
      {
        if Within(centres[k], p, radius) {
          FirstHitIsUnique(centres, p, radius, k);
          return;
        }
        k := k + 1;
      }
      k := -1;
      FirstHitIsUnique(centres, p, radius, -1);
    }

    /**
     * Pointer moved over the editor: the node under it is the lowest-numbered
     * node within reach, or none; the hovered band is the lowest-numbered label
     * circle of `sliderArea` containing the pointer, or none.
     */
    method MouseMove(p: Point, sliderArea: Rect)
      requires Valid()
      modifies this
      ensures Valid()
      ensures nodeUnderMouse == FirstHit(Positions(), p, NodeRadius)
      ensures hoveredSliderBand == FirstHit(LabelCentres(sliderArea), p, LabelRadius)
      ensures nodeBeingDragged == old(nodeBeingDragged)
    {
      nodeUnderMouse := -1;
      nodeUnderMouse := FindHit(Positions(), p, NodeRadius);
      hoveredSliderBand := FindHit(LabelCentres(sliderArea), p, LabelRadius);
    }

    /**
     * Dragging moves the dragged node: its freq follows the pointer within the
     * frequency range, and for a peak band its gain follows within the gain range;
     * then the node change is sent on. With no node dragged nothing happens.
     * `freqAtPointer` and `gainAtPointer` are the graph's readings at the pointer.
     */
    method MouseDrag(freqAtPointer: real, gainAtPointer: real)
      requires Valid()
      modifies nodes, eq.Repr
      ensures Valid()
      ensures eq.sampleRate == old(eq.sampleRate) && eq.left.history == old(eq.left.history) && eq.right.history == old(eq.right.history)
      ensures nodeBeingDragged < 0 ==> nodes[..] == old(nodes[..]) && eq.left.StageCoefficients() == old(eq.left.StageCoefficients()) && eq.right.StageCoefficients() == old(eq.right.StageCoefficients())
      ensures nodeBeingDragged >= 0 ==>
                var b := nodeBeingDragged;
                && nodes[b].freq == Clamp(MinFreq, MaxFreq, freqAtPointer)
                && nodes[b].gain == (if IsPeakIndex(b) then Clamp(MinDb, MaxDb, gainAtPointer) else old(nodes[b].gain))
                && nodes[b].q == old(nodes[b].q)
                && (var n := old(nodes[b]);
                    nodes[b] == n.(freq := nodes[b].freq, gain := nodes[b].gain,
                                  freqSlider := SetValue(n.freqSlider, nodes[b].freq),
                                  qSlider := SetValue(n.qSlider, n.q),
                                  gainSlider := if IsPeakIndex(b) then Some(SetValue(n.gainSlider.value, nodes[b].gain)) else n.gainSlider))
                && (forall i :: 0 <= i < NumBands && i != b ==> nodes[i] == old(nodes[i]))
                && var d := BandDesign(b, eq.sampleRate, nodes[b].freq, nodes[b].gain, nodes[b].q);
                   eq.left.StageCoefficients() == old(eq.left.StageCoefficients())[b := d] && eq.right.StageCoefficients() == old(eq.right.StageCoefficients())[b := d]
    {
      if nodeBeingDragged < 0 || nodeBeingDragged >= nodes.Length {
        return;
      }
      var node := nodes[nodeBeingDragged];
      node := node.(freq := Clamp(MinFreq, MaxFreq, freqAtPointer));
      if IsPeakIndex(node.bandIndex) {
        node := node.(gain := Clamp(MinDb, MaxDb, gainAtPointer));
      }
      nodes[nodeBeingDragged] := node;
      HandleNodeChange(node.bandIndex);
    }

    /**
     * A wheel turn over a node changes its Q by `deltaY`, kept within the Q range,
     * and sends the node change on; with no node under the mouse nothing happens.
     */
    method MouseWheelMove(deltaY: real)
      requires Valid()
      modifies nodes, eq.Repr
      ensures Valid()
      ensures eq.sampleRate == old(eq.sampleRate) && eq.left.history == old(eq.left.history) && eq.right.history == old(eq.right.history)
      ensures nodeUnderMouse < 0 ==> nodes[..] == old(nodes[..]) && eq.left.StageCoefficients() == old(eq.left.StageCoefficients()) && eq.right.StageCoefficients() == old(eq.right.StageCoefficients())
      ensures nodeUnderMouse >= 0 ==>
                var b := nodeUnderMouse;
                && nodes[b].q == Clamp(MinQ, MaxQ, old(nodes[b].q) + deltaY)
                && nodes[b].freq == old(nodes[b].freq) && nodes[b].gain == old(nodes[b].gain)
                && (var n := old(nodes[b]);
                    nodes[b] == n.(q := nodes[b].q,
                                  freqSlider := SetValue(n.freqSlider, n.freq),
                                  qSlider := SetValue(n.qSlider, nodes[b].q),
                                  gainSlider := if IsPeakIndex(b) then Some(SetValue(n.gainSlider.value, n.gain)) else n.gainSlider))
                && (forall i :: 0 <= i < NumBands && i != b ==> nodes[i] == old(nodes[i]))
                && var d := BandDesign(b, eq.sampleRate, nodes[b].freq, nodes[b].gain, nodes[b].q);
                   eq.left.StageCoefficients() == old(eq.left.StageCoefficients())[b := d] && eq.right.StageCoefficients() == old(eq.right.StageCoefficients())[b := d]
    {
      if nodeUnderMouse >= 0 {
        var node := nodes[nodeUnderMouse];
        node := node.(q := Clamp(MinQ, MaxQ, node.q + deltaY));
        nodes[nodeUnderMouse] := node;
        HandleNodeChange(node.bandIndex);
      }
    }

    /**
     * Deliver the slider-change notifications that configuration left pending:
     * configuring moved every band's sliders to their defaults, so once the
     * handlers are wired each band's change handler runs, in band order. Every
     * node reads its values back from its sliders (a pass band's gain becoming 0),
     * and the engine receives all six band designs.
     */
    method DeliverDeferredSliderChanges()
      requires Valid()
      modifies nodes, eq.Repr
      ensures Valid()
      ensures forall i :: 0 <= i < NumBands ==>
                var n := old(nodes[i]);
                nodes[i] == n.(freq := n.freqSlider.value, q := n.qSlider.value, gain := SliderGain(i, n))
      ensures forall i :: 0 <= i < NumBands ==>
                var d := BandDesign(i, eq.sampleRate, nodes[i].freq, nodes[i].gain, nodes[i].q);
                eq.left.StageCoefficients()[i] == d && eq.right.StageCoefficients()[i] == d
      ensures eq.sampleRate == old(eq.sampleRate) && eq.left.history == old(eq.left.history) && eq.right.history == old(eq.right.history)
    {
      for b := 0 to NumBands
        invariant Valid()
        invariant forall i :: 0 <= i < b ==>
                    var n := old(nodes[i]);
                    nodes[i] == n.(freq := n.freqSlider.value, q := n.qSlider.value, gain := SliderGain(i, n))
        invariant forall i :: b <= i < NumBands ==> nodes[i] == old(nodes[i])
        invariant forall i :: 0 <= i < b ==>
                    var d := BandDesign(i, eq.sampleRate, nodes[i].freq, nodes[i].gain, nodes[i].q);
                    eq.left.StageCoefficients()[i] == d && eq.right.StageCoefficients()[i] == d
        invariant eq.sampleRate == old(eq.sampleRate) && eq.left.history == old(eq.left.history) && eq.right.history == old(eq.right.history)
      {
        HandleSliderChange(b);
      }
    }

    /**
     * Place every node at the graph point of its frequency and gain, as layout
     * and drawing do; `freqToX` and `gainToY` are the graph's coordinate maps.
     */
    method PlaceNodes(freqToX: real -> real, gainToY: real -> real)
      requires Valid()
      modifies nodes
      ensures Valid()
      ensures forall i :: 0 <= i < NumBands ==>
                nodes[i] == old(nodes[i]).(position := Point(freqToX(old(nodes[i]).freq), gainToY(old(nodes[i]).gain)))
    {
      for i := 0 to nodes.Length
        invariant Valid()
        invariant forall j :: 0 <= j < i ==>
                    nodes[j] == old(nodes[j]).(position := Point(freqToX(old(nodes[j]).freq), gainToY(old(nodes[j]).gain)))
        invariant forall j :: i <= j < NumBands ==> nodes[j] == old(nodes[j])
      {
        var n := nodes[i];
        nodes[i] := n.(position := Point(freqToX(n.freq), gainToY(n.gain)));
      }
    }
  }

  /**
   * Opening the editor on an engine: construction, then the pending slider
   * notifications. The engine ends up with every band designed from its
   * default frequency, with gain 0 for every band, and with Q 0.7 rather than
   * the 0.707 default for the two pass bands.
   */
  method OpenEditor(processor: EqProcessor, unsetGain: real) returns (ui: EqUi)
    requires processor.Valid() && processor.Populated()
    modifies processor.Repr
    ensures ui.Valid() && ui.eq == processor && fresh(ui.nodes)
    ensures ui.nodeUnderMouse == -1 && ui.nodeBeingDragged == -1 && ui.hoveredSliderBand == -1
    ensures processor.sampleRate == old(processor.sampleRate)
    ensures processor.left.history == old(processor.left.history) && processor.right.history == old(processor.right.history)
    ensures forall i :: 0 <= i < NumBands ==>
              var n := ConfiguredNode(i, BlankNode(unsetGain));
              ui.nodes[i] == n.(freq := n.freqSlider.value, q := n.qSlider.value, gain := SliderGain(i, n))
    ensures forall i :: 0 <= i < NumBands ==>
              ui.nodes[i].freq == DefaultFrequencies[i] && ui.nodes[i].q == (if IsPeakIndex(i) then DefaultQs[i] else 0.7)
    ensures forall i :: 0 <= i < NumBands ==> ui.nodes[i].gain == 0.0
    ensures forall i :: 0 <= i < NumBands ==>
              var d := BandDesign(i, processor.sampleRate, DefaultFrequencies[i], 0.0, if IsPeakIndex(i) then DefaultQs[i] else 0.7);
              processor.left.StageCoefficients()[i] == d && processor.right.StageCoefficients()[i] == d
  {
    ui := new EqUi(processor, unsetGain);
    forall i | 0 <= i < NumBands {
      ConfiguredDefaults(i, BlankNode(unsetGain));
    }
    ui.DeliverDeferredSliderChanges();
  }
}
