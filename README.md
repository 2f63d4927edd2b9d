# Six-band equaliser: band-table engine and editor control state

This project models the core of a JUCE stereo equaliser in Dafny.

The **engine** (`EqEngine.EqProcessor`) holds:
- two filter chains, left and right, of six stages each (high-pass, four peaks, low-pass);
- a sample rate that falls back to 44100 Hz until `prepare` records one.

Each stage points to its own reference-counted coefficient object. A band update:
- designs a new coefficient set for the band's role, from the stored sample rate;
- copies it into that stage of both chains;
- ignores an unknown band index.

The magnitude query multiplies the left chain's stage responses from 1, in chain order, and returns the absolute value.

The **editor** (`EqEditor.EqUi`) keeps six band nodes. Each node has:
- frequency, gain and Q;
- a position on the graph;
- a frequency slider and a Q slider, plus a gain slider for the peak bands only.

It also keeps three indices: the node under the mouse, the node being dragged, and the band whose slider label is hovered. Slider moves, node drags and wheel turns update the nodes, clamp or snap their values, and send the band's values to the engine.

Modules:
- `Constants`: band count, defaults and ranges.
- `Bands`: the band enumeration.
- `Coefficients`: symbolic coefficient sets, the band designer and the cascade product.
- `EqEngine`: the engine classes.
- `EqControls`: node values, slider snapping, clamping and hit tests.
- `EqEditor`: the editor class.

The filter designers and the per-stage magnitude belong to the DSP library. They are modelled as follows:
- A coefficient set is a symbolic term recording its designer and arguments (`MakeHighPass(sampleRate, freq, q)`, and so on).
- A stage's magnitude is a function parameter (`StageResponse`).
- The filtering of a block is a function parameter (`Renderer`). It is applied to the chain's history since the last `prepare`, its coefficients and the block.

Every property is therefore proved for any designer and any filter implementation.

## Model

| member | source | states |
|---|---|---|
| Constants.BandTablesHaveOneEntryPerBand | Source/Constants.h:19-34 | there are six bands, and the colour, default-frequency and default-Q tables each have one entry per band |
| Constants.BandColoursAreRgb | Source/Constants.h:22-29 | every band colour has 8-bit red, green and blue components |
| Constants.DefaultFrequenciesOrderedAndInRange | Source/Constants.h:32 | the default frequencies rise strictly and lie within [minFreq, maxFreq] |
| Constants.DefaultQsInRange | Source/Constants.h:34 | every default Q lies within [minQ, maxQ] |
| Constants.DefaultGainInRange | Source/Constants.h:33 | the default gain lies within [minDb, maxDb] |
| Constants.GraphLabelsSpanFrequencyRange | Source/Constants.h:37-47 | there are numFrequencyLabels graph labels; they rise strictly from minFreq to maxFreq |
| Constants.RangesNonEmpty | Source/Constants.h:46-55 | the frequency, gain and Q ranges are non-empty, so every clamp into them is well defined |
| Bands.Index | Source/EQProcessor.h:19-27 | each band has a value in 0..5; HighPass is exactly 0 and LowPass exactly 5 |
| Bands.BandOf | Source/EQProcessor.h:19-27 | an index names a band exactly when it lies in 0..5, and that band's value is the index |
| Bands.IndexIsConsecutive | Source/EQProcessor.h:19-27 | band values are distinct and consecutive; mapping a band to its value and back gives the band |
| Bands.PeakIndexMatchesRole | Source/EQUI.cpp:525 | the UI's test `Peak1 <= i <= Peak4` holds exactly for the indices of the peak bands |
| Coefficients.Design | Source/EQProcessor.cpp:40-86 | high-pass, peak and low-pass bands get high-pass, peaking and low-pass sets respectively, built from the given rate, frequency and Q; a peak also gets the decibel gain converted to linear |
| Coefficients.BandDesign | Source/EQProcessor.cpp:38-92 | an index in 0..5 gets the design for that band's role; any other index gets none |
| Coefficients.PassBandsIgnoreGain | Source/EQProcessor.cpp:40-86 | the high-pass and low-pass designs do not depend on the gain argument |
| Coefficients.Factor | Source/EQProcessor.cpp:101-106 | a stage holding no coefficient set contributes factor 1; a stage holding one contributes its response at the caller's frequency and rate |
| Coefficients.Abs | Source/EQProcessor.cpp:116 | the result is non-negative and equals the argument or its negation |
| Coefficients.ProductReplace | Source/EQProcessor.cpp:99-114 | replacing one factor of the running product scales the product by the ratio of the new factor to the old |
| Coefficients.CascadeReplace | Source/EQProcessor.cpp:36-116 | installing a set at one stage changes the chain's magnitude by exactly that stage's factor ratio; the other stages' contributions are untouched |
| Coefficients.EmptyStageIsUnity | Source/EQProcessor.cpp:104-105 | a stage holding no coefficients contributes nothing to the product |
| Coefficients.EmptyChainIsUnity | Source/EQProcessor.cpp:99 | a chain whose stages all hold no coefficients has magnitude 1 |
| Coefficients.CascadeMagnitudeIsProduct | Source/EQProcessor.cpp:99-116 | for non-negative stage magnitudes the product is non-negative, so taking its absolute value changes nothing |
| EqEngine.FilterChain.constructor | Source/EQProcessor.h:48 | a chain has six stages, each pointing to its own default coefficient set |
| EqEngine.FilterChain.Process | Source/EQProcessor.cpp:30-31 | the output is the filter applied to the block with the chain's current coefficients and memory, and for a length-preserving filter it has the block's length; the block joins the chain's memory |
| EqEngine.EqProcessor.constructor | Source/EQProcessor.h:51-54 | a new engine has two distinct chains holding equal default tables, and the 44100 Hz fallback rate |
| EqEngine.EqProcessor.GetSampleRate | Source/EQProcessor.h:33 | returns the stored rate, which UpdateBeforePrepare and UpdateAfterPrepare show is 44100 before any prepare and the prepared rate after one |
| EqEngine.EqProcessor.Prepare | Source/EQProcessor.cpp:15-22 | stores the spec's sample rate, resets both chains' memory, and leaves every coefficient set as it was |
| EqEngine.EqProcessor.Process | Source/EQProcessor.cpp:24-33 | channel 0 goes through the left chain and channel 1 through the right chain, in place, each keeping its length under a length-preserving filter; other channels and all coefficients are unchanged |
| EqEngine.EqProcessor.UpdateCoefficients | Source/EQProcessor.h:57 | the target object takes the replacement's contents; the replacement is unchanged and the pointer is not swapped |
| EqEngine.EqProcessor.UpdateBandParameters | Source/EQProcessor.cpp:36-92 | for an index in 0..5, the same designed set goes into that stage of both chains, and the other five stages of each chain are unchanged; any other index changes nothing; chains that agreed still agree; the rate is the stored one |
| EqEngine.EqProcessor.AccumulateMagnitude | Source/EQProcessor.cpp:101-106 | one step multiplies the running result by the stage's response, or leaves it unchanged when the stage holds no coefficient set |
| EqEngine.EqProcessor.GetMagnitudeForFrequency | Source/EQProcessor.cpp:97-116 | the result is the absolute value of the left chain's product of stage responses, in order from 1, at the caller's rate; when the chains agree it equals the right chain's; nothing is modified |
| EqEngine.UpdateBeforePrepare | Source/EQProcessor.h:54 | before any prepare, a band update designs for 44100 Hz, identically on both channels |
| EqEngine.UpdateAfterPrepare | Source/EQProcessor.h:33 | after prepare, updates design for the prepared rate, and getSampleRate reports that rate |
| EqControls.Clamp | Source/EQUI.cpp:653 | the value pulled into [lo, hi]: unchanged inside the range, the nearer end outside it |
| EqControls.SnapToLegalValue | Source/EQUI.cpp:504-510 | a slider's new value lies within its range and within half a step of the requested value clamped into that range |
| EqControls.ConfiguredNode | Source/EQUI.cpp:518-564 | a configured node has its band index, its sliders' ranges and steps, a gain slider exactly for a peak band, and freq, Q and (for a peak) gain in range; its position and a pass band's gain are untouched |
| EqControls.ConfiguredDefaults | Source/EQUI.cpp:527-550 | configuration reads back the default frequency and, for a peak, the default gain; Q is the default for the peaks but 0.7 for the pass bands, because the default 0.707 snaps to the 0.1 grid |
| EqControls.SliderGain | Source/EQUI.cpp:572-574 | the gain sent on a slider change is 0 for the pass bands and the gain slider's value, within [minDb, maxDb], for the peaks |
| EqControls.FirstHit | Source/EQUI.cpp:597-604 | returns -1 or the lowest index whose centre is within the radius; no earlier centre, and for -1 no centre at all, is within it |
| EqControls.FirstHitIsUnique | Source/EQUI.cpp:612-619 | any index meeting the lowest-hit conditions is the hit test's answer |
| EqControls.LabelCentre | Source/EQUI.cpp:629-631 | band i's label centre lies on the slider area's top edge and horizontally inside the area |
| EqControls.LabelCentres | Source/EQUI.cpp:625-631 | six label centres on the slider area's top edge, left to right, each one column width (a sixth of the width, in whole pixels) after the previous |
| EqEditor.EqUi.constructor | Source/EQUI.cpp:13-17 | every node is configured from the band defaults, nothing is hovered or dragged, and the editor holds the given engine |
| EqEditor.EqUi.ConfigureEq | Source/EQUI.cpp:518-564 | each of the six nodes becomes its configured form |
| EqEditor.EqUi.FocusedBand | Source/EQUI.cpp:212-214 | the dragged node if any, else the node under the mouse if any, else the hovered label's band |
| EqEditor.EqUi.FocusedBandIsNoneOrABand | Source/EQUI.cpp:217-223 | the focused band is -1 or a valid band index, and -1 exactly when nothing is dragged, under the mouse or hovered |
| EqEditor.EqUi.SliderHoverChanged | Source/EQUI.cpp:531-534 | entering a band's slider marks that band hovered; leaving clears the mark |
| EqEditor.EqUi.HandleSliderChange | Source/EQUI.cpp:566-577 | the node's freq and Q come from their sliders and its gain is the slider gain (0 for a pass band); the engine gets that band's design from those values at its stored rate; other nodes, the engine's rate and both chains' filter memory are unchanged |
| EqEditor.EqUi.MoveSlider | Source/EQUI.cpp:558-561 | only the moved slider takes the snapped value; if that changed it, the node reads its values back from its sliders and the engine gets the band's design, otherwise node and engine are unchanged; a pass band has no gain slider to move; the engine's rate and filter memory are kept |
| EqEditor.EqUi.HandleNodeChange | Source/EQUI.cpp:579-591 | the engine gets the node's design at its stored rate; the node's freq and Q sliders, and for a peak band its gain slider, are set to its values without notification; everything else about the node, the other nodes, the rate and the filter memory are unchanged |
| EqEditor.EqUi.MouseDown | Source/EQUI.cpp:595-605 | the dragged node becomes the lowest-numbered node within 10 px of the pointer; with no hit it is unchanged |
| EqEditor.EqUi.MouseUp | Source/EQUI.cpp:607 | the dragged node is reset to none |
| EqEditor.EqUi.FindHit | Source/EQUI.cpp:612-619 | the loop finds the hit test's answer |
| EqEditor.EqUi.MouseMove | Source/EQUI.cpp:609-644 | the node under the mouse is the lowest-numbered node within 10 px, or none; the hovered band is the lowest-numbered label circle of radius 18 containing the pointer, or none |
| EqEditor.EqUi.MouseDrag | Source/EQUI.cpp:646-660 | with no node dragged, nodes and engine tables are unchanged; otherwise freq is clamped into the frequency range, gain is clamped into the gain range only for a peak band, Q is kept, the sliders are re-synced to the new values and the engine gets the band's design; the rate and filter memory are kept either way |
| EqEditor.EqUi.MouseWheelMove | Source/EQUI.cpp:662-671 | with no node under the mouse, nodes and engine tables are unchanged; otherwise Q becomes the clamp of Q + deltaY into the Q range, freq and gain are kept, the sliders are re-synced and the engine gets the band's design; the rate and filter memory are kept either way |
| EqEditor.EqUi.PlaceNodes | Source/EQUI.cpp:44-50 | every node is moved to the graph point of its frequency and gain; nothing else about it changes |
| EqEditor.EqUi.DeliverDeferredSliderChanges | Source/EQUI.cpp:558-577 | the change handler runs for every band: each node reads freq, Q and gain back from its sliders (a pass band's gain becomes 0), and both chains hold all six band designs; the rate and filter memory are kept |
| EqEditor.OpenEditor | Source/EQUI.cpp:13-17 | the new editor has fresh nodes and nothing hovered or dragged; every node is its configured form read back from its sliders, so freq is the default frequency, Q the default (0.7 for the pass bands) and gain 0; the engine holds each band's design from those values; the engine's rate and filter memory are kept |

## Left out

- The DSP library's filter designers, filtering, per-stage magnitude and decibel conversion are not modelled. Coefficient sets are symbolic terms; filtering and magnitude are function parameters.
- Floating point is not modelled. Frequencies, gains, Q values and the sample rate are exact reals, so these are left out:
  - the float narrowing of the stored sample rate and of the returned magnitude;
  - the `f` suffixes of the constants.
- The magnitude query works with complex numbers; the model uses real products.
- JUCE's slider is not part of this model. Its value constraint is modelled as rounding to the nearest step counted from the minimum, then limiting to the range. A user's slider move notifies only when the value actually changes. The asynchronous notifications that configuration's own value changes leave pending are delivered by `DeliverDeferredSliderChanges`, once per band in band order. The library may deliver the frequency and Q notifications of a band separately, but they run the same handler on the same values. Skew, text boxes and styles are left out.
- The graph's coordinate maps (`freqToX`, `xToFreq`, `gainToY`, `yToGain`) and the layout of the slider area are parameters. Drawing, the 30 Hz repaint timer, colours' alpha and the response path are left out.
- The pointer-distance test compares squared distances (`dx² + dy² < r²`). For the positive radii used (10 and 18) this is the same as comparing the distance.
- EqEditor.EqUi.constructor: a pass band's node gain is not initialised by construction. The model takes it as the parameter `unsetGain`; it is set to 0 by the first slider change, which `OpenEditor` shows happening. The constructor's contract covers construction alone; the pending notifications are the separate step `DeliverDeferredSliderChanges`, and their interleaving with other events is not modelled. Node positions start at the origin.
- Source/MainComponent.cpp is not part of this model. This leaves out the initial band updates made when audio starts, and the host's calls to `process`.
- The header declares the band update as `updateEQ`, while the implementation file defines `updateBandParameters`; the UI calls `updateEQ`. The model follows the implementation: one operation, called by the UI.
- The header declares `getMagnitudeForFrequency` as a const member, while the implementation file marks it `static`. It still reads the left chain; the model follows that.
- Thread safety between the audio thread (`process`) and the UI thread (band updates) is not modelled. Each operation is atomic.
- The node's `isEnabled` flag and enable toggle, and the slider look-and-feel objects, have no behaviour in the core and are left out.
- EqEngine.EqProcessor.Process: a buffer with fewer than two channels is excluded by its precondition. On a mono buffer the source still takes channel 1's block, which the audio library leaves undefined.
- EqEngine.FilterChain.Process: the output has the block's length only when the filter keeps lengths. The library's filtering does this; the model states it as the precondition `KeepsLength` on the filter parameter.
