# Audio spectrum scope: view range

This project models the view-range state of the audio spectrum scope of the
video editor. That state decides which part of the spectrum the scope shows.
It has four fields:

- `dBmin` and `dBmax`: the dB window on the vertical axis;
- `freqMax`: the highest frequency on the horizontal axis;
- `customFreq`: whether the user chose that frequency, or it follows the
  sampling rate.

The model covers every rule that changes these fields:

- rescaling by mouse drag (vertical drags move one dB bound, horizontal drags
  move the frequency);
- resetting the frequency to automatic;
- the automatic frequency and the FFT window size chosen when a frame is
  analysed;
- reading and writing the view range in the configuration group, where an
  automatic frequency is stored as 0.

The project has three modules:

- `ViewRange` (view_range.dfy): the constants and the `ScopeView` value. Each
  rule is a pure function in declarative form, with the guarantees the scope
  relies on as its contract. It also has `Run`, which applies a sequence of
  events, and induction lemmas saying what holds over a whole session.
- `SpectrumConfig` (spectrum_config.dfy): the encoding of the maximum
  frequency, and the read and write of a configuration group, modelled as a
  `map<string, int>`.
- `Scope` (audio_spectrum.dfy): the widget as a class with the four fields.
  Its handlers update the fields step by step, in the order the widget's code
  uses. Each handler's postcondition ties the new fields to the matching pure
  rule.

Main results:

- A vertical drag always leaves the window inside [-120, 0] with at least
  6 dB between the bounds. This holds from any starting state, and every later
  event keeps it (`DbDragEstablishesWindow`).
- The dragged bound keeps the value it was dragged to whenever the range
  allows it. The other bound keeps its value, clamped to the range, when the
  gap needs no repair; otherwise it moves to exactly 6 dB from the dragged one.
- A user-chosen frequency always lies in [1000, 96000] once the frequency has
  been dragged or reset. It is never 0, so writing the configuration and
  reading it back returns the same view, up to an automatic frequency, which
  comes back as the default 10000 (`SessionRoundTrip`).
- After a reset the frequency stays automatic until the next horizontal drag.
  Every analysed frame then sets it to half the sampling rate.

Integers are unbounded. The widget's `freq / 2` rounds toward zero, and the
model writes that rounding out (`HalfTowardZero`). The widget's odd-size test
`(fftWindow & 1) == 1` is modelled as `% 2 == 1`. Dafny's `%` is Euclidean,
so the two agree for negative numbers as well. A comment in the widget
first describes the dB range as [-100, 0] and then corrects itself to
[MIN_DB_VALUE, 0]; the code clamps to MIN_DB_VALUE, which is -120, and so
does the model.

## Model

| member | source | states |
|---|---|---|
| `ViewRange.DbDragged` | src/audioscopes/audiospectrum.cpp:371-413 | After a vertical drag the window lies in [-120, 0] with a gap of at least 6. Without Shift, the lower bound is the dragged value clamped at -120, unless that value is above -6; then the window becomes (-6, 0). With Shift, the upper bound is the dragged value clamped at 0, unless that value is below -114; then the window becomes (-120, -114). The bound that was not dragged keeps its value (clamped to the range) when the gap needs no repair, and otherwise moves to exactly 6 dB from the dragged one. A drag by 0 leaves a valid window unchanged. `freqMax` and `customFreq` are unchanged. |
| `ViewRange.FreqDragged` | src/audioscopes/audiospectrum.cpp:418-427 | After a horizontal drag the frequency is custom and lies in [1000, 96000]. It moves by exactly 100 Hz per pixel, against the drag direction, whenever the result stays in range; otherwise it is 1000 or 96000. The dB bounds are unchanged. |
| `ViewRange.Dragged` | src/audioscopes/audiospectrum.cpp:369-432 | A North drag gives a valid window and keeps the frequency fields. An East drag gives a custom in-range frequency and keeps the dB fields. Any other direction changes nothing. |
| `ViewRange.MaxFreqReset` | src/audioscopes/audiospectrum.cpp:359-362 | After the reset the frequency is automatic; nothing else changes. |
| `ViewRange.HalfTowardZero` | src/audioscopes/audiospectrum.cpp:133 | Integer halving that rounds toward zero: the remainder is in [0, 1] for non-negative input and in [-1, 0] for negative input. |
| `ViewRange.Rendered` | src/audioscopes/audiospectrum.cpp:131-134 | An analysed frame (more than 63 samples) sets an automatic frequency to half the sampling rate, rounded toward zero (`HalfTowardZero`) for every rate. A custom frequency, or a frame of 63 samples or fewer, leaves the frequency as it was. The dB bounds and the flag never change. |
| `ViewRange.FftWindow` | src/audioscopes/audiospectrum.cpp:139-148 | The FFT window is even, at most the selected size, at most the available samples, and at least their minimum minus 1. An even selected size is used whole when enough samples are available. |
| `ViewRange.Step` | src/audioscopes/audiospectrum.cpp:128-432 | Every handled event keeps a valid dB window, keeps a custom frequency nonzero, and keeps a custom frequency in range. A North drag establishes the window invariant. An East drag or a reset establishes the range invariant. Only an East drag can make the frequency custom. |
| `ViewRange.Run` | src/audioscopes/audiospectrum.cpp:128-432 | Over any sequence of handled events, a valid dB window stays valid, a custom frequency stays nonzero, and a custom frequency in range stays in range. |
| `ViewRange.DbDragEstablishesWindow` | src/audioscopes/audiospectrum.cpp:386-413 | Once a vertical drag has been handled, the window stays in [-120, 0] with a gap of at least 6 for the rest of the session. |
| `ViewRange.FreqEventEstablishesRange` | src/audioscopes/audiospectrum.cpp:418-427 | Once a horizontal drag or a reset has been handled, a custom frequency stays in [1000, 96000] for the rest of the session. |
| `ViewRange.ResetStaysAutomatic` | src/audioscopes/audiospectrum.cpp:131-134 | After a reset followed by events without a horizontal drag, the frequency is still automatic. Any analysed frame then sets it to half the sampling rate. |
| `SpectrumConfig.EncodeFreqMax` | src/audioscopes/audiospectrum.cpp:112-116 | The stored value is 0 exactly when the frequency is automatic (or a custom 0). Any other stored value is the frequency itself. |
| `SpectrumConfig.DecodeFreqMax` | src/audioscopes/audiospectrum.cpp:94-101 | Encoding the decoded setting gives back the stored value, for every integer. A custom setting is never 0. A stored 0 decodes to automatic with the default 10000. |
| `SpectrumConfig.FreqMaxRoundTrip` | src/audioscopes/audiospectrum.cpp:94-116 | For a setting whose custom frequency is nonzero, decoding what was encoded gives the custom setting back. For an automatic setting it gives (automatic, 10000). |
| `SpectrumConfig.ReadView` | src/audioscopes/audiospectrum.cpp:92-101 | The bounds are the stored entries, or the defaults 0 and -70. The frequency is custom exactly when a nonzero value is stored; it is then the stored value, otherwise the default 10000. A custom frequency read is never 0. |
| `SpectrumConfig.WriteView` | src/audioscopes/audiospectrum.cpp:110-116 | Reading the written group back gives the same view, with an automatic frequency replaced by the default. The stored frequency is 0 exactly for an automatic (or zero) frequency. Only the three keys are added or overwritten. |
| `SpectrumConfig.SessionRoundTrip` | src/audioscopes/audiospectrum.cpp:92-116 | Take any session: the view read from a configuration, then any events. Writing its view and reading it back returns the view, up to an automatic frequency. |
| `Scope.AudioSpectrum.constructor` | src/audioscopes/audiospectrum.cpp:83-101 | A new scope holds the view read from its configuration group, and its custom frequency is nonzero. |
| `Scope.AudioSpectrum.ReadConfig` | src/audioscopes/audiospectrum.cpp:83-102 | The fields become exactly the view `ReadView` gives for the group. |
| `Scope.AudioSpectrum.WriteConfig` | src/audioscopes/audiospectrum.cpp:103-119 | Returns exactly the group `WriteView` gives. Reading it back returns the scope's view, up to an automatic frequency. |
| `Scope.AudioSpectrum.RenderAudioScope` | src/audioscopes/audiospectrum.cpp:128-151 | The fields become `Rendered` of the old view. An analysed frame uses the window `FftWindow(selected, numSamples)`. A skipped frame uses no window. |
| `Scope.AudioSpectrum.SlotResetMaxFreq` | src/audioscopes/audiospectrum.cpp:359-364 | The fields become `MaxFreqReset` of the old view. |
| `Scope.AudioSpectrum.HandleMouseDrag` | src/audioscopes/audiospectrum.cpp:369-432 | The sequential clamps of the handler give exactly the declarative `Dragged` view, with the guarantees stated there. |

## Left out

- `interpolatePeakPreserving` (src/audioscopes/audiospectrum.cpp:435-494), the dB-to-pixel mapping of the spectrum drawing, and the HUD tick spacing: floating-point numerics.
- The FFT itself (`fftNormalized` and the kiss_fft library): library code that is not part of this model.
- The scope stores the last FFT in `m_lastFFT` under the `m_lastFFTLock` semaphore. That store and the locking are concurrency and are not modelled.
- All drawing (QImage, QPainter), the scope rectangle geometry, menu and action setup, the `forceUpdate*` calls and the emitted rendering signals: user interface.
- Reading and writing the configuration store itself is I/O. A configuration group is a `map<string, int>` passed in and returned.
- The window size and window function combo-box indices that `readConfig` and `writeConfig` also store are user-interface state. Rendering receives the selected window size as a parameter.
- The 32-bit width of the widget's integers is not modelled: fields are unbounded. A drag large enough to overflow `int` is out of scope. If `m_freqMax` is declared unsigned in audiospectrum.h (not part of this model), a large drag to the right wraps around and clamps to 96000 instead of 1000. The model states the [1000, 96000] bound, which holds either way, and it states the exact clamped value for the signed reading.
- `RescaleDirection` and `Qt::ShiftModifier` are declared outside the modelled file. The model uses the four directions North, Northeast, East and Southeast, and the mask 0x02000000. Its results only distinguish North, East and every other direction.
- The widget's constructor reads its configuration through the scope base class's initialisation, which is not part of this model. The model's constructor reads the group directly.
- tests/mixtest.cpp tests the timeline's clip, mix and undo engine, and src/project/transcodeseek.h declares a transcoding dialog. Neither implementation is part of this model.
