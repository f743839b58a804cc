/** The audio spectrum scope widget, reduced to the state that decides which
    part of the spectrum is shown. Its handlers change the fields step by step
    as the widget does; each is proved to give the view that module ViewRange
    or SpectrumConfig prescribes. */
module Scope {
  import opened ViewRange
  import opened SpectrumConfig

  class AudioSpectrum {
    var dBmin: int
    var dBmax: int
    var freqMax: int
    var customFreq: bool

    /** The fields as one value. */
    function View(): (v: ScopeView)
      reads this
    {
      ScopeView(dBmin, dBmax, freqMax, customFreq)
    }

    /** A scope whose view range is read from its configuration group. */
    constructor (group: ConfigGroup)
      ensures View() == ReadView(group)
      ensures View().FreqStorable()
    {
      new;
      ReadConfig(group);
    }

    /** Reads the dB window and the maximum frequency; a stored 0 means the
        frequency follows the sampling rate and shows the default until then. */
    method ReadConfig(group: ConfigGroup)
      modifies this
      ensures View() == ReadView(group)
    {
      dBmax := ReadEntry(group, DbMaxKey, DefaultDbMax);
      dBmin := ReadEntry(group, DbMinKey, DefaultDbMin);
      freqMax := ReadEntry(group, FreqMaxKey, AutomaticFreq);
      if freqMax == AutomaticFreq {
        customFreq := false;
        freqMax := DefaultFreqMax;
      } else {
        customFreq := true;
      }
    }

    /** The group with the dB window and the maximum frequency written into it;
        a frequency that follows the sampling rate is written as 0. */
    method WriteConfig(group: ConfigGroup) returns (saved: ConfigGroup)
      ensures saved == WriteView(View(), group)
      ensures View().FreqStorable() ==> ReadView(saved) == Reloaded(View())
    {
      saved := group[DbMaxKey := dBmax];
      saved := saved[DbMinKey := dBmin];
      if customFreq {
        saved := saved[FreqMaxKey := freqMax];
      } else {
        saved := saved[FreqMaxKey := AutomaticFreq];
      }
    }

    /** Analyses one frame: frames of more than MaxSkippedFrameSize samples
        update an automatic maximum frequency to half the sampling rate and are
        transformed with the returned FFT window size; shorter frames are
        skipped. */
    method RenderAudioScope(frameSize: nat, freq: int, numSamples: int, selectedWindow: int)
      returns (fftWindow: Option<int>)
      modifies this
      ensures View() == Rendered(old(View()), frameSize, freq)
      ensures fftWindow == if frameSize > MaxSkippedFrameSize then Some(FftWindow(selectedWindow, numSamples)) else None
    {
      if frameSize > MaxSkippedFrameSize {
        if !customFreq {
          freqMax := HalfTowardZero(freq);
        }
        var window := selectedWindow;
        if window > numSamples {
          window := numSamples;
        }
        // (window & 1) == 1 on a two's-complement int is exactly window % 2 == 1 with Euclidean %
        if window % 2 == 1 {
          window := window - 1;
        }
        fftWindow := Some(window);
      } else {
        fftWindow := None;
      }
    }

    /** Lets the maximum frequency follow the sampling rate again. */
    method SlotResetMaxFreq()
      modifies this
      ensures View() == MaxFreqReset(old(View()))
    {
      customFreq := false;
    }

    /** Rescales the view after a drag: a vertical drag moves the lower dB
        bound (the upper one with Shift), a horizontal drag the maximum
        frequency; other directions change nothing. */
    method HandleMouseDrag(movement: Point, direction: RescaleDirection, modifiers: bv32)
      modifies this
      ensures View() == Dragged(old(View()), movement, direction, modifiers)
    {
      if direction == North {
        if modifiers & ShiftModifier == 0 {
          dBmin := dBmin + movement.y;
        } else {
          dBmax := dBmax + movement.y;
        }
        if dBmax > MaxDbValue {
          dBmax := MaxDbValue;
        }
        if dBmin < MinDbValue {
          dBmin := MinDbValue;
        }
        if dBmax - dBmin < MinDbGap {
          if modifiers & ShiftModifier == 0 {
            dBmax := dBmin + MinDbGap;
            if dBmax > MaxDbValue {
              dBmax := MaxDbValue;
              dBmin := MaxDbValue - MinDbGap;
            }
          } else {
            dBmin := dBmax - MinDbGap;
            if dBmin < MinDbValue {
              dBmin := MinDbValue;
              dBmax := MinDbValue + MinDbGap;
            }
          }
        }
      } else if direction == East {
        freqMax := freqMax - FreqStep * movement.x;
        if freqMax < MinFreqValue {
          freqMax := MinFreqValue;
        }
        if freqMax > MaxFreqValue {
          freqMax := MaxFreqValue;
        }
        customFreq := true;
      }
    }
  }
}
