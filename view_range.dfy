/** The view range of the audio spectrum scope: the dB window shown on the
    vertical axis, the highest frequency shown on the horizontal axis, and
    whether that frequency was chosen by the user or follows the sampling
    rate. Every rule that changes the range is a pure function here; the
    widget class in module Scope is proved to follow them. */
module ViewRange {

  /** Lowest dB value the scale may show (MIN_DB_VALUE). */
  const MinDbValue: int := -120
  /** Highest dB value the scale may show. */
  const MaxDbValue: int := 0
  /** Smallest distance kept between the dB bounds. */
  const MinDbGap: int := 6
  /** Bounds for a user-chosen maximum frequency (MIN_FREQ_VALUE, MAX_FREQ_VALUE). */
  const MinFreqValue: int := 1000
  const MaxFreqValue: int := 96000
  /** Hz added to the maximum frequency per pixel dragged to the left. */
  const FreqStep: int := 100
  /** A frame with at most this many samples is not analysed. */
  const MaxSkippedFrameSize: nat := 63
  /** Qt::ShiftModifier in a Qt::KeyboardModifiers mask. */
  const ShiftModifier: bv32 := 0x0200_0000

  datatype Option<T> = None | Some(value: T)

  /** A mouse movement in pixels (QPoint). */
  datatype Point = Point(x: int, y: int)

  /** The direction a rescaling drag was recognised in. */
  datatype RescaleDirection = North | Northeast | East | Southeast

  /** The four fields m_dBmin, m_dBmax, m_freqMax and m_customFreq. */
  datatype ScopeView = ScopeView(dBmin: int, dBmax: int, freqMax: int, customFreq: bool)
  {
    /** The dB window lies in [MinDbValue, MaxDbValue] and spans at least MinDbGap. */
    predicate WindowOk() {
      MinDbValue <= dBmin && dBmax <= MaxDbValue && dBmax - dBmin >= MinDbGap
    }

    /** A custom frequency is never 0, so that 0 can stand for "automatic" in the configuration. */
    predicate FreqStorable() {
      customFreq ==> freqMax != 0
    }

    /** A custom frequency lies in [MinFreqValue, MaxFreqValue]. */
    predicate CustomFreqInRange() {
      customFreq ==> MinFreqValue <= freqMax <= MaxFreqValue
    }
  }

  function Min(a: int, b: int): (r: int) { if a <= b then a else b }
  function Max(a: int, b: int): (r: int) { if a <= b then b else a }

  /** Whether the Shift key is held in a modifier mask. */
  predicate ShiftHeld(modifiers: bv32) {
    modifiers & ShiftModifier != 0
  }

  /** The dB window after a vertical drag of dy pixels. Without Shift the lower
      bound is dragged, with Shift the upper bound. Both bounds are first kept
      in [MinDbValue, MaxDbValue]; if less than MinDbGap remains between them,
      the bound that was not dragged gives way, and if it cannot, the window is
      pinned against the edge of the range. */
  function DbDragged(s: ScopeView, dy: int, shift: bool): (r: ScopeView)
    ensures r.freqMax == s.freqMax && r.customFreq == s.customFreq
    ensures r.WindowOk()
    // the dragged lower bound is honoured unless it leaves no room below the top
    ensures !shift ==> var wanted := Max(s.dBmin + dy, MinDbValue);
      (wanted <= MaxDbValue - MinDbGap ==> r.dBmin == wanted) &&
      (wanted > MaxDbValue - MinDbGap ==> r.dBmin == MaxDbValue - MinDbGap && r.dBmax == MaxDbValue)
    // the dragged upper bound is honoured unless it leaves no room above the bottom
    ensures shift ==> var wanted := Min(s.dBmax + dy, MaxDbValue);
      (wanted >= MinDbValue + MinDbGap ==> r.dBmax == wanted) &&
      (wanted < MinDbValue + MinDbGap ==> r.dBmin == MinDbValue && r.dBmax == MinDbValue + MinDbGap)
    // the bound that was not dragged only moves to restore the gap, and then exactly to it
    ensures !shift && r.dBmax != Min(s.dBmax, MaxDbValue) ==> r.dBmax - r.dBmin == MinDbGap
    ensures shift && r.dBmin != Max(s.dBmin, MinDbValue) ==> r.dBmax - r.dBmin == MinDbGap
    // and it stays where it was (after clamping) when the gap needs no repair
    ensures !shift && Min(s.dBmax, MaxDbValue) - r.dBmin >= MinDbGap ==> r.dBmax == Min(s.dBmax, MaxDbValue)
    ensures shift && r.dBmax - Max(s.dBmin, MinDbValue) >= MinDbGap ==> r.dBmin == Max(s.dBmin, MinDbValue)
    // a drag by zero pixels leaves a valid window as it is
    ensures dy == 0 && s.WindowOk() ==> r == s
  {
    if !shift then
      var lo := Max(s.dBmin + dy, MinDbValue);
      var hi := Min(s.dBmax, MaxDbValue);
      if lo > MaxDbValue - MinDbGap then s.(dBmin := MaxDbValue - MinDbGap, dBmax := MaxDbValue)
      else s.(dBmin := lo, dBmax := Max(hi, lo + MinDbGap))
    else
      var lo := Max(s.dBmin, MinDbValue);
      var hi := Min(s.dBmax + dy, MaxDbValue);
      if hi < MinDbValue + MinDbGap then s.(dBmin := MinDbValue, dBmax := MinDbValue + MinDbGap)
      else s.(dBmin := Min(lo, hi - MinDbGap), dBmax := hi)
  }

  /** The view after a horizontal drag of dx pixels: the maximum frequency moves
      by FreqStep Hz per pixel (down for a drag to the right), is kept in
      [MinFreqValue, MaxFreqValue] and becomes the user's choice. */
  function FreqDragged(s: ScopeView, dx: int): (r: ScopeView)
    ensures r.dBmin == s.dBmin && r.dBmax == s.dBmax
    ensures r.customFreq && MinFreqValue <= r.freqMax <= MaxFreqValue
    ensures var wanted := s.freqMax - FreqStep * dx;
      (MinFreqValue <= wanted <= MaxFreqValue ==> r.freqMax == wanted) &&
      (wanted < MinFreqValue ==> r.freqMax == MinFreqValue) &&
      (wanted > MaxFreqValue ==> r.freqMax == MaxFreqValue)
  {
    s.(freqMax := Min(Max(s.freqMax - FreqStep * dx, MinFreqValue), MaxFreqValue), customFreq := true)
  }

  /** The view after a rescaling drag in any direction. */
  function Dragged(s: ScopeView, movement: Point, direction: RescaleDirection, modifiers: bv32): (r: ScopeView)
    ensures direction == North ==> r.WindowOk() && r.freqMax == s.freqMax && r.customFreq == s.customFreq
    ensures direction == East ==> r.dBmin == s.dBmin && r.dBmax == s.dBmax && r.customFreq
    ensures direction == East ==> MinFreqValue <= r.freqMax <= MaxFreqValue
    ensures direction != North && direction != East ==> r == s
  {
    match direction
    case North => DbDragged(s, movement.y, ShiftHeld(modifiers))
    case East => FreqDragged(s, movement.x)
    case _ => s
  }

  /** The view after the user asks for the maximum frequency to follow the sampling rate again. */
  function MaxFreqReset(s: ScopeView): (r: ScopeView)
    ensures !r.customFreq
    ensures r.dBmin == s.dBmin && r.dBmax == s.dBmax && r.freqMax == s.freqMax
  {
    s.(customFreq := false)
  }

  /** C++ division of an int by 2, which rounds toward zero. */
  function HalfTowardZero(n: int): (h: int)
    ensures n >= 0 ==> 0 <= n - 2 * h <= 1
    ensures n < 0 ==> -1 <= n - 2 * h <= 0
  {
    if n >= 0 then n / 2 else -((-n) / 2)
  }

  /** The view after a frame of frameSize samples at sampling rate freq was
      analysed: an automatic maximum frequency becomes the Nyquist frequency
      freq / 2; a custom one, and a frame too short to analyse, change nothing. */
  function Rendered(s: ScopeView, frameSize: nat, freq: int): (r: ScopeView)
    ensures r.dBmin == s.dBmin && r.dBmax == s.dBmax && r.customFreq == s.customFreq
    ensures (s.customFreq || frameSize <= MaxSkippedFrameSize) ==> r.freqMax == s.freqMax
    ensures !s.customFreq && frameSize > MaxSkippedFrameSize ==> r.freqMax == HalfTowardZero(freq)
    ensures !s.customFreq && frameSize > MaxSkippedFrameSize && freq >= 0 ==>
      r.freqMax >= 0 && freq - 1 <= 2 * r.freqMax <= freq
  {
    if frameSize > MaxSkippedFrameSize && !s.customFreq then s.(freqMax := HalfTowardZero(freq))
    else s
  }

  /** The FFT window used for a frame: the selected size, but no more than the
      samples available, rounded down to an even number. */
  function FftWindow(selected: int, numSamples: int): (w: int)
    ensures w % 2 == 0
    ensures w <= selected && w <= numSamples
    ensures w >= Min(selected, numSamples) - 1
    ensures selected <= numSamples && selected % 2 == 0 ==> w == selected
  {
    var n := Min(selected, numSamples);
    n - n % 2
  }

  /** One event the scope handles that touches its view range. */
  datatype Event =
    | MouseDrag(movement: Point, direction: RescaleDirection, modifiers: bv32)
    | ResetMaxFreq
    | RenderScope(frameSize: nat, freq: int)
  {
    predicate IsDbDrag() { MouseDrag? && direction == North }
    predicate IsFreqDrag() { MouseDrag? && direction == East }
  }

  function Step(s: ScopeView, e: Event): (r: ScopeView)
    ensures s.WindowOk() || e.IsDbDrag() ==> r.WindowOk()
    ensures s.FreqStorable() ==> r.FreqStorable()
    ensures s.CustomFreqInRange() || e.IsFreqDrag() || e.ResetMaxFreq? ==> r.CustomFreqInRange()
    ensures !s.customFreq && !e.IsFreqDrag() ==> !r.customFreq
  {
    match e
    case MouseDrag(movement, direction, modifiers) => Dragged(s, movement, direction, modifiers)
    case ResetMaxFreq => MaxFreqReset(s)
    case RenderScope(frameSize, freq) => Rendered(s, frameSize, freq)
  }

  /** The view after a sequence of events, handled one after another. */
  function Run(s: ScopeView, events: seq<Event>): (r: ScopeView)
    ensures s.WindowOk() ==> r.WindowOk()
    ensures s.FreqStorable() ==> r.FreqStorable()
    ensures s.CustomFreqInRange() ==> r.CustomFreqInRange()
    decreases |events|
  {
    if events == [] then s else Run(Step(s, events[0]), events[1..])
  }

  /** Once the dB scale has been dragged, the window stays inside
      [MinDbValue, MaxDbValue] with at least MinDbGap between the bounds,
      whatever the scope handles afterwards. */
  lemma {:induction false} DbDragEstablishesWindow(s: ScopeView, events: seq<Event>, i: nat)
    requires i < |events| && events[i].IsDbDrag()
    ensures Run(s, events).WindowOk()
    decreases i
  {
    if i > 0 {
      DbDragEstablishesWindow(Step(s, events[0]), events[1..], i - 1);
    }
  }

  /** Once the frequency has been dragged or reset, a custom maximum frequency
      always lies in [MinFreqValue, MaxFreqValue]. */
  lemma {:induction false} FreqEventEstablishesRange(s: ScopeView, events: seq<Event>, i: nat)
    requires i < |events| && (events[i].IsFreqDrag() || events[i].ResetMaxFreq?)
    ensures Run(s, events).CustomFreqInRange()
    decreases i
  {
    if i > 0 {
      FreqEventEstablishesRange(Step(s, events[0]), events[1..], i - 1);
    }
  }

  /** After a reset the maximum frequency stays automatic until the next
      horizontal drag, so every later analysed frame sets it to half the
      sampling rate. */
  lemma {:induction false} ResetStaysAutomatic(s: ScopeView, events: seq<Event>)
    requires forall e | e in events :: !e.IsFreqDrag()
    ensures !Run(MaxFreqReset(s), events).customFreq
    ensures var r := Run(MaxFreqReset(s), events);
      forall n: nat, freq: int | n > MaxSkippedFrameSize :: Rendered(r, n, freq).freqMax == HalfTowardZero(freq)
    decreases |events|
  {
    if events != [] {
      var t := Step(MaxFreqReset(s), events[0]);
      assert !t.customFreq;
      assert MaxFreqReset(t) == t;
      ResetStaysAutomatic(t, events[1..]);
    }
  }
}
