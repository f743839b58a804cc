/** How the scope's view range is kept in its configuration group between
    sessions. A maximum frequency that follows the sampling rate is stored as
    0, a user-chosen one as itself. */
module SpectrumConfig {
  import opened ViewRange

  /** A configuration group: integer entries by key. */
  type ConfigGroup = map<string, int>

  const DbMaxKey: string := "dBmax"
  const DbMinKey: string := "dBmin"
  const FreqMaxKey: string := "freqMax"

  /** Defaults used when an entry is missing. */
  const DefaultDbMax: int := 0
  const DefaultDbMin: int := -70
  /** The stored value that means "follow the sampling rate". */
  const AutomaticFreq: int := 0
  /** The maximum frequency shown until the first frame sets it. */
  const DefaultFreqMax: int := 10000

  /** An entry of the group, or the default when the group has none. */
  function ReadEntry(group: ConfigGroup, key: string, default: int): (v: int) {
    if key in group then group[key] else default
  }

  /** The maximum-frequency setting a configuration value stands for. */
  datatype FreqSetting = FreqSetting(customFreq: bool, freqMax: int)

  /** The value stored for a maximum-frequency setting. */
  function EncodeFreqMax(customFreq: bool, freqMax: int): (stored: int)
    ensures customFreq && freqMax != 0 <==> stored != AutomaticFreq
    ensures stored != AutomaticFreq ==> stored == freqMax
  {
    if customFreq then freqMax else AutomaticFreq
  }

  /** The maximum-frequency setting a stored value stands for. Encoding it
      again gives back the stored value, and a custom setting is never 0. */
  function DecodeFreqMax(stored: int): (r: FreqSetting)
    ensures EncodeFreqMax(r.customFreq, r.freqMax) == stored
    ensures r.customFreq ==> r.freqMax != AutomaticFreq
    ensures !r.customFreq ==> r.freqMax == DefaultFreqMax
  {
    if stored == AutomaticFreq then FreqSetting(false, DefaultFreqMax) else FreqSetting(true, stored)
  }

  /** Decoding what was encoded gives back a custom setting unchanged and turns
      an automatic one into the default. */
  lemma FreqMaxRoundTrip(customFreq: bool, freqMax: int)
    requires customFreq ==> freqMax != 0
    ensures DecodeFreqMax(EncodeFreqMax(customFreq, freqMax)) ==
      if customFreq then FreqSetting(true, freqMax) else FreqSetting(false, DefaultFreqMax)
  {
  }

  /** The view range read from a configuration group. */
  function ReadView(group: ConfigGroup): (r: ScopeView)
    ensures r.FreqStorable()
    ensures r.dBmax == ReadEntry(group, DbMaxKey, DefaultDbMax)
    ensures r.dBmin == ReadEntry(group, DbMinKey, DefaultDbMin)
    ensures r.customFreq <==> FreqMaxKey in group && group[FreqMaxKey] != AutomaticFreq
    ensures r.customFreq ==> r.freqMax == group[FreqMaxKey]
    ensures !r.customFreq ==> r.freqMax == DefaultFreqMax
  {
    var f := DecodeFreqMax(ReadEntry(group, FreqMaxKey, AutomaticFreq));
    ScopeView(ReadEntry(group, DbMinKey, DefaultDbMin), ReadEntry(group, DbMaxKey, DefaultDbMax),
              f.freqMax, f.customFreq)
  }

  /** The view as it comes back from the configuration: an automatic maximum
      frequency comes back as the default. */
  function Reloaded(s: ScopeView): (r: ScopeView) {
    if s.customFreq then s else s.(freqMax := DefaultFreqMax)
  }

  /** The group after the view range was written into it. Reading it back
      gives the same view, up to an automatic maximum frequency, and no other
      entry changes. */
  function WriteView(s: ScopeView, group: ConfigGroup): (r: ConfigGroup)
    ensures s.FreqStorable() ==> ReadView(r) == Reloaded(s)
    ensures r.Keys == group.Keys + {DbMaxKey, DbMinKey, FreqMaxKey}
    ensures r[FreqMaxKey] == AutomaticFreq <==> !s.customFreq || s.freqMax == 0
    ensures forall k | k in group && k !in {DbMaxKey, DbMinKey, FreqMaxKey} :: r[k] == group[k]
  {
    group[DbMaxKey := s.dBmax][DbMinKey := s.dBmin][FreqMaxKey := EncodeFreqMax(s.customFreq, s.freqMax)]
  }

  /** A session that starts from a configuration and then handles any events
      can always be written back and read again without losing the dB window
      or a custom maximum frequency. */
  lemma SessionRoundTrip(group: ConfigGroup, events: seq<Event>, saved: ConfigGroup)
    ensures var s := Run(ReadView(group), events);
      ReadView(WriteView(s, saved)) == Reloaded(s)
  {
  }
}
