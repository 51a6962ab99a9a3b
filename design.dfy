/**
 * Coefficient design. The formulas belong to the DSP library and are not part
 * of this model: a coefficient set is an opaque value, and the library's
 * peak-filter and Butterworth routines are functions supplied by the caller.
 * What this module fixes is which arguments the plugin passes them.
 */
module Design {
  import opened Settings

  /** One filter section's coefficient set, copied by value. */
  datatype Coefficients = Coefficients(raw: seq<real>)

  /** A filter's coefficients before anything is installed: the pass-through (1, 0, 1, 0). */
  const PassThrough := Coefficients([1.0, 0.0, 1.0, 0.0])

  /**
   * The library routines the plugin calls:
   *   peakFilter(sampleRate, frequency, quality, linearGain),
   *   decibelsToGain(decibels),
   *   highpass(frequency, sampleRate, order) and lowpass(frequency, sampleRate, order),
   *   the high-order Butterworth designs, each returning one section per cascade position.
   */
  datatype Library = Library(
    peakFilter: (real, real, real, real) -> Coefficients,
    decibelsToGain: real -> real,
    highpass: (real, real, nat) -> seq<Coefficients>,
    lowpass: (real, real, nat) -> seq<Coefficients>)

  /** The Butterworth routines return SectionCount(order) sections, whatever the frequency and rate. */
  ghost predicate ValidLibrary(lib: Library)
  {
    && (forall f: real, sr: real, order: nat :: |lib.highpass(f, sr, order)| == SectionCount(order))
    && (forall f: real, sr: real, order: nat :: |lib.lowpass(f, sr, order)| == SectionCount(order))
  }

  /** makePeakFilter: the peak design at the snapshot's frequency and quality, gain converted from decibels. */
  function MakePeakFilter(settings: ChainSettings, sampleRate: real, lib: Library): Coefficients
  {
    lib.peakFilter(sampleRate, settings.peakFreq, settings.peakQuality, lib.decibelsToGain(settings.peakGainInDecibels))
  }

  /**
   * makeLowCutFilter: a Butterworth highpass at the low-cut frequency, of the
   * order as written (2 * slope + 1); it returns exactly one section for each
   * stage the low-cut slope enables.
   */
  function MakeLowCutFilter(settings: ChainSettings, sampleRate: real, lib: Library): (sections: seq<Coefficients>)
    requires ValidLibrary(lib)
    ensures |sections| == Ordinal(settings.lowCutSlope) + 1
  {
    lib.highpass(settings.lowCutFreq, sampleRate, ButterworthOrderAsWritten(settings.lowCutSlope))
  }

  /** makeHighCutFilter: a Butterworth lowpass at the high-cut frequency, of the order as written, one section per enabled high-cut stage. */
  function MakeHighCutFilter(settings: ChainSettings, sampleRate: real, lib: Library): (sections: seq<Coefficients>)
    requires ValidLibrary(lib)
    ensures |sections| == Ordinal(settings.highCutSlope) + 1
  {
    lib.lowpass(settings.highCutFreq, sampleRate, ButterworthOrderAsWritten(settings.highCutSlope))
  }

  /**
   * Each design reads only its own band of the snapshot: the peak design the
   * peak frequency, quality and gain; each cut design its frequency and slope.
   */
  lemma DesignsReadOwnBand(s: ChainSettings, t: ChainSettings, sampleRate: real, lib: Library)
    requires ValidLibrary(lib)
    ensures s.peakFreq == t.peakFreq && s.peakQuality == t.peakQuality && s.peakGainInDecibels == t.peakGainInDecibels
      ==> MakePeakFilter(s, sampleRate, lib) == MakePeakFilter(t, sampleRate, lib)
    ensures s.lowCutFreq == t.lowCutFreq && s.lowCutSlope == t.lowCutSlope
      ==> MakeLowCutFilter(s, sampleRate, lib) == MakeLowCutFilter(t, sampleRate, lib)
    ensures s.highCutFreq == t.highCutFreq && s.highCutSlope == t.highCutSlope
      ==> MakeHighCutFilter(s, sampleRate, lib) == MakeHighCutFilter(t, sampleRate, lib)
  {
  }

  /**
   * The designs at the order the slope labels call for would return as many
   * sections as the designs as written, so they would fill the same stages.
   */
  lemma CorrectedDesignsFillSameStages(settings: ChainSettings, sampleRate: real, lib: Library)
    requires ValidLibrary(lib)
    ensures |lib.highpass(settings.lowCutFreq, sampleRate, ButterworthOrder(settings.lowCutSlope))|
         == |MakeLowCutFilter(settings, sampleRate, lib)|
    ensures |lib.lowpass(settings.highCutFreq, sampleRate, ButterworthOrder(settings.highCutSlope))|
         == |MakeHighCutFilter(settings, sampleRate, lib)|
  {
  }
}
