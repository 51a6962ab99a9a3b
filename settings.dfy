/**
 * The value types of the equalizer: the cut-slope choice, the snapshot of the
 * seven user parameters, and the Butterworth order a cut slope asks the
 * design library for.
 */
module Settings {

  /** The four cut slopes, in the order of their choice indices (12, 24, 36, 48 dB/oct). */
  datatype Slope = Slope12 | Slope24 | Slope36 | Slope48

  /** The enum's underlying value: the choice index of the slope parameter. */
  function Ordinal(s: Slope): (n: nat)
    ensures n < 4
  {
    match s
    case Slope12 => 0
    case Slope24 => 1
    case Slope36 => 2
    case Slope48 => 3
  }

  /** The cast from a choice index back to the enum. */
  function SlopeOfOrdinal(n: nat): (s: Slope)
    requires n < 4
    ensures Ordinal(s) == n
  {
    if n == 0 then Slope12 else if n == 1 then Slope24 else if n == 2 then Slope36 else Slope48
  }

  lemma OrdinalRoundTrip(s: Slope)
    ensures SlopeOfOrdinal(Ordinal(s)) == s
  {
  }

  /** The steepness a slope's choice label promises, in dB per octave. */
  function DbPerOctave(s: Slope): nat
  {
    12 + 12 * Ordinal(s)
  }

  /** The snapshot of the seven equalizer parameters (frequencies in Hz, gain in dB). */
  datatype ChainSettings = ChainSettings(
    peakFreq: real,
    peakGainInDecibels: real,
    peakQuality: real,
    lowCutFreq: real,
    highCutFreq: real,
    lowCutSlope: Slope,
    highCutSlope: Slope)

  /** A value-initialised snapshot: quality 1, every other number 0, both slopes 12 dB/oct. */
  function DefaultChainSettings(): (c: ChainSettings)
    ensures DbPerOctave(c.lowCutSlope) == 12 && DbPerOctave(c.highCutSlope) == 12
    ensures c.peakQuality == 1.0 && c.peakGainInDecibels == 0.0
    ensures c.peakFreq == 0.0 && c.lowCutFreq == 0.0 && c.highCutFreq == 0.0
  {
    ChainSettings(0.0, 0.0, 1.0, 0.0, 0.0, Slope12, Slope12)
  }

  /**
   * The number of filter sections the library's high-order Butterworth design
   * returns for a given order: one second-order section per pair of poles and
   * one first-order section for an odd pole left over.
   */
  function SectionCount(order: nat): nat
  {
    order / 2 + order % 2
  }

  /** The asymptotic attenuation of a Butterworth filter of the given order, 6 dB per octave per order. */
  function RolloffDbPerOctave(order: nat): nat
  {
    6 * order
  }

  /**
   * The order makeLowCutFilter and makeHighCutFilter pass to the design
   * library as the code is written: 2 * slope + 1. It is odd, lies in
   * {1, 3, 5, 7}, and yields exactly one section per cascade stage the slope
   * enables.
   */
  function ButterworthOrderAsWritten(s: Slope): (order: nat)
    ensures order % 2 == 1 && 1 <= order <= 7
    ensures SectionCount(order) == Ordinal(s) + 1
  {
    2 * Ordinal(s) + 1
  }

  /** As written, every slope rolls off 6 dB per octave less than its label says; at Slope12 it is 6 against 12. */
  lemma AsWrittenRolloffMissesLabel(s: Slope)
    ensures RolloffDbPerOctave(ButterworthOrderAsWritten(s)) + 6 == DbPerOctave(s)
    ensures RolloffDbPerOctave(ButterworthOrderAsWritten(Slope12)) == 6 && DbPerOctave(Slope12) == 12
  {
  }

  /**
   * The order the slope labels call for: 2 * (slope + 1). It is even, lies in
   * {2, 4, 6, 8}, yields the same number of sections as the order as written,
   * so the same stages are filled, and each section contributes 12 dB/oct.
   */
  function ButterworthOrder(s: Slope): (order: nat)
    ensures order % 2 == 0 && 2 <= order <= 8
    ensures SectionCount(order) == Ordinal(s) + 1
  {
    2 * (Ordinal(s) + 1)
  }

  /** The corrected order realises the steepness its label names, for every slope. */
  lemma RolloffMatchesLabel(s: Slope)
    ensures RolloffDbPerOctave(ButterworthOrder(s)) == DbPerOctave(s)
    ensures SectionCount(ButterworthOrder(s)) == SectionCount(ButterworthOrderAsWritten(s))
  {
  }

  /** Distinct slopes ask for distinct orders, as written and corrected, so the slope choice is never lost on the way to the design. */
  lemma ButterworthOrderInjective(s: Slope, t: Slope)
    ensures ButterworthOrderAsWritten(s) == ButterworthOrderAsWritten(t) <==> s == t
    ensures ButterworthOrder(s) == ButterworthOrder(t) <==> s == t
  {
  }
}
