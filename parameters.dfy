/**
 * The plugin's parameter layout (createParameterLayout), the parameter
 * store it gives rise to (the raw values the value-tree state holds, by
 * parameter ID), and the snapshot read from it (getChainSettings).
 */
module Parameters {
  import opened Settings

  const LowCutFreqId: string := "LowCut Freq"
  const HighCutFreqId: string := "HighCut Freq"
  const PeakFreqId: string := "Peak Freq"
  const PeakGainId: string := "Peak Gain"
  const PeakQualityId: string := "Peak Quality"
  const LowCutSlopeId: string := "LowCut Slope"
  const HighCutSlopeId: string := "HighCut Slope"

  /** A normalisable range: bounds, step interval and skew factor. */
  datatype Range = Range(start: real, end: real, interval: real, skew: real)

  predicate Within(r: Range, v: real)
  {
    r.start <= v <= r.end
  }

  const FrequencyRange := Range(20.0, 20000.0, 1.0, 0.25)
  const GainRange := Range(-24.0, 24.0, 0.5, 1.0)
  const QualityRange := Range(0.1, 10.0, 0.05, 1.0)

  datatype Parameter =
    | FloatParameter(id: string, range: Range, defaultValue: real)
    | ChoiceParameter(id: string, choices: seq<string>, defaultIndex: nat)

  const LowCutFreqParameter := FloatParameter(LowCutFreqId, FrequencyRange, 20.0)
  const HighCutFreqParameter := FloatParameter(HighCutFreqId, FrequencyRange, 20000.0)
  const PeakFreqParameter := FloatParameter(PeakFreqId, FrequencyRange, 750.0)
  const PeakGainParameter := FloatParameter(PeakGainId, GainRange, 0.0)
  const PeakQualityParameter := FloatParameter(PeakQualityId, QualityRange, 1.0)

  // ---------------------------------------------------------------------------
  // Decimal rendering of the slope labels (juce::String of an int)

  function DigitChar(d: nat): char
    requires d < 10
  {
    (48 + d) as char
  }

  function DigitValue(c: char): nat
  {
    if '0' <= c <= '9' then c as int - 48 else 0
  }

  /** The decimal digits of n, most significant first, without leading zeros. */
  function DecimalString(n: nat): (s: string)
    ensures |s| >= 1 && forall k :: 0 <= k < |s| ==> '0' <= s[k] <= '9'
  {
    if n < 10 then [DigitChar(n)] else DecimalString(n / 10) + [DigitChar(n % 10)]
  }

  /** Reads a string of decimal digits back as a number. */
  function ParseDecimal(s: string): nat
  {
    if s == [] then 0 else ParseDecimal(s[..|s| - 1]) * 10 + DigitValue(s[|s| - 1])
  }

  lemma {:induction false} DecimalRoundTrip(n: nat)
    ensures ParseDecimal(DecimalString(n)) == n
  {
    var s := DecimalString(n);
    if n < 10 {
      assert s[..|s| - 1] == [];
    } else {
      assert s[..|s| - 1] == DecimalString(n / 10);
      DecimalRoundTrip(n / 10);
    }
  }

  /** The text of slope choice i: the number 12 + 12 * i followed by " db/Oct". */
  function SlopeChoiceLabel(i: nat): (text: string)
    ensures |text| > 7 && text[|text| - 7..] == " db/Oct"
    ensures forall k :: 0 <= k < |text| - 7 ==> '0' <= text[k] <= '9'
    ensures ParseDecimal(text[..|text| - 7]) == 12 + 12 * i
  {
    var digits := DecimalString(12 + i * 12);
    DecimalRoundTrip(12 + i * 12);
    assert (digits + " db/Oct")[..|digits|] == digits;
    digits + " db/Oct"
  }

  /** The four slope choices, one per Slope, in ordinal order. */
  function SlopeChoices(): seq<string>
  {
    seq(4, i requires 0 <= i => SlopeChoiceLabel(i))
  }

  /** The parameter layout, in the order the parameters are added. */
  function Layout(): seq<Parameter>
  {
    [ LowCutFreqParameter,
      HighCutFreqParameter,
      PeakFreqParameter,
      PeakGainParameter,
      PeakQualityParameter,
      ChoiceParameter(LowCutSlopeId, SlopeChoices(), 0),
      ChoiceParameter(HighCutSlopeId, SlopeChoices(), 0) ]
  }

  /** createParameterLayout: adds the five float parameters, builds the slope choices in a loop, adds the two choice parameters. */
  method CreateParameterLayout() returns (layout: seq<Parameter>)
    ensures layout == Layout()
  {
    layout := [];
    layout := layout + [LowCutFreqParameter];
    layout := layout + [HighCutFreqParameter];
    layout := layout + [PeakFreqParameter];
    layout := layout + [PeakGainParameter];
    layout := layout + [PeakQualityParameter];

    var slopeChoices: seq<string> := [];
    var i := 0;
    while i < 4
      invariant 0 <= i <= 4
      invariant |slopeChoices| == i
      invariant forall k :: 0 <= k < i ==> slopeChoices[k] == SlopeChoiceLabel(k)
    {
      slopeChoices := slopeChoices + [DecimalString(12 + i * 12) + " db/Oct"];
      i := i + 1;
    }
    assert slopeChoices == SlopeChoices();

    layout := layout + [ChoiceParameter(LowCutSlopeId, slopeChoices, 0)];
    layout := layout + [ChoiceParameter(HighCutSlopeId, slopeChoices, 0)];
  }

  /** The decimal texts of the four slope steepnesses. */
  lemma SlopeNumbersSpelled()
    ensures DecimalString(12) == "12" && DecimalString(24) == "24"
    ensures DecimalString(36) == "36" && DecimalString(48) == "48"
  {
    assert DecimalString(1) == "1" && DecimalString(2) == "2" && DecimalString(3) == "3" && DecimalString(4) == "4";
  }

  /** The slope labels are spelled "12 db/Oct", "24 db/Oct", "36 db/Oct", "48 db/Oct". */
  lemma SlopeChoicesSpelled()
    ensures SlopeChoices() == ["12 db/Oct", "24 db/Oct", "36 db/Oct", "48 db/Oct"]
  {
    SlopeNumbersSpelled();
    assert SlopeChoiceLabel(0) == "12 db/Oct";
    assert SlopeChoices()[0] == "12 db/Oct";
    assert SlopeChoiceLabel(1) == "24 db/Oct";
    assert SlopeChoices()[1] == "24 db/Oct";
    assert SlopeChoiceLabel(2) == "36 db/Oct";
    assert SlopeChoices()[2] == "36 db/Oct";
    assert SlopeChoiceLabel(3) == "48 db/Oct";
    assert SlopeChoices()[3] == "48 db/Oct";
  }

  /** The number a text of the form "<digits> db/Oct" starts with. */
  function LabelNumber(text: string): nat
  {
    if |text| < 7 then 0 else ParseDecimal(text[..|text| - 7])
  }

  /** Each choice text names the steepness of the slope with that ordinal, and no two labels are equal. */
  lemma SlopeChoicesNameTheirSlopes()
    ensures |SlopeChoices()| == 4
    ensures forall i :: 0 <= i < 4 ==> LabelNumber(SlopeChoices()[i]) == DbPerOctave(SlopeOfOrdinal(i))
    ensures forall i, j :: 0 <= i < j < 4 ==> SlopeChoices()[i] != SlopeChoices()[j]
  {
    forall i | 0 <= i < 4
      ensures LabelNumber(SlopeChoices()[i]) == DbPerOctave(SlopeOfOrdinal(i))
    {
      var text := SlopeChoices()[i];
      var digits := DecimalString(12 + i * 12);
      assert text == digits + " db/Oct";
      assert text[..|text| - 7] == digits;
      DecimalRoundTrip(12 + i * 12);
    }
  }

  // ---------------------------------------------------------------------------
  // The parameter store

  /** Raw parameter values by parameter ID; a choice parameter holds its index. */
  type Store = map<string, real>

  /** v is an index into a choice list of n entries. */
  predicate IsChoiceIndex(v: real, n: nat)
  {
    0.0 <= v < n as real && v == v.Floor as real
  }

  /** The store holds a value for p, within p's range (an index for a choice). */
  predicate Holds(p: Parameter, store: Store)
  {
    p.id in store &&
    match p
    case FloatParameter(_, range, _) => Within(range, store[p.id])
    case ChoiceParameter(_, choices, _) => IsChoiceIndex(store[p.id], |choices|)
  }

  /** What the value-tree state guarantees: every parameter of the layout is present and in range. */
  predicate ValidStore(store: Store)
  {
    forall k :: 0 <= k < |Layout()| ==> Holds(Layout()[k], store)
  }

  /** The parameter's default as a raw value. */
  function DefaultValue(p: Parameter): real
  {
    match p
    case FloatParameter(_, _, d) => d
    case ChoiceParameter(_, _, d) => d as real
  }

  /** Every parameter of the layout holds its default. */
  predicate IsDefaultStore(store: Store)
  {
    forall k :: 0 <= k < |Layout()| ==> Layout()[k].id in store && store[Layout()[k].id] == DefaultValue(Layout()[k])
  }

  /** The seven numbers a snapshot can hold, as the layout bounds them. */
  predicate SettingsInRange(c: ChainSettings)
  {
    Within(FrequencyRange, c.lowCutFreq) && Within(FrequencyRange, c.highCutFreq) &&
    Within(FrequencyRange, c.peakFreq) && Within(GainRange, c.peakGainInDecibels) &&
    Within(QualityRange, c.peakQuality)
  }

  lemma ValidStoreFacts(store: Store)
    requires ValidStore(store)
    ensures LowCutFreqId in store && Within(FrequencyRange, store[LowCutFreqId])
    ensures HighCutFreqId in store && Within(FrequencyRange, store[HighCutFreqId])
    ensures PeakFreqId in store && Within(FrequencyRange, store[PeakFreqId])
    ensures PeakGainId in store && Within(GainRange, store[PeakGainId])
    ensures PeakQualityId in store && Within(QualityRange, store[PeakQualityId])
    ensures LowCutSlopeId in store && IsChoiceIndex(store[LowCutSlopeId], 4)
    ensures HighCutSlopeId in store && IsChoiceIndex(store[HighCutSlopeId], 4)
  {
    assert Holds(Layout()[0], store);
    assert Holds(Layout()[1], store);
    assert Holds(Layout()[2], store);
    assert Holds(Layout()[3], store);
    assert Holds(Layout()[4], store);
    assert Holds(Layout()[5], store);
    assert Holds(Layout()[6], store);
  }

  /** The choice index held as a raw value, cast to the Slope enum. */
  function SlopeOfRaw(v: real): Slope
    requires IsChoiceIndex(v, 4)
  {
    SlopeOfOrdinal(v.Floor)
  }

  /**
   * getChainSettings: starts from a value-initialised snapshot and overwrites
   * each of its seven fields with the raw value of the parameter of the same
   * name; the slope fields take the choice indices.
   */
  function GetChainSettings(store: Store): (settings: ChainSettings)
    requires ValidStore(store)
    ensures SettingsInRange(settings)
  {
    ValidStoreFacts(store);
    DefaultChainSettings().(
      lowCutFreq := store[LowCutFreqId],
      highCutFreq := store[HighCutFreqId],
      peakFreq := store[PeakFreqId],
      peakGainInDecibels := store[PeakGainId],
      peakQuality := store[PeakQualityId],
      lowCutSlope := SlopeOfRaw(store[LowCutSlopeId]),
      highCutSlope := SlopeOfRaw(store[HighCutSlopeId]))
  }

  /** The store that holds exactly the values of a snapshot under their parameter IDs. */
  function StoreOf(c: ChainSettings): Store
  {
    map[
      LowCutFreqId := c.lowCutFreq,
      HighCutFreqId := c.highCutFreq,
      PeakFreqId := c.peakFreq,
      PeakGainId := c.peakGainInDecibels,
      PeakQualityId := c.peakQuality,
      LowCutSlopeId := Ordinal(c.lowCutSlope) as real,
      HighCutSlopeId := Ordinal(c.highCutSlope) as real]
  }

  /** The seven parameter IDs are distinct, so no two snapshot fields read the same parameter. */
  lemma ParameterIdsDistinct()
    ensures forall i, j :: 0 <= i < j < |Layout()| ==> Layout()[i].id != Layout()[j].id
  {
    assert LowCutFreqId[0] == 'L' && HighCutFreqId[0] == 'H' && PeakFreqId[0] == 'P';
    assert PeakGainId[0] == 'P' && PeakQualityId[0] == 'P' && LowCutSlopeId[0] == 'L' && HighCutSlopeId[0] == 'H';
    assert LowCutFreqId[7] == 'F' && LowCutSlopeId[7] == 'S';
    assert HighCutFreqId[8] == 'F' && HighCutSlopeId[8] == 'S';
    assert PeakFreqId[5] == 'F' && PeakGainId[5] == 'G' && PeakQualityId[5] == 'Q';
  }

  /** Every in-range snapshot survives being stored and read back: each field has its own parameter. */
  lemma SettingsRoundTrip(c: ChainSettings)
    requires SettingsInRange(c)
    ensures ValidStore(StoreOf(c))
    ensures GetChainSettings(StoreOf(c)) == c
  {
    ParameterIdsDistinct();
    var store := StoreOf(c);
    assert Holds(Layout()[5], store) by { assert store[LowCutSlopeId] == Ordinal(c.lowCutSlope) as real; }
    assert Holds(Layout()[6], store) by { assert store[HighCutSlopeId] == Ordinal(c.highCutSlope) as real; }
    assert ValidStore(store);
    OrdinalRoundTrip(c.lowCutSlope);
    OrdinalRoundTrip(c.highCutSlope);
  }

  /** Reading a snapshot loses nothing: storing it again reproduces every parameter of the layout. */
  lemma StoreRoundTrip(store: Store)
    requires ValidStore(store)
    ensures forall k :: 0 <= k < |Layout()| ==> StoreOf(GetChainSettings(store))[Layout()[k].id] == store[Layout()[k].id]
  {
    ValidStoreFacts(store);
    ParameterIdsDistinct();
  }

  /** The snapshot of a store at the layout's defaults. */
  const LayoutDefaults := ChainSettings(750.0, 0.0, 1.0, 20.0, 20000.0, Slope12, Slope12)

  /**
   * A store at the layout's defaults reads as peak 750 Hz, 0 dB, Q 1, low cut
   * 20 Hz, high cut 20 kHz, both slopes 12 dB/oct; the defaults lie in range.
   */
  lemma LayoutDefaultsRead(store: Store)
    requires IsDefaultStore(store)
    ensures ValidStore(store)
    ensures GetChainSettings(store) == LayoutDefaults
  {
    assert forall k :: 0 <= k < |Layout()| ==> Holds(Layout()[k], store) by {
      forall k | 0 <= k < |Layout()| ensures Holds(Layout()[k], store) {
        assert store[Layout()[k].id] == DefaultValue(Layout()[k]);
      }
    }
    assert store[LowCutSlopeId] == 0.0 by { assert Layout()[5].id == LowCutSlopeId; }
    assert store[HighCutSlopeId] == 0.0 by { assert Layout()[6].id == HighCutSlopeId; }
    assert store[LowCutFreqId] == 20.0 by { assert Layout()[0].id == LowCutFreqId; }
    assert store[HighCutFreqId] == 20000.0 by { assert Layout()[1].id == HighCutFreqId; }
    assert store[PeakFreqId] == 750.0 by { assert Layout()[2].id == PeakFreqId; }
    assert store[PeakGainId] == 0.0 by { assert Layout()[3].id == PeakGainId; }
    assert store[PeakQualityId] == 1.0 by { assert Layout()[4].id == PeakQualityId; }
  }

  /**
   * The value-initialised snapshot is out of range (its frequencies are 0 Hz),
   * so it is never what getChainSettings reads from a valid store: every
   * field it starts with is overwritten by the parameter of the same name.
   */
  lemma DefaultSnapshotIsNoReading(store: Store)
    requires ValidStore(store)
    ensures !SettingsInRange(DefaultChainSettings())
    ensures GetChainSettings(store) != DefaultChainSettings()
    ensures
      var c := GetChainSettings(store);
      && LowCutFreqId in store && c.lowCutFreq == store[LowCutFreqId]
      && HighCutFreqId in store && c.highCutFreq == store[HighCutFreqId]
      && PeakFreqId in store && c.peakFreq == store[PeakFreqId]
      && PeakGainId in store && c.peakGainInDecibels == store[PeakGainId]
      && PeakQualityId in store && c.peakQuality == store[PeakQualityId]
      && LowCutSlopeId in store && Ordinal(c.lowCutSlope) as real == store[LowCutSlopeId]
      && HighCutSlopeId in store && Ordinal(c.highCutSlope) as real == store[HighCutSlopeId]
  {
    ValidStoreFacts(store);
  }

  /** The store a freshly constructed processor starts from holds every default. */
  lemma DefaultStoreIsDefault()
    ensures IsDefaultStore(StoreOf(LayoutDefaults))
  {
    ParameterIdsDistinct();
  }
}
