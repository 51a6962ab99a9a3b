/**
 * The filter chain: a cut filter is a cascade of four stages, each with a
 * coefficient slot and a bypass flag; a mono chain is low cut, peak, high cut
 * in series. The classes hold the slots the plugin overwrites in place; the
 * datatypes CutState and ChainState are their values, and the functions on
 * them say what an update leaves behind.
 */
module Chain {
  import opened Settings
  import opened Design

  /** Number of stages in a cut cascade. */
  const Stages := 4

  /** The value of a cut cascade: each stage's coefficients and bypass flag. */
  datatype CutState = CutState(coefficients: seq<Coefficients>, bypassed: seq<bool>)

  /** The value of a mono chain. */
  datatype ChainState = ChainState(lowCut: CutState, peak: Coefficients, peakBypassed: bool, highCut: CutState)

  predicate WellFormedCut(c: CutState)
  {
    |c.coefficients| == Stages && |c.bypassed| == Stages
  }

  predicate WellFormedChain(st: ChainState)
  {
    WellFormedCut(st.lowCut) && WellFormedCut(st.highCut)
  }

  /** A freshly constructed cascade: every stage holds the pass-through and none is bypassed. */
  function InitialCut(): CutState
  {
    CutState(seq(Stages, _ => PassThrough), seq(Stages, _ => false))
  }

  function InitialChain(): ChainState
  {
    ChainState(InitialCut(), PassThrough, false, InitialCut())
  }

  /**
   * The cascade after updateCutFilter(sections, slope): stages 0..slope hold
   * the corresponding sections and are enabled; the stages above are bypassed
   * and keep the coefficients they had.
   */
  function Installed(prev: CutState, sections: seq<Coefficients>, slope: Slope): (c: CutState)
    requires WellFormedCut(prev) && Ordinal(slope) < |sections|
    ensures WellFormedCut(c)
  {
    CutState(
      seq(Stages, i requires 0 <= i < Stages => if i <= Ordinal(slope) then sections[i] else prev.coefficients[i]),
      seq(Stages, i => Ordinal(slope) < i))
  }

  /** Number of stages that are not bypassed. */
  function CountActive(bypassed: seq<bool>): nat
  {
    if bypassed == [] then 0 else (if bypassed[0] then 0 else 1) + CountActive(bypassed[1..])
  }

  /** The coefficients of the stages that are not bypassed, in stage order. */
  function ActiveCoefficients(coefficients: seq<Coefficients>, bypassed: seq<bool>): seq<Coefficients>
    requires |coefficients| == |bypassed|
  {
    if bypassed == [] then []
    else (if bypassed[0] then [] else [coefficients[0]]) + ActiveCoefficients(coefficients[1..], bypassed[1..])
  }

  /** A run of enabled stages followed by bypassed ones: n stages, the first k enabled. */
  lemma {:induction false} PrefixEnabled(coefficients: seq<Coefficients>, bypassed: seq<bool>, k: nat)
    requires |coefficients| == |bypassed| && k <= |bypassed|
    requires forall i :: 0 <= i < |bypassed| ==> (bypassed[i] <==> k <= i)
    ensures CountActive(bypassed) == k
    ensures ActiveCoefficients(coefficients, bypassed) == coefficients[..k]
  {
    if bypassed != [] {
      if k == 0 {
        PrefixEnabled(coefficients[1..], bypassed[1..], 0);
      } else {
        PrefixEnabled(coefficients[1..], bypassed[1..], k - 1);
        assert coefficients[..k] == [coefficients[0]] + coefficients[1..][..k - 1];
      }
    }
  }

  /** After updateCutFilter exactly slope + 1 stages are enabled, and they hold sections 0..slope, whatever came before. */
  lemma InstalledActiveStages(prev: CutState, sections: seq<Coefficients>, slope: Slope)
    requires WellFormedCut(prev) && Ordinal(slope) < |sections|
    ensures CountActive(Installed(prev, sections, slope).bypassed) == Ordinal(slope) + 1
    ensures ActiveCoefficients(Installed(prev, sections, slope).coefficients, Installed(prev, sections, slope).bypassed)
         == sections[..Ordinal(slope) + 1]
  {
    var c := Installed(prev, sections, slope);
    PrefixEnabled(c.coefficients, c.bypassed, Ordinal(slope) + 1);
    assert c.coefficients[..Ordinal(slope) + 1] == sections[..Ordinal(slope) + 1];
  }

  /**
   * The bypass flags depend on the slope alone and the enabled stages on the
   * sections alone, so repeating an update changes nothing, and a later
   * update leaves the same enabled stages whatever updates preceded it.
   */
  lemma InstalledForgetsHistory(p: CutState, q: CutState, sections: seq<Coefficients>, slope: Slope)
    requires WellFormedCut(p) && WellFormedCut(q) && Ordinal(slope) < |sections|
    ensures Installed(Installed(p, sections, slope), sections, slope) == Installed(p, sections, slope)
    ensures Installed(p, sections, slope).bypassed == Installed(q, sections, slope).bypassed
    ensures forall i :: 0 <= i <= Ordinal(slope) ==>
      Installed(p, sections, slope).coefficients[i] == Installed(q, sections, slope).coefficients[i]
  {
  }

  /** The chain after the low-cut update. */
  function WithLowCut(st: ChainState, sections: seq<Coefficients>, slope: Slope): ChainState
    requires WellFormedChain(st) && Ordinal(slope) < |sections|
  {
    st.(lowCut := Installed(st.lowCut, sections, slope))
  }

  /** The chain after the high-cut update. */
  function WithHighCut(st: ChainState, sections: seq<Coefficients>, slope: Slope): ChainState
    requires WellFormedChain(st) && Ordinal(slope) < |sections|
  {
    st.(highCut := Installed(st.highCut, sections, slope))
  }

  /** The chain after the peak update. */
  function WithPeak(st: ChainState, c: Coefficients): ChainState
  {
    st.(peak := c)
  }

  /**
   * A chain rebuilt from one snapshot, in the processor's order: low cut,
   * then peak, then high cut.
   */
  function Rebuilt(st: ChainState, settings: ChainSettings, sampleRate: real, lib: Library): (r: ChainState)
    requires WellFormedChain(st) && ValidLibrary(lib)
    ensures WellFormedChain(r)
  {
    var low := WithLowCut(st, MakeLowCutFilter(settings, sampleRate, lib), settings.lowCutSlope);
    var peaked := WithPeak(low, MakePeakFilter(settings, sampleRate, lib));
    WithHighCut(peaked, MakeHighCutFilter(settings, sampleRate, lib), settings.highCutSlope)
  }

  /**
   * Each band update touches only its own slots, so the three commute: the
   * editor's order (peak, low cut, high cut) gives the processor's result.
   */
  lemma BandUpdatesCommute(st: ChainState, settings: ChainSettings, sampleRate: real, lib: Library)
    requires WellFormedChain(st) && ValidLibrary(lib)
    ensures
      var peaked := WithPeak(st, MakePeakFilter(settings, sampleRate, lib));
      var low := WithLowCut(peaked, MakeLowCutFilter(settings, sampleRate, lib), settings.lowCutSlope);
      WithHighCut(low, MakeHighCutFilter(settings, sampleRate, lib), settings.highCutSlope)
        == Rebuilt(st, settings, sampleRate, lib)
    ensures Rebuilt(st, settings, sampleRate, lib).peakBypassed == st.peakBypassed
  {
  }

  // ---------------------------------------------------------------------------

  /** A cascade of four filter stages with per-stage bypass flags. */
  class CutFilter {
    const coefficients: array<Coefficients>
    const bypassed: array<bool>

    ghost predicate Valid()
    {
      coefficients.Length == Stages && bypassed.Length == Stages
    }

    function State(): CutState
      reads coefficients, bypassed
    {
      CutState(coefficients[..], bypassed[..])
    }

    constructor ()
      ensures Valid() && fresh(coefficients) && fresh(bypassed)
      ensures State() == InitialCut()
    {
      coefficients := new Coefficients[Stages](_ => PassThrough);
      bypassed := new bool[Stages](_ => false);
    }

    /** update<Index>: copy sections[index] into stage index and enable it; no other stage changes. */
    method Update(index: nat, sections: seq<Coefficients>)
      requires Valid() && index < Stages && index < |sections|
      modifies coefficients, bypassed
      ensures coefficients[..] == old(coefficients[..])[index := sections[index]]
      ensures bypassed[..] == old(bypassed[..])[index := false]
    {
      coefficients[index] := sections[index];
      bypassed[index] := false;
    }

    /**
     * updateCutFilter: bypass all four stages, then enter the slope's case and
     * fall through to Slope_12, updating stages slope, ..., 1, 0.
     */
    method UpdateCutFilter(sections: seq<Coefficients>, slope: Slope)
      requires Valid() && Ordinal(slope) < |sections|
      modifies coefficients, bypassed
      ensures forall i :: 0 <= i < Stages ==> (bypassed[i] <==> Ordinal(slope) < i)
      ensures forall i :: 0 <= i <= Ordinal(slope) ==> coefficients[i] == sections[i]
      ensures forall i :: Ordinal(slope) < i < Stages ==> coefficients[i] == old(coefficients[i])
      ensures State() == Installed(old(State()), sections, slope)
    {
      bypassed[0] := true;
      bypassed[1] := true;
      bypassed[2] := true;
      bypassed[3] := true;

      var n := Ordinal(slope);
      if n >= 3 { Update(3, sections); }
      if n >= 2 { Update(2, sections); }
      if n >= 1 { Update(1, sections); }
      Update(0, sections);
    }
  }

  /** Low cut, peak and high cut in series, with the peak position's bypass flag. */
  class MonoChain {
    const lowCut: CutFilter
    var peakCoefficients: Coefficients
    var peakBypassed: bool
    const highCut: CutFilter

    ghost predicate Valid()
    {
      lowCut.Valid() && highCut.Valid() &&
      lowCut.coefficients != highCut.coefficients && lowCut.bypassed != highCut.bypassed
    }

    /** The objects whose state is the chain's state. */
    ghost function Repr(): set<object>
    {
      {this, lowCut.coefficients, lowCut.bypassed, highCut.coefficients, highCut.bypassed}
    }

    function State(): ChainState
      reads this, lowCut.coefficients, lowCut.bypassed, highCut.coefficients, highCut.bypassed
    {
      ChainState(lowCut.State(), peakCoefficients, peakBypassed, highCut.State())
    }

    constructor ()
      ensures Valid() && fresh(Repr())
      ensures State() == InitialChain()
    {
      lowCut := new CutFilter();
      highCut := new CutFilter();
      peakCoefficients := PassThrough;
      peakBypassed := false;
    }

    /** updateCoefficients on the peak position: its coefficient object takes the replacement's value. */
    method UpdatePeak(replacement: Coefficients)
      requires Valid()
      modifies this
      ensures Valid()
      ensures State() == WithPeak(old(State()), replacement)
    {
      peakCoefficients := replacement;
    }
  }
}
