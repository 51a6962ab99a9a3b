/**
 * The response-curve component: a dirty flag that any parameter change sets
 * and each timer tick tests and clears, a private mono chain that a tick
 * rebuilds, and the per-column magnitude computation of its paint routine.
 */
module Editor {
  import opened Settings
  import opened Parameters
  import opened Design
  import opened Chain

  // ---------------------------------------------------------------------------
  // The dirty flag, as a run of events

  datatype Event = ParameterChanged | TimerTick

  /** The flag after a run of events from construction: set by a change, cleared by a tick. */
  function FlagAfter(trace: seq<Event>): bool
  {
    if trace == [] then false
    else match trace[|trace| - 1]
      case ParameterChanged => true
      case TimerTick => false
  }

  /** The number of ticks in the run that found the flag set, and so rebuilt the chain and repainted. */
  function Rebuilds(trace: seq<Event>): nat
  {
    if trace == [] then 0
    else
      var before := trace[..|trace| - 1];
      Rebuilds(before) + (if trace[|trace| - 1] == TimerTick && FlagAfter(before) then 1 else 0)
  }

  /** The number of parameter changes in the run. */
  function Changes(trace: seq<Event>): nat
  {
    if trace == [] then 0
    else Changes(trace[..|trace| - 1]) + (if trace[|trace| - 1] == ParameterChanged then 1 else 0)
  }

  /** Never more rebuilds than changes: a rebuild consumes a change, and a pending flag stands for one more. */
  lemma {:induction false} RebuildsAtMostChanges(trace: seq<Event>)
    ensures Rebuilds(trace) + (if FlagAfter(trace) then 1 else 0) <= Changes(trace)
  {
    if trace != [] {
      RebuildsAtMostChanges(trace[..|trace| - 1]);
    }
  }

  /** No change is lost: the first tick after a change (with only changes between) rebuilds. */
  lemma ChangeReachesNextTick(trace: seq<Event>, k: nat, j: nat)
    requires k < j < |trace| && trace[k] == ParameterChanged && trace[j] == TimerTick
    requires forall m :: k < m < j ==> trace[m] == ParameterChanged
    ensures FlagAfter(trace[..j])
    ensures Rebuilds(trace[..j + 1]) == Rebuilds(trace[..j]) + 1
  {
    assert trace[..j + 1][..j] == trace[..j];
    assert trace[..j][j - 1] == trace[j - 1];
  }

  /** Before the first parameter change no tick rebuilds and the flag is clear. */
  lemma {:induction false} NoChangeNoRebuild(trace: seq<Event>)
    requires Changes(trace) == 0
    ensures Rebuilds(trace) == 0 && !FlagAfter(trace)
  {
    if trace != [] {
      NoChangeNoRebuild(trace[..|trace| - 1]);
    }
  }

  /** After a tick the flag is clear, so a second tick with no change between does nothing. */
  lemma IdleTickDoesNothing(trace: seq<Event>)
    ensures !FlagAfter(trace + [TimerTick])
    ensures Rebuilds(trace + [TimerTick, TimerTick]) == Rebuilds(trace + [TimerTick])
  {
    assert (trace + [TimerTick, TimerTick])[..|trace| + 1] == trace + [TimerTick];
  }

  // ---------------------------------------------------------------------------
  // Magnitude composition

  /** One stage as paint sees it. */
  datatype Stage = Stage(coefficients: Coefficients, bypassed: bool)

  /** The nine stages in the order paint visits them: peak, low cut 0..3, high cut 0..3. */
  function StageList(st: ChainState): (stages: seq<Stage>)
    requires WellFormedChain(st)
    ensures |stages| == 1 + 2 * Stages
  {
    [Stage(st.peak, st.peakBypassed)]
    + seq(Stages, i requires 0 <= i < Stages => Stage(st.lowCut.coefficients[i], st.lowCut.bypassed[i]))
    + seq(Stages, i requires 0 <= i < Stages => Stage(st.highCut.coefficients[i], st.highCut.bypassed[i]))
  }

  /** getMagnitudeForFrequency(frequency, sampleRate) of a coefficient set, as the library computes it. */
  type MagnitudeFunction = (Coefficients, real, real) -> real

  /** The magnitudes of the stages that are not bypassed, in stage order. */
  function ActiveMagnitudes(stages: seq<Stage>, magnitudeAt: MagnitudeFunction, freq: real, sampleRate: real): seq<real>
  {
    if stages == [] then []
    else
      var last := stages[|stages| - 1];
      ActiveMagnitudes(stages[..|stages| - 1], magnitudeAt, freq, sampleRate)
      + (if last.bypassed then [] else [magnitudeAt(last.coefficients, freq, sampleRate)])
  }

  function Product(xs: seq<real>): real
  {
    if xs == [] then 1.0 else Product(xs[..|xs| - 1]) * xs[|xs| - 1]
  }

  /** The chain's magnitude at a frequency: the product over exactly the stages that are not bypassed. */
  function ChainMagnitude(st: ChainState, magnitudeAt: MagnitudeFunction, freq: real, sampleRate: real): real
    requires WellFormedChain(st)
  {
    Product(ActiveMagnitudes(StageList(st), magnitudeAt, freq, sampleRate))
  }

  /** Where each slot of the chain sits in the stage list. */
  lemma StageListEntries(st: ChainState)
    requires WellFormedChain(st)
    ensures StageList(st)[0] == Stage(st.peak, st.peakBypassed)
    ensures forall i :: 0 <= i < Stages ==> StageList(st)[1 + i] == Stage(st.lowCut.coefficients[i], st.lowCut.bypassed[i])
    ensures forall i :: 0 <= i < Stages ==> StageList(st)[1 + Stages + i] == Stage(st.highCut.coefficients[i], st.highCut.bypassed[i])
  {
  }

  /**
   * The running value of paint's column loop after the first k stages:
   * start at 1 and multiply in each stage that is not bypassed.
   */
  function Accumulated(stages: seq<Stage>, k: nat, magnitudeAt: MagnitudeFunction, freq: real, sampleRate: real): real
    requires k <= |stages|
  {
    if k == 0 then 1.0
    else
      var mag := Accumulated(stages, k - 1, magnitudeAt, freq, sampleRate);
      if stages[k - 1].bypassed then mag else mag * magnitudeAt(stages[k - 1].coefficients, freq, sampleRate)
  }

  /** The running value after k stages is the product over the enabled stages among the first k. */
  lemma {:induction false} AccumulatedIsActiveProduct(stages: seq<Stage>, k: nat, magnitudeAt: MagnitudeFunction, freq: real, sampleRate: real)
    requires k <= |stages|
    ensures Accumulated(stages, k, magnitudeAt, freq, sampleRate) == Product(ActiveMagnitudes(stages[..k], magnitudeAt, freq, sampleRate))
  {
    if k > 0 {
      AccumulatedIsActiveProduct(stages, k - 1, magnitudeAt, freq, sampleRate);
      assert stages[..k][..k - 1] == stages[..k - 1];
      var xs := ActiveMagnitudes(stages[..k - 1], magnitudeAt, freq, sampleRate);
      if !stages[k - 1].bypassed {
        var m := magnitudeAt(stages[k - 1].coefficients, freq, sampleRate);
        assert ActiveMagnitudes(stages[..k], magnitudeAt, freq, sampleRate) == xs + [m];
        assert (xs + [m])[..|xs|] == xs;
      } else {
        assert ActiveMagnitudes(stages[..k], magnitudeAt, freq, sampleRate) == xs;
      }
    }
  }

  /** With every stage bypassed the magnitude is 1. */
  lemma {:induction false} AllBypassedIsUnity(stages: seq<Stage>, magnitudeAt: MagnitudeFunction, freq: real, sampleRate: real)
    requires forall i :: 0 <= i < |stages| ==> stages[i].bypassed
    ensures ActiveMagnitudes(stages, magnitudeAt, freq, sampleRate) == []
    ensures Product(ActiveMagnitudes(stages, magnitudeAt, freq, sampleRate)) == 1.0
  {
    if stages != [] {
      AllBypassedIsUnity(stages[..|stages| - 1], magnitudeAt, freq, sampleRate);
    }
  }

  /**
   * Only enabled stages count: two stage lists with the same bypass flags and
   * the same coefficients wherever a stage is enabled have the same magnitudes,
   * whatever the bypassed stages hold.
   */
  lemma {:induction false} BypassedStagesDoNotCount(s: seq<Stage>, t: seq<Stage>, magnitudeAt: MagnitudeFunction, freq: real, sampleRate: real)
    requires |s| == |t|
    requires forall i :: 0 <= i < |s| ==> s[i].bypassed == t[i].bypassed
    requires forall i :: 0 <= i < |s| && !s[i].bypassed ==> s[i].coefficients == t[i].coefficients
    ensures ActiveMagnitudes(s, magnitudeAt, freq, sampleRate) == ActiveMagnitudes(t, magnitudeAt, freq, sampleRate)
  {
    if s != [] {
      BypassedStagesDoNotCount(s[..|s| - 1], t[..|t| - 1], magnitudeAt, freq, sampleRate);
    }
  }

  /**
   * The visualisation chain and a processor chain, rebuilt from equal
   * settings, agree in every bypass flag and in every enabled stage's
   * coefficients, and so draw the same magnitude at every frequency, whatever
   * each held before.
   */
  lemma RebuiltChainsAgree(viz: ChainState, proc: ChainState, settings: ChainSettings, sampleRate: real, lib: Library,
                           magnitudeAt: MagnitudeFunction, freq: real)
    requires WellFormedChain(viz) && WellFormedChain(proc) && ValidLibrary(lib)
    requires viz.peakBypassed == proc.peakBypassed
    ensures
      var v := Rebuilt(viz, settings, sampleRate, lib);
      var p := Rebuilt(proc, settings, sampleRate, lib);
      && v.lowCut.bypassed == p.lowCut.bypassed && v.highCut.bypassed == p.highCut.bypassed
      && v.peak == p.peak && v.peakBypassed == p.peakBypassed
      && (forall i :: 0 <= i < Stages && !v.lowCut.bypassed[i] ==> v.lowCut.coefficients[i] == p.lowCut.coefficients[i])
      && (forall i :: 0 <= i < Stages && !v.highCut.bypassed[i] ==> v.highCut.coefficients[i] == p.highCut.coefficients[i])
      && ChainMagnitude(v, magnitudeAt, freq, sampleRate) == ChainMagnitude(p, magnitudeAt, freq, sampleRate)
  {
    var v := Rebuilt(viz, settings, sampleRate, lib);
    var p := Rebuilt(proc, settings, sampleRate, lib);
    var sv, sp := StageList(v), StageList(p);
    forall i | 0 <= i < |sv| ensures sv[i].bypassed == sp[i].bypassed {
    }
    forall i | 0 <= i < |sv| && !sv[i].bypassed ensures sv[i].coefficients == sp[i].coefficients {
    }
    BypassedStagesDoNotCount(sv, sp, magnitudeAt, freq, sampleRate);
  }

  /** Column i of a w-pixel curve is evaluated at normalised position i / w. */
  function ColumnPosition(i: nat, width: nat): (x: real)
    requires i < width
    ensures 0.0 <= x < 1.0
  {
    i as real / width as real
  }

  /** Columns run left to right from position 0, the minimum frequency, in strictly increasing order. */
  lemma ColumnsIncrease(i: nat, j: nat, width: nat)
    requires i < j < width
    ensures ColumnPosition(0, width) == 0.0
    ensures ColumnPosition(i, width) < ColumnPosition(j, width)
  {
    var w := width as real;
    assert ColumnPosition(i, width) * w == i as real;
    assert ColumnPosition(j, width) * w == j as real;
  }

  // ---------------------------------------------------------------------------

  /** The response-curve component. */
  class ResponseCurve {
    /** Set by any parameter change, consumed by the timer. */
    var parametersChanged: bool
    /** The component's own chain, separate from the processor's. */
    const monoChain: MonoChain
    /** How many repaints the component has requested. */
    var repaintRequests: nat
    /** The notifications and ticks seen since construction. */
    ghost var history: seq<Event>

    ghost predicate Valid()
      reads this, monoChain.Repr()
    {
      && monoChain.Valid() && !monoChain.peakBypassed
      && parametersChanged == FlagAfter(history)
      && repaintRequests == Rebuilds(history)
      && (Changes(history) == 0 ==> monoChain.State() == InitialChain())
    }

    /** The flag starts clear and the chain as constructed. */
    constructor ()
      ensures Valid() && fresh(monoChain.Repr())
      ensures history == [] && !parametersChanged && repaintRequests == 0
      ensures monoChain.State() == InitialChain()
    {
      parametersChanged := false;
      monoChain := new MonoChain();
      repaintRequests := 0;
      history := [];
    }

    /** parameterValueChanged: whichever parameter changed and to whatever value, the flag is set. */
    method ParameterValueChanged(parameterIndex: int, newValue: real)
      requires Valid()
      modifies this
      ensures Valid()
      ensures parametersChanged && history == old(history) + [ParameterChanged]
      ensures repaintRequests == old(repaintRequests)
      ensures monoChain.State() == old(monoChain.State())
    {
      parametersChanged := true;
      history := history + [ParameterChanged];
    }

    /**
     * timerCallback: test and clear the flag; if it was set, rebuild the
     * chain from one snapshot of the store (peak, then low cut, then high cut)
     * and repaint. The result says whether it rebuilt.
     */
    method TimerCallback(store: Store, sampleRate: real, lib: Library) returns (rebuilt: bool)
      requires Valid() && ValidStore(store) && ValidLibrary(lib)
      modifies this, monoChain.Repr()
      ensures Valid()
      ensures rebuilt == old(parametersChanged) && !parametersChanged
      ensures history == old(history) + [TimerTick]
      ensures repaintRequests == old(repaintRequests) + (if rebuilt then 1 else 0)
      ensures monoChain.State() ==
        if rebuilt then Rebuilt(old(monoChain.State()), GetChainSettings(store), sampleRate, lib)
        else old(monoChain.State())
    {
      // compareAndSetBool(false, true): clear the flag if it is set and report whether it was
      rebuilt := parametersChanged;
      if parametersChanged {
        parametersChanged := false;
      }

      if rebuilt {
        var chainSettings := GetChainSettings(store);

        var peakCoefficients := MakePeakFilter(chainSettings, sampleRate, lib);
        monoChain.UpdatePeak(peakCoefficients);

        var lowCutCoefficients := MakeLowCutFilter(chainSettings, sampleRate, lib);
        var highCutCoefficients := MakeHighCutFilter(chainSettings, sampleRate, lib);

        monoChain.lowCut.UpdateCutFilter(lowCutCoefficients, chainSettings.lowCutSlope);
        monoChain.highCut.UpdateCutFilter(highCutCoefficients, chainSettings.highCutSlope);

        repaintRequests := repaintRequests + 1;
        BandUpdatesCommute(old(monoChain.State()), chainSettings, sampleRate, lib);
      }
      assert (history + [TimerTick])[..|history|] == history;
      history := history + [TimerTick];
    }

    /** One column of paint: the product of the magnitudes of the enabled stages among the nine. */
    method ColumnMagnitude(freq: real, sampleRate: real, magnitudeAt: MagnitudeFunction) returns (mag: real)
      requires Valid()
      ensures mag == ChainMagnitude(monoChain.State(), magnitudeAt, freq, sampleRate)
    {
      ghost var stages := StageList(monoChain.State());
      StageListEntries(monoChain.State());

      mag := 1.0;
      if !monoChain.peakBypassed {
        mag := mag * magnitudeAt(monoChain.peakCoefficients, freq, sampleRate);
      }
      mag := CascadeMagnitude(monoChain.lowCut, mag, stages, 1, magnitudeAt, freq, sampleRate);
      mag := CascadeMagnitude(monoChain.highCut, mag, stages, 1 + Stages, magnitudeAt, freq, sampleRate);

      AccumulatedIsActiveProduct(stages, |stages|, magnitudeAt, freq, sampleRate);
      assert stages[..|stages|] == stages;
    }

    /** The four stages of one cascade in paint's column loop: multiply in each stage that is not bypassed. */
    static method CascadeMagnitude(cut: CutFilter, mag: real, ghost stages: seq<Stage>, ghost offset: nat,
                                   magnitudeAt: MagnitudeFunction, freq: real, sampleRate: real) returns (r: real)
      requires cut.Valid() && offset + Stages <= |stages|
      requires forall i :: 0 <= i < Stages ==> stages[offset + i] == Stage(cut.coefficients[i], cut.bypassed[i])
      requires mag == Accumulated(stages, offset, magnitudeAt, freq, sampleRate)
      ensures r == Accumulated(stages, offset + Stages, magnitudeAt, freq, sampleRate)
    {
      r := mag;
      if !cut.bypassed[0] { r := r * magnitudeAt(cut.coefficients[0], freq, sampleRate); }
      assert r == Accumulated(stages, offset + 1, magnitudeAt, freq, sampleRate) by { assert stages[offset + 0] == Stage(cut.coefficients[0], cut.bypassed[0]); }
      if !cut.bypassed[1] { r := r * magnitudeAt(cut.coefficients[1], freq, sampleRate); }
      assert r == Accumulated(stages, offset + 2, magnitudeAt, freq, sampleRate) by { assert stages[offset + 1] == Stage(cut.coefficients[1], cut.bypassed[1]); }
      if !cut.bypassed[2] { r := r * magnitudeAt(cut.coefficients[2], freq, sampleRate); }
      assert r == Accumulated(stages, offset + 3, magnitudeAt, freq, sampleRate) by { assert stages[offset + 2] == Stage(cut.coefficients[2], cut.bypassed[2]); }
      if !cut.bypassed[3] { r := r * magnitudeAt(cut.coefficients[3], freq, sampleRate); }
      assert stages[offset + 3] == Stage(cut.coefficients[3], cut.bypassed[3]);
    }

    /**
     * The magnitude loop of paint: nothing for a width of 0 or less; otherwise
     * one entry per pixel column, column i being the chain's magnitude at the
     * frequency of position i / width, converted to decibels.
     */
    method ResponseMagnitudes(width: int, sampleRate: real, magnitudeAt: MagnitudeFunction,
                              frequencyAt: real -> real, gainToDecibels: real -> real) returns (mags: seq<real>)
      requires Valid()
      ensures width <= 0 ==> mags == []
      ensures width > 0 ==> |mags| == width
      ensures forall i :: 0 <= i < |mags| ==>
        mags[i] == gainToDecibels(ChainMagnitude(monoChain.State(), magnitudeAt, frequencyAt(ColumnPosition(i, |mags|)), sampleRate))
    {
      if width <= 0 {
        return [];
      }

      var buffer := new real[width](_ => 1.0);
      var i := 0;
      while i < width
        invariant 0 <= i <= width
        invariant forall k :: 0 <= k < i ==>
          buffer[k] == gainToDecibels(ChainMagnitude(monoChain.State(), magnitudeAt, frequencyAt(ColumnPosition(k, width)), sampleRate))
      {
        var freq := frequencyAt(ColumnPosition(i, width));
        var mag := ColumnMagnitude(freq, sampleRate, magnitudeAt);
        buffer[i] := gainToDecibels(mag);
        i := i + 1;
      }
      mags := buffer[..];
    }
  }
}
