/**
 * The audio processor: the host-facing bus-layout test, and the left and
 * right mono chains that every parameter snapshot is installed into.
 */
module Processor {
  import opened Settings
  import opened Parameters
  import opened Design
  import opened Chain

  // ---------------------------------------------------------------------------
  // Bus layouts

  datatype ChannelType = Left | Right | Centre | OtherChannel(code: nat)

  /** A channel set, compared by the channel types it holds. */
  datatype ChannelSet = ChannelSet(channels: set<ChannelType>)

  const MonoSet := ChannelSet({Centre})
  const StereoSet := ChannelSet({Left, Right})

  datatype BusesLayout = BusesLayout(mainInput: ChannelSet, mainOutput: ChannelSet)

  /** The build configuration the bus test depends on: whether the plugin is a MIDI effect or a synth. */
  datatype PluginKind = PluginKind(isMidiEffect: bool, isSynth: bool)

  /** This plugin: an audio effect with a stereo input and a stereo output bus. */
  const Effect := PluginKind(false, false)
  const DefaultLayout := BusesLayout(StereoSet, StereoSet)

  /**
   * isBusesLayoutSupported: a MIDI effect takes any layout; otherwise the
   * main output must be mono or stereo and, unless the plugin is a synth,
   * the main input must equal it.
   */
  function IsBusesLayoutSupported(layouts: BusesLayout, kind: PluginKind): (supported: bool)
    ensures supported <==>
      kind.isMidiEffect ||
      ((layouts.mainOutput == MonoSet || layouts.mainOutput == StereoSet) &&
       (kind.isSynth || layouts.mainInput == layouts.mainOutput))
  {
    if kind.isMidiEffect then true
    else if layouts.mainOutput != MonoSet && layouts.mainOutput != StereoSet then false
    else if !kind.isSynth && layouts.mainOutput != layouts.mainInput then false
    else true
  }

  /**
   * For this effect exactly the mono-to-mono and stereo-to-stereo layouts are
   * supported (the constructor's stereo layout among them), and in each the
   * input and output channel counts agree, so processBlock clears no channel.
   */
  lemma EffectLayouts(layouts: BusesLayout)
    ensures IsBusesLayoutSupported(layouts, Effect) <==>
      layouts == BusesLayout(MonoSet, MonoSet) || layouts == BusesLayout(StereoSet, StereoSet)
    ensures IsBusesLayoutSupported(layouts, Effect) ==>
      |layouts.mainInput.channels| == |layouts.mainOutput.channels| &&
      1 <= |layouts.mainOutput.channels| <= 2
    ensures IsBusesLayoutSupported(DefaultLayout, Effect)
    ensures !IsBusesLayoutSupported(BusesLayout(StereoSet, MonoSet), Effect)
  {
    assert |StereoSet.channels| == 2 by { assert StereoSet.channels == {Left} + {Right}; }
    assert StereoSet != MonoSet by { assert Left in StereoSet.channels && Left !in MonoSet.channels; }
  }

  // ---------------------------------------------------------------------------
  // The processor

  /** What readFromData decoded: a valid value tree holding parameter values, or an invalid one. */
  datatype ValueTree = InvalidTree | Tree(values: Store)

  /** AudioBuffer::clear(channel, 0, numSamples): zero one channel, leave the others. */
  method ClearChannel(buffer: array2<real>, channel: nat)
    requires channel < buffer.Length0
    modifies buffer
    ensures forall c, j :: 0 <= c < buffer.Length0 && 0 <= j < buffer.Length1 ==>
      buffer[c, j] == if c == channel then 0.0 else old(buffer[c, j])
  {
    var j := 0;
    while j < buffer.Length1
      invariant 0 <= j <= buffer.Length1
      invariant forall c, k :: 0 <= c < buffer.Length0 && 0 <= k < buffer.Length1 ==>
        buffer[c, k] == if c == channel && k < j then 0.0 else old(buffer[c, k])
    {
      buffer[channel, j] := 0.0;
      j := j + 1;
    }
  }

  class AudioProcessor {
    /** The parameter store's raw values. */
    var store: Store
    /** The host's sample rate (0 until prepareToPlay). */
    var sampleRate: real
    const leftChain: MonoChain
    const rightChain: MonoChain

    ghost function Repr(): set<object>
    {
      leftChain.Repr() + rightChain.Repr()
    }

    /**
     * The two chains are separate objects with no slot in common, always hold
     * the same coefficients and flags, never bypass the peak, and the store
     * holds every parameter in range.
     */
    ghost predicate Valid()
      reads this, Repr()
    {
      && leftChain.Valid() && rightChain.Valid()
      && leftChain.Repr() !! rightChain.Repr()
      && leftChain.State() == rightChain.State()
      && !leftChain.peakBypassed
      && ValidStore(store)
    }

    /** The store starts at the layout's defaults, the sample rate at 0, both chains as constructed. */
    constructor ()
      ensures Valid() && fresh(Repr())
      ensures IsDefaultStore(store) && sampleRate == 0.0
      ensures leftChain.State() == InitialChain()
    {
      store := StoreOf(LayoutDefaults);
      sampleRate := 0.0;
      leftChain := new MonoChain();
      rightChain := new MonoChain();
      new;
      DefaultStoreIsDefault();
      LayoutDefaultsRead(store);
    }

    /** updatePeakFilter: one peak design, copied into the peak slot of each chain; nothing else changes. */
    method UpdatePeakFilter(settings: ChainSettings, lib: Library)
      requires Valid()
      modifies leftChain, rightChain
      ensures Valid()
      ensures leftChain.State() == WithPeak(old(leftChain.State()), MakePeakFilter(settings, sampleRate, lib))
      ensures rightChain.State() == leftChain.State()
    {
      var peakCoefficients := MakePeakFilter(settings, sampleRate, lib);
      leftChain.UpdatePeak(peakCoefficients);
      rightChain.UpdatePeak(peakCoefficients);
    }

    /** updateLowCutFilters: one highpass design, installed into the low-cut cascade of each chain. */
    method UpdateLowCutFilters(settings: ChainSettings, lib: Library)
      requires Valid() && ValidLibrary(lib)
      modifies leftChain.lowCut.coefficients, leftChain.lowCut.bypassed
      modifies rightChain.lowCut.coefficients, rightChain.lowCut.bypassed
      ensures Valid()
      ensures leftChain.State() ==
        WithLowCut(old(leftChain.State()), MakeLowCutFilter(settings, sampleRate, lib), settings.lowCutSlope)
      ensures rightChain.State() == leftChain.State()
    {
      var lowCutCoefficients := MakeLowCutFilter(settings, sampleRate, lib);
      leftChain.lowCut.UpdateCutFilter(lowCutCoefficients, settings.lowCutSlope);
      rightChain.lowCut.UpdateCutFilter(lowCutCoefficients, settings.lowCutSlope);
    }

    /** updateHighCutFilters: one lowpass design, installed into the high-cut cascade of each chain. */
    method UpdateHighCutFilters(settings: ChainSettings, lib: Library)
      requires Valid() && ValidLibrary(lib)
      modifies leftChain.highCut.coefficients, leftChain.highCut.bypassed
      modifies rightChain.highCut.coefficients, rightChain.highCut.bypassed
      ensures Valid()
      ensures leftChain.State() ==
        WithHighCut(old(leftChain.State()), MakeHighCutFilter(settings, sampleRate, lib), settings.highCutSlope)
      ensures rightChain.State() == leftChain.State()
    {
      var highCutCoefficients := MakeHighCutFilter(settings, sampleRate, lib);
      leftChain.highCut.UpdateCutFilter(highCutCoefficients, settings.highCutSlope);
      rightChain.highCut.UpdateCutFilter(highCutCoefficients, settings.highCutSlope);
    }

    /** updateFilters: one snapshot of the store, applied low cut, peak, high cut to both chains. */
    method UpdateFilters(lib: Library)
      requires Valid() && ValidLibrary(lib)
      modifies Repr()
      ensures Valid()
      ensures leftChain.State() == Rebuilt(old(leftChain.State()), GetChainSettings(store), sampleRate, lib)
      ensures rightChain.State() == leftChain.State()
    {
      var settings := GetChainSettings(store);
      UpdateLowCutFilters(settings, lib);
      UpdatePeakFilter(settings, lib);
      UpdateHighCutFilters(settings, lib);
    }

    /** prepareToPlay: record the sample rate and rebuild both chains (resetting the filters' history is not modelled). */
    method PrepareToPlay(newSampleRate: real, samplesPerBlock: int, lib: Library)
      requires Valid() && ValidLibrary(lib)
      modifies this, Repr()
      ensures Valid() && store == old(store) && sampleRate == newSampleRate
      ensures leftChain.State() == Rebuilt(old(leftChain.State()), GetChainSettings(store), newSampleRate, lib)
    {
      sampleRate := newSampleRate;
      UpdateFilters(lib);
    }

    /**
     * processBlock up to the filtering: zero every output channel that has no
     * input channel, leave the others, then rebuild both chains from the store.
     * It reads channels 0 and 1, so the buffer must hold at least two.
     */
    method ProcessBlock(buffer: array2<real>, totalInputChannels: nat, totalOutputChannels: nat, lib: Library)
      requires Valid() && ValidLibrary(lib)
      requires 2 <= buffer.Length0 && totalOutputChannels <= buffer.Length0
      modifies buffer, Repr()
      ensures Valid()
      ensures forall c, j :: 0 <= c < buffer.Length0 && 0 <= j < buffer.Length1 ==>
        buffer[c, j] == if totalInputChannels <= c < totalOutputChannels then 0.0 else old(buffer[c, j])
      ensures leftChain.State() == Rebuilt(old(leftChain.State()), GetChainSettings(store), sampleRate, lib)
    {
      var i := totalInputChannels;
      while i < totalOutputChannels
        modifies buffer
        invariant totalInputChannels <= i && (i == totalInputChannels || i <= totalOutputChannels)
        invariant forall c, j :: 0 <= c < buffer.Length0 && 0 <= j < buffer.Length1 ==>
          buffer[c, j] == if totalInputChannels <= c < i then 0.0 else old(buffer[c, j])
      {
        ClearChannel(buffer, i);
        i := i + 1;
      }

      UpdateFilters(lib);
    }

    /** setStateInformation: an invalid tree changes nothing; a valid one replaces the store and rebuilds both chains. */
    method SetStateInformation(tree: ValueTree, lib: Library)
      requires Valid() && ValidLibrary(lib)
      requires tree.Tree? ==> ValidStore(tree.values)
      modifies this, Repr()
      ensures Valid() && sampleRate == old(sampleRate)
      ensures tree.InvalidTree? ==> store == old(store) && leftChain.State() == old(leftChain.State())
      ensures tree.Tree? ==> store == tree.values
      ensures tree.Tree? ==>
        leftChain.State() == Rebuilt(old(leftChain.State()), GetChainSettings(tree.values), sampleRate, lib)
    {
      if tree.Tree? {
        store := tree.values;
        UpdateFilters(lib);
      }
    }
  }
}
