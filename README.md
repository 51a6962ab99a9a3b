# OloEQ filter chain — a Dafny model

OloEQ is a three-band equalizer plugin: a low cut, a peak band and a high cut
in series, run on the left and right channels. The low and high cuts are
cascades of four filter stages. A slope choice of 12, 24, 36 or 48 dB/oct
enables one to four of those stages. The processor reads a snapshot of seven
parameters from its parameter store. It installs coefficients designed from
that snapshot into both channel chains. Each pixel column of the editor's
response curve is the product of the magnitudes of the stages that are not
bypassed. A timer tick rebuilds the curve's own chain when a parameter has
changed since the last tick.

The project has six modules:

- `Settings`: the slope enum, the `ChainSettings` snapshot, and the Butterworth order a slope asks for.
- `Parameters`: the parameter layout, the raw-value store keyed by parameter ID, and `GetChainSettings`.
- `Design`: coefficient sets as opaque values. The DSP library's design routines are function fields of `Library`, given by the caller.
- `Chain`: the `CutFilter` and `MonoChain` classes, which own arrays of coefficient slots and bypass flags and update them in place. The specification functions `Installed` and `Rebuilt` say what an update leaves behind.
- `Processor`: the bus-layout test, and the `AudioProcessor` class with its two chains, its update methods, the channel-clear loop of `processBlock` and `setStateInformation`.
- `Editor`: the response-curve component. It covers the dirty flag, as a class field and as runs of events, `timerCallback`, and the per-column magnitude loop of `paint`.

## Model

| member | source | states |
|---|---|---|
| Settings.Ordinal | Source/PluginProcessor.h:17-23 | the four slopes have enum values 0 to 3 |
| Settings.SlopeOfOrdinal | Source/PluginProcessor.cpp:172-173 | casting an index below 4 to the enum yields the slope with that value |
| Settings.OrdinalRoundTrip | Source/PluginProcessor.h:17-23 | casting a slope's value back to the enum returns the same slope |
| Settings.ButterworthOrderAsWritten | Source/PluginProcessor.h:89-101 | the order as written, 2*slope+1, is odd, lies between 1 and 7, and yields exactly slope+1 sections, one per stage the slope enables |
| Settings.AsWrittenRolloffMissesLabel | Source/PluginProcessor.h:89-101 | as written, every slope rolls off 6 dB/oct less than its label; Slope_12 gives 6 dB/oct |
| Settings.ButterworthOrder | Source/PluginProcessor.h:89-101 | the corrected order 2*(slope+1) is even, lies between 2 and 8, and yields slope+1 sections |
| Settings.RolloffMatchesLabel | Source/PluginProcessor.h:89-101 | the corrected order rolls off exactly the dB/oct its label names, and fills the same stages as the order as written |
| Settings.ButterworthOrderInjective | Source/PluginProcessor.h:89-101 | distinct slopes ask for distinct orders, both as written and corrected |
| Settings.DefaultChainSettings | Source/PluginProcessor.h:27-32 | a value-initialised snapshot has both cuts at the 12 dB/oct choice, quality 1, gain 0 dB, and every frequency at 0 |
| Parameters.SlopeChoiceLabel | Source/PluginProcessor.cpp:249 | label i ends in " db/Oct", everything before that is decimal digits, and those digits read as the number 12 + 12*i |
| Parameters.DecimalString | Source/PluginProcessor.cpp:249 | the decimal text of a number is non-empty and made only of digits |
| Parameters.DecimalRoundTrip | Source/PluginProcessor.cpp:249 | the decimal text of a number reads back as that number |
| Parameters.CreateParameterLayout | Source/PluginProcessor.cpp:227-255 | the layout holds the five float parameters (IDs, ranges, defaults), then the two slope choice parameters with the four labels built in the loop and default index 0 |
| Parameters.SlopeChoicesSpelled | Source/PluginProcessor.cpp:247-249 | the four labels are "12 db/Oct", "24 db/Oct", "36 db/Oct" and "48 db/Oct" |
| Parameters.SlopeChoicesNameTheirSlopes | Source/PluginProcessor.cpp:247-252 | choice i names the steepness of the slope with value i, and no two labels are equal |
| Parameters.GetChainSettings | Source/PluginProcessor.cpp:164-175 | the snapshot of a store that holds every parameter in range has all its numbers in range |
| Parameters.ParameterIdsDistinct | Source/PluginProcessor.cpp:232-252 | the seven parameter IDs are distinct |
| Parameters.SettingsRoundTrip | Source/PluginProcessor.cpp:164-175 | storing an in-range snapshot under the seven IDs gives a valid store, and reading it back gives the same snapshot |
| Parameters.StoreRoundTrip | Source/PluginProcessor.cpp:164-175 | storing the snapshot read from a valid store reproduces every parameter's value |
| Parameters.LayoutDefaultsRead | Source/PluginProcessor.cpp:232-252 | a store at the layout's defaults is valid and reads as 750 Hz, 0 dB, Q 1, low cut 20 Hz, high cut 20 kHz, both slopes 12 dB/oct |
| Parameters.DefaultSnapshotIsNoReading | Source/PluginProcessor.cpp:164-175 | the value-initialised snapshot is out of range, so getChainSettings on a valid store never returns it; each of the seven fields of the result equals the store's value for the parameter of the same name (the slopes as their choice index) |
| Parameters.DefaultStoreIsDefault | Source/PluginProcessor.cpp:232-252 | the store built from those defaults holds the default of every parameter |
| Design.DesignsReadOwnBand | Source/PluginProcessor.cpp:177-183 | makePeakFilter depends only on the peak frequency, quality and gain (with the sample rate); each cut design depends only on its own frequency and slope |
| Design.MakeLowCutFilter | Source/PluginProcessor.h:89-94 | the highpass design at the low-cut frequency, of the order as written, returns exactly one section per stage the low-cut slope enables |
| Design.MakeHighCutFilter | Source/PluginProcessor.h:96-101 | the lowpass design at the high-cut frequency, of the order as written, returns exactly one section per stage the high-cut slope enables |
| Design.CorrectedDesignsFillSameStages | Source/PluginProcessor.h:89-101 | designs at the corrected order would return as many sections as the designs as written, so they would fill the same stages |
| Chain.Installed | Source/PluginProcessor.h:68-85 | the state of a cascade after an update is well formed: four slots and four flags |
| Chain.PrefixEnabled | Source/PluginProcessor.h:68-85 | a cascade whose first k stages are enabled and the rest bypassed has k active stages, holding the first k coefficient sets |
| Chain.InstalledActiveStages | Source/PluginProcessor.h:68-85 | after updateCutFilter exactly slope+1 stages are active, holding sections 0 to slope in order, whatever they held before |
| Chain.InstalledForgetsHistory | Source/PluginProcessor.h:68-85 | a repeated update changes nothing; the bypass flags depend only on the slope, and the active slots only on the sections |
| Chain.Rebuilt | Source/PluginProcessor.cpp:216-223 | a chain rebuilt from a snapshot is well formed |
| Chain.BandUpdatesCommute | Source/PluginEditor.cpp:88-97 | the editor's order (peak, low cut, high cut) leaves the same chain as the processor's order (low cut, peak, high cut) and keeps the peak bypass flag |
| Chain.CutFilter.constructor | Source/PluginProcessor.h:41 | a new cascade has four pass-through stages, none bypassed |
| Chain.CutFilter.Update | Source/PluginProcessor.h:61-66 | update<Index> copies section Index into stage Index and enables it; no other slot or flag changes |
| Chain.CutFilter.UpdateCutFilter | Source/PluginProcessor.h:68-85 | afterwards stage i is bypassed exactly when i > slope; stages 0 to slope hold sections 0 to slope; higher stages keep their old coefficients; the new state is Installed(old state, sections, slope) |
| Chain.MonoChain.constructor | Source/PluginProcessor.h:42 | a new chain is pass-through everywhere, nothing bypassed |
| Chain.MonoChain.UpdatePeak | Source/PluginProcessor.cpp:195-198 | updateCoefficients on the peak position replaces the peak coefficients by value and changes nothing else |
| Processor.IsBusesLayoutSupported | Source/PluginProcessor.cpp:89-108 | a MIDI effect takes any layout; otherwise a layout is accepted exactly when the main output is mono or stereo and, unless the plugin is a synth, the main input equals it |
| Processor.EffectLayouts | Source/PluginProcessor.cpp:15-27 | for this effect exactly mono/mono and stereo/stereo are accepted, so input and output channel counts agree and lie between 1 and 2; the constructor's stereo layout is accepted and stereo-in/mono-out is rejected |
| Processor.ClearChannel | Source/PluginProcessor.cpp:121 | clearing a channel zeroes every sample of it and leaves the other channels unchanged |
| Processor.AudioProcessor.constructor | Source/PluginProcessor.h:146-151 | the store starts at every parameter's default, the sample rate at 0, and both chains as constructed (the store from the apvts initialiser at h:147, the chains from h:151; the bus properties of cpp:15-27 are Processor.EffectLayouts) |
| Processor.AudioProcessor.UpdatePeakFilter | Source/PluginProcessor.cpp:187-193 | one peak design goes into the peak slot of both chains; the chains stay equal and nothing else changes |
| Processor.AudioProcessor.UpdateLowCutFilters | Source/PluginProcessor.cpp:200-206 | one highpass design is installed into the low-cut cascade of both chains; the chains stay equal |
| Processor.AudioProcessor.UpdateHighCutFilters | Source/PluginProcessor.cpp:208-214 | one lowpass design is installed into the high-cut cascade of both chains; the chains stay equal |
| Processor.AudioProcessor.UpdateFilters | Source/PluginProcessor.cpp:216-223 | both chains become Rebuilt from one snapshot of the store, and they stay equal |
| Processor.AudioProcessor.PrepareToPlay | Source/PluginProcessor.cpp:71-82 | the new sample rate is recorded and both chains are rebuilt at that rate; the store is unchanged |
| Processor.AudioProcessor.ProcessBlock | Source/PluginProcessor.cpp:113-123 | exactly the output channels from totalInputChannels up to totalOutputChannels are zeroed, every other sample is unchanged, then both chains are rebuilt from the store |
| Processor.AudioProcessor.SetStateInformation | Source/PluginProcessor.cpp:152-160 | an invalid tree changes neither the store nor the chains; a valid tree replaces the store and rebuilds both chains from it |
| Editor.RebuildsAtMostChanges | Source/PluginEditor.cpp:78-101 | over any run of notifications and ticks, rebuilds plus a still-pending flag never exceed the number of parameter changes |
| Editor.ChangeReachesNextTick | Source/PluginEditor.cpp:78-101 | no change is lost: the first tick after a change finds the flag set and rebuilds |
| Editor.NoChangeNoRebuild | Source/PluginEditor.cpp:62-69 | before the first parameter change no tick has rebuilt and the flag is clear |
| Editor.IdleTickDoesNothing | Source/PluginEditor.cpp:84-101 | after a tick the flag is clear, so a second tick with no change in between does not rebuild |
| Editor.StageListEntries | Source/PluginEditor.cpp:138-157 | the nine stages that paint visits are the peak, then low-cut stages 0 to 3, then high-cut stages 0 to 3 |
| Editor.AccumulatedIsActiveProduct | Source/PluginEditor.cpp:135-157 | after k stages, the running value of the column loop is the product of the magnitudes of the enabled stages among the first k |
| Editor.AllBypassedIsUnity | Source/PluginEditor.cpp:135-157 | with every stage bypassed no magnitude is multiplied in and the column's magnitude is 1 |
| Editor.BypassedStagesDoNotCount | Source/PluginEditor.cpp:138-157 | stage lists with the same bypass flags and the same coefficients at every enabled stage give the same magnitudes, whatever the bypassed stages hold |
| Editor.RebuiltChainsAgree | Source/PluginEditor.cpp:84-101 | the editor's chain and a processor chain, rebuilt from equal snapshots, agree in every flag, the peak and every enabled slot, and so draw the same magnitude at every frequency |
| Editor.ColumnPosition | Source/PluginEditor.cpp:136 | a column's normalised position i/w lies in [0, 1) |
| Editor.ColumnsIncrease | Source/PluginEditor.cpp:133-136 | column 0 is at position 0, and positions strictly increase from left to right |
| Editor.ResponseCurve.constructor | Source/PluginEditor.h:50-52 | the flag starts clear, no repaint has been requested and the chain is as constructed; the class invariant keeps the chain as constructed until the first parameter change, whatever the store holds |
| Editor.ResponseCurve.ParameterValueChanged | Source/PluginEditor.cpp:78-82 | whatever parameter changed and whatever its new value, the flag is set and the chain is untouched |
| Editor.ResponseCurve.TimerCallback | Source/PluginEditor.cpp:84-101 | the result is the old flag, and the flag ends clear; if it was set, the chain becomes Rebuilt from one snapshot of the store and one repaint is requested; otherwise nothing changes |
| Editor.ResponseCurve.ColumnMagnitude | Source/PluginEditor.cpp:135-157 | a column's magnitude is the product over exactly the enabled stages of the chain |
| Editor.ResponseCurve.CascadeMagnitude | Source/PluginEditor.cpp:141-157 | the four ifs of one cascade extend the running product by that cascade's enabled stages |
| Editor.ResponseCurve.ResponseMagnitudes | Source/PluginEditor.cpp:120-160 | a width of 0 or less yields nothing; otherwise there is one entry per column, and column i is the chain magnitude in decibels at the frequency of position i/w |

## Left out

- Numbers are mathematical reals: 32-bit float rounding, and the float casts in the magnitude loop, are not modelled.
- The DSP library's design formulas are parameters of the model. This covers makePeakFilter, the Butterworth designs, decibelsToGain, gainToDecibels, getMagnitudeForFrequency and mapToLog10. Only the section count the Butterworth designs return is assumed, as a precondition on the `Library` value.
- Editor.ColumnsIncrease: states the order of the normalised positions only. That column 0 maps to 20 Hz, and that frequencies increase across columns, depends on the floating-point logarithm and power functions, which are not modelled.
- Filtering the samples (the `process` calls in processBlock) and resetting filter history in prepareToPlay are left out. The model covers coefficients and bypass flags only.
- Processor.AudioProcessor.PrepareToPlay: the code stores no sample rate; updateFilters reads the host's getSampleRate(), which the host sets before calling prepareToPlay. The model folds that host step in: it assumes the argument equals getSampleRate() and records it in `sampleRate`.
- Processor.AudioProcessor.ProcessBlock: requires a buffer of at least two channels, because the code takes channel blocks 0 and 1 unconditionally. A mono buffer is not modelled.
- The atomics and threading are left out: the editor's flag is an `Atomic<bool>`, and the processor's store is read by the audio and message threads. Each call is modelled as one atomic step.
- Parameter snapping to the range's interval, and the skew factor, are stored but have no effect. The store holds raw values within their bounds.
- Value-tree serialisation (getStateInformation, readFromData), and the replaceState handling of missing or out-of-range values, are left out. setStateInformation receives a decoded tree whose values form a valid store.
- Listener registration, window layout, the look and feel, slider attachments and drawing the curve path are user-interface code and are not part of this model.
- The compile-time configuration flags (MIDI effect, synth) are a `PluginKind` value; this plugin is `Effect`.
- Design.MakeLowCutFilter and Design.MakeHighCutFilter pass the order as written, 2 * slope + 1, as the code does. The order the labels call for is Settings.ButterworthOrder (see Findings). Design.CorrectedDesignsFillSameStages shows it would fill the same stages, so the chain-level contracts would hold for it too.

## Findings

| source | as written | input that shows it | evidently intended | confidence | as-written member | corrected member |
|---|---|---|---|---|---|---|
| Source/PluginProcessor.h:89-101 | the Butterworth order passed to the design is 2 * slope + 1, giving orders 1, 3, 5, 7 and roll-offs of 6, 18, 30 and 42 dB/oct | Slope_12 (choice "12 db/Oct") designs an order-1 filter, which rolls off 6 dB/oct | order 2 * (slope + 1): orders 2, 4, 6, 8, rolling off 12, 24, 36 and 48 dB/oct as the labels say, with the same number of sections | medium, not executed | Settings.AsWrittenRolloffMissesLabel | Settings.RolloffMatchesLabel |
