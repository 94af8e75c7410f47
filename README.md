# Compressor engine of CompressorAudioProcessor

A Dafny model of the signal path of the GCUAudio Compressor plugin. The
plugin is a JUCE audio processor. It has four parameters: threshold (dB),
ratio, attack (ms) and release (ms). `parameterChanged` turns the attack time
into the attack coefficient and, on a release change, also into the release
coefficient (see below); the release time itself never enters a coefficient.
`processBlock` runs every
input channel of an audio buffer through a hard-knee gain computer and an
attack/release smoother, sample by sample, in place. It keeps one smoothed
gain change in dB per channel (`gainSmoothPrev`) from one block to the next.

The project has three modules:

- `MathPrimitives` (primitives.dfy). The numeric functions the plugin calls
  but does not define: `juce::Decibels::gainToDecibels`, `decibelsToGain`,
  `expf` and `log`. They are function values. The proofs rely only on the
  facts collected in `Primitives.Lawful()`.
- `Engine` (engine.dfy). The arithmetic as pure functions over exact reals:
  `MsToSeconds`, the smoothing coefficient, the parameter dispatch, the static
  characteristic, the gain change, the smoother and one sample step. `Run` is
  the reference definition of one channel processed over a block. The module
  also holds the lemmas about these functions.
- `Processor` (processor.dfy). The class `CompressorAudioProcessor`. It has
  the fields of the C++ class, with `gainSmoothPrev` as a two-element array.
  `ParameterChanged` updates the fields in place. `ProcessBlock` works in
  place on an `AudioBuffer` object through the same loops as the source. Each
  method is proved against the `Engine` functions.

Behaviour of the source that the model keeps as written:

- The release coefficient is computed from the attack time
  (Source/PluginProcessor.cpp:242). It is not computed from the release time.
- Compression starts strictly above the threshold (`x_dB > mThreshold`). At
  equality both branches give the same value.
- The code adds no floor of its own: the level in dB is whatever
  `gainToDecibels` returns.
- A zero attack time or a zero sample rate makes the source divide by zero;
  the coefficient is then 0 under IEEE arithmetic, and the model returns 0.
- Coefficients are not recomputed when the sample rate changes. Only
  `parameterChanged` computes them, so after a rate change they keep the old
  rate until the next parameter change.

## Model

| member | source | states |
|---|---|---|
| Engine.MsToSeconds | Source/PluginProcessor.cpp:247-250 | the result in seconds times 1000 gives back the milliseconds |
| Engine.SmoothingCoefficient | Source/PluginProcessor.cpp:233-243 | exp(-log 9 / (sampleRate * seconds)) lies in [0, 1] for non-negative rate and time; it is 0 when the rate or the time is 0 (the division by zero of the source) |
| Engine.ApplyParameter | Source/PluginProcessor.cpp:221-245 | each field changes only under its own identifier, and it takes the new value; "attack" sets alphaA from the new attack time; "release" sets alphaR from the current ATTACK time; unknown identifiers change nothing; changes within the declared ranges keep both coefficients in [0, 1] |
| Engine.InDeclaredRange | Source/PluginProcessor.cpp:23-26 | only the four registered parameters have a range; a threshold in range is at most 0 dB, and a ratio, attack or release in range is non-negative |
| Engine.StaticCharacteristic | Source/PluginProcessor.cpp:160-164 | at or below the threshold the target level is the input level |
| Engine.GainChange | Source/PluginProcessor.cpp:160-166 | at or below the threshold the gain change is 0 dB |
| Engine.Abs | Source/PluginProcessor.cpp:155 | fabs: the result is non-negative and is x or -x |
| Engine.StaticCharacteristicSlope | Source/PluginProcessor.cpp:161-162 | above the threshold the output exceeds the threshold by (input - threshold) / ratio, and stays above the threshold |
| Engine.GainChangeSign | Source/PluginProcessor.cpp:161-166 | above the threshold the gain change is (x - t)(1/r - 1); for ratio >= 1 it is never positive; for ratio < 1 above the threshold it is a boost |
| Engine.GainChangeZeroIff | Source/PluginProcessor.cpp:161-166 | for any ratio other than 1, the gain change is 0 exactly when the level is at or below the threshold |
| Engine.GainChangeAntitoneInRatio | Source/PluginProcessor.cpp:161-166 | a larger ratio never asks for less reduction |
| Engine.Smooth | Source/PluginProcessor.cpp:171-173 | the one-pole update (1 - alpha) * target + alpha * prev that both branches use; no contract of its own, its meaning is SmoothGap |
| Engine.Envelope | Source/PluginProcessor.cpp:170-173 | the attack/release choice on g < prev followed by Smooth; no contract of its own, its meaning is EnvelopeGap and the monotonicity lemmas |
| Engine.Level | Source/PluginProcessor.cpp:155-156 | gainToDecibels of fabs of the sample; no contract of its own |
| Engine.Step | Source/PluginProcessor.cpp:154-180 | one iteration of the sample loop: level, gain change, Envelope, output = decibelsToGain(envelope) * input; no contract of its own, its properties are StepStaysNonPositive, StepAttenuates, StepRatioMonotone and ReleaseBelowThreshold |
| Engine.SmoothGap | Source/PluginProcessor.cpp:171-173 | one-pole smoothing moves prev toward the target by the factor alpha; for alpha in [0, 1] the result lies between the two |
| Engine.EnvelopeGap | Source/PluginProcessor.cpp:170-173 | the attack coefficient is used exactly when the gain change is below the previous envelope, the release coefficient otherwise; with both in [0, 1] the new envelope lies between the gain change and the previous envelope |
| Engine.EnvelopeMonotone | Source/PluginProcessor.cpp:170-173 | the new envelope is monotone in the gain change and the previous envelope together |
| Engine.EnvelopeMonotoneInTarget | Source/PluginProcessor.cpp:170-173 | the new envelope is monotone in the gain change, across the attack/release switch |
| Engine.EnvelopeMonotoneInPrev | Source/PluginProcessor.cpp:170-173 | the new envelope is monotone in the previous envelope, across the attack/release switch |
| Engine.EnvelopeGapAttack | Source/PluginProcessor.cpp:170-171 | when the previous envelope is at or above the gain change, the gap shrinks by the attack coefficient |
| Engine.EnvelopeGapRelease | Source/PluginProcessor.cpp:172-173 | when the previous envelope is at or below the gain change, the gap shrinks by the release coefficient |
| Engine.Run | Source/PluginProcessor.cpp:151-181 | processing a channel gives exactly one output sample per input sample |
| Engine.RunSplit | Source/PluginProcessor.cpp:151-181 | block splitting: processing xs ++ ys at once equals processing xs, then ys from the envelope that xs left in gainSmoothPrev |
| Engine.StepStaysNonPositive | Source/PluginProcessor.cpp:154-180 | with ratio >= 1 and coefficients in [0, 1], a sample step keeps an envelope at or below 0 dB at or below 0 dB |
| Engine.StepAttenuates | Source/PluginProcessor.cpp:154-178 | under the same conditions an output sample is never larger in magnitude than its input |
| Engine.EnvelopeStaysNonPositive | Source/PluginProcessor.cpp:151-181 | over a whole channel, an envelope at or below 0 dB stays at or below 0 dB |
| Engine.NeverAmplifies | Source/PluginProcessor.cpp:151-181 | over a whole channel, no output sample is larger in magnitude than its input sample |
| Engine.ProcessedGuarantees | Source/PluginProcessor.cpp:147-181 | a processed channel that started at or below 0 dB ends at or below 0 dB, and every sample is attenuated |
| Engine.TransparentWithoutGainChange | Source/PluginProcessor.cpp:151-181 | from a 0 dB envelope, a channel where no sample asks for a gain change comes out unchanged and the envelope stays at 0 dB |
| Engine.NoCompressionAtOrBelowThreshold | Source/PluginProcessor.cpp:161-164 | from a 0 dB envelope, a channel whose every level is at or below the threshold passes through unchanged |
| Engine.UnityRatioIsTransparent | Source/PluginProcessor.cpp:161-166 | with ratio 1, from a 0 dB envelope, every channel passes through unchanged |
| Engine.ReleaseBelowThreshold | Source/PluginProcessor.cpp:170-178 | from an envelope below 0 dB, a sample at or below the threshold is still scaled by the gain of the releasing envelope, which becomes alphaR times the old one; pass-through needs a 0 dB envelope |
| Engine.StepRatioMonotone | Source/PluginProcessor.cpp:154-180 | with a larger ratio and a lower previous envelope, a sample step gives a lower envelope and an output no larger in magnitude |
| Engine.RatioMonotone | Source/PluginProcessor.cpp:151-181 | raising the ratio never raises the final envelope, and never raises the magnitude of any output sample |
| Engine.RunIgnoresTimes | Source/PluginProcessor.cpp:151-181 | processing reads only the threshold, the ratio and the two coefficients, not the attack and release times |
| Engine.ReleaseTimeHasNoEffect | Source/PluginProcessor.cpp:239-243 | whatever value "release" is set to, alphaR comes from the attack time and every later block is processed the same way |
| Engine.RunAtConstantLevel | Source/PluginProcessor.cpp:151-181 | at a constant input level, the envelope follows Settle toward the constant gain change |
| Engine.SettleAttack | Source/PluginProcessor.cpp:170-171 | from above a constant gain change, the gap after n samples is the first gap scaled n times by the attack coefficient |
| Engine.SettleRelease | Source/PluginProcessor.cpp:172-173 | from at or below a constant gain change, the gap after n samples is the first gap scaled n times by the release coefficient |
| Engine.DecayIsPow | Source/PluginProcessor.cpp:170-173 | the gap scaled n times by a coefficient equals coefficient^n times the gap |
| Engine.DecayBetween | Source/PluginProcessor.cpp:170-173 | with a coefficient in [0, 1] the gap never grows and keeps its sign |
| Engine.DecaySign | Source/PluginProcessor.cpp:170-173 | with a non-negative coefficient the gap keeps its sign |
| Processor.Silence | Source/PluginProcessor.cpp:144-145 | a cleared channel of n samples holds n zeros |
| Processor.CompressorAudioProcessor.constructor | Source/PluginProcessor.h:64-74 | both envelope slots and both y_prev slots start at 0; currentAttack and currentRelease start at 0; the control fields take the given initial values |
| Processor.CompressorAudioProcessor.SetRateAndBufferSizeDetails | Source/PluginProcessor.cpp:236 | the host's rate change alters only the rate getSampleRate() returns; the controls and both coefficients stay as they were |
| Processor.CompressorAudioProcessor.PrepareToPlay | Source/PluginProcessor.cpp:102-106 | changes no parameter and no envelope slot |
| Processor.CompressorAudioProcessor.ReleaseResources | Source/PluginProcessor.cpp:108-112 | changes no parameter and no envelope slot |
| Processor.CompressorAudioProcessor.ParameterChanged | Source/PluginProcessor.cpp:221-245 | the new control fields are ApplyParameter of the old ones; the sample rate, currentAttack and currentRelease do not change |
| Processor.CompressorAudioProcessor.ProcessBlock | Source/PluginProcessor.cpp:138-183 | each input channel holds Run of its old samples from its slot, and the slot holds Run's final envelope; output channels without an input are cleared; other channels and slots do not change; with ratio >= 1 and coefficients in [0, 1], non-positive slots stay non-positive and no input sample gets louder |
| Processor.ChannelsGuarantees | Source/PluginProcessor.cpp:147-182 | every processed input channel that started at or below 0 dB ends at or below 0 dB, and none of its samples got louder |
| Processor.CompressorAudioProcessor.ClearOutputs | Source/PluginProcessor.cpp:144-145 | channels from the input count up to the output count are cleared; all the others keep their samples |
| Processor.CompressorAudioProcessor.ProcessInputs | Source/PluginProcessor.cpp:147-182 | each input channel is processed from its own slot; the other channels and slots do not change |
| Processor.CompressorAudioProcessor.ProcessChannel | Source/PluginProcessor.cpp:149-181 | the channel's samples become Run's output and its slot becomes Run's envelope; the other channels and the other slot do not change |
| Processor.CompressorAudioProcessor.ProcessSample | Source/PluginProcessor.cpp:154-180 | the sample becomes Step's output and the slot becomes Step's envelope; nothing else in the buffer changes |
| Processor.AudioBuffer.GetSample | Source/PluginProcessor.cpp:154 | reads sample i of channel ch through the write pointer; no contract of its own |
| Processor.AudioBuffer.SetSample | Source/PluginProcessor.cpp:178 | only the written sample of the written channel changes |
| Processor.AudioBuffer.Clear | Source/PluginProcessor.cpp:145 | the cleared channel becomes silent and keeps its length; no other channel changes |

## Left out

- Floating point: the model computes over exact reals. `float` rounding, the mix of `float` and `double` in `msToSeconds`, and denormals are not modelled. `juce::ScopedNoDenormals` is left out for the same reason.
- The internals of `juce::Decibels` (including its -100 dB floor), `expf` and `log` are not modelled. They are function values, constrained only by `Primitives.Lawful()`.
- A ratio of 0, which the declared range [0, 20] allows. The source then divides by zero and produces infinities. Processing requires ratio > 0.
- Ratios between 0 and 1 expand rather than compress. The attenuation results (StepAttenuates, NeverAmplifies, the envelope invariant) assume ratio >= 1. For 0 < ratio < 1, GainChangeSign only proves that the gain change above the threshold is a boost.
- The sample rate is a field that the host sets through `SetRateAndBufferSizeDetails`. No operation recomputes the coefficients when it changes, and neither does the source. `prepareToPlay` ignores its arguments. The block size is not modelled.
- The control fields have no initial value in the source. The constructor takes arbitrary initial controls. The parameter tree, its default values and the listener registration (Source/PluginProcessor.cpp:21-33) are not modelled.
- `juce::AudioBuffer` is a sequence of sample sequences, and the host's channel counts are parameters. The model does not require the channels to be equally long, as JUCE's are: each channel is processed over its own length. Aliasing between channels, which JUCE rules out, is not modelled.
- Processor.CompressorAudioProcessor.ProcessBlock: it requires at most two input channels. With more, the source indexes past `gainSmoothPrev[2]`.
- Time behaviour is stated through `Settle` for a constant input level (Engine.RunAtConstantLevel). A closed form for the output under arbitrary input is not stated.
- The editor, the bus-layout check (Source/PluginProcessor.cpp:115-135), the program and MIDI stubs, and state save and restore (Source/PluginProcessor.cpp:197-211) are host plumbing with no signal-processing content.
- The unused fields `y_prev`, `currentAttack` and `currentRelease` are initialised and never written. No method lists them in its frame, apart from `ParameterChanged` and `SetRateAndBufferSizeDetails`, which both prove `currentAttack` and `currentRelease` unchanged.
- Threading: the source may call `parameterChanged` concurrently with `processBlock`. The model runs every operation on its own, one at a time.
