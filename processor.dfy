/** CompressorAudioProcessor: the control fields that parameterChanged writes,
    the two per-channel envelope slots, and processBlock, which runs the
    per-sample gain computer and smoother over an audio buffer in place. */
module Processor {
  import opened MathPrimitives
  import opened Engine

  /** A silent channel of n samples. */
  function Silence(n: nat): (s: seq<real>)
    ensures |s| == n && forall j :: 0 <= j < n ==> s[j] == 0.0
  {
    seq(n, _ => 0.0)
  }

  /** ProcessedGuarantees for the first n channels of a buffer at once. */
  lemma ChannelsGuarantees(p: Primitives, c: Controls, envs0: seq<real>, ins: seq<seq<real>>,
                           outs: seq<seq<real>>, envs: seq<real>, n: nat)
    requires Compressing(c)
    requires n <= |envs0| && n <= |ins| && n <= |outs| && n <= |envs|
    requires forall ch :: 0 <= ch < n ==> envs0[ch] <= 0.0
    requires forall ch :: 0 <= ch < n ==> Processed(p, c, envs0[ch], ins[ch], outs[ch], envs[ch])
    ensures forall ch :: 0 <= ch < n ==> envs[ch] <= 0.0
    ensures p.Lawful() ==> forall ch :: 0 <= ch < n ==> Attenuated(outs[ch], ins[ch])
  {
    forall ch | 0 <= ch < n
      ensures envs[ch] <= 0.0 && (p.Lawful() ==> Attenuated(outs[ch], ins[ch]))
    {
      ProcessedGuarantees(p, c, envs0[ch], ins[ch], outs[ch], envs[ch]);
    }
  }

  class CompressorAudioProcessor {
    /** juce::Decibels and the C maths library, as seen by the processor. */
    const prim: Primitives
    /** What getSampleRate() returns; the host sets it. */
    var sampleRate: real

    var threshold: real
    var ratio: real
    var attack: real
    var release: real
    var alphaA: real
    var alphaR: real

    /** The smoothed gain change in dB of each of the two channels. */
    const gainSmoothPrev: array<real>
    /** Declared state that no operation reads or writes. */
    const yPrev: array<real>
    var currentAttack: real
    var currentRelease: real

    ghost predicate Valid()
      reads this
    {
      gainSmoothPrev.Length == 2 && yPrev.Length == 2 && gainSmoothPrev != yPrev
    }

    function Parameters(): Controls
      reads this
    {
      Controls(threshold, ratio, attack, release, alphaA, alphaR)
    }

    ghost predicate EnvelopesNonPositive()
      requires Valid()
      reads this, gainSmoothPrev
    {
      gainSmoothPrev[0] <= 0.0 && gainSmoothPrev[1] <= 0.0
    }

    /** The source leaves the control fields without an initial value; here
        they start from `initial`. Both envelope slots start at 0 dB. */
    constructor (prim: Primitives, sampleRate: real, initial: Controls)
      ensures Valid() && fresh(gainSmoothPrev) && fresh(yPrev)
      ensures this.prim == prim && this.sampleRate == sampleRate
      ensures Parameters() == initial
      ensures gainSmoothPrev[..] == [0.0, 0.0] && yPrev[..] == [0.0, 0.0]
      ensures currentAttack == 0.0 && currentRelease == 0.0
    {
      this.prim := prim;
      this.sampleRate := sampleRate;
      threshold := initial.threshold;
      ratio := initial.ratio;
      attack := initial.attack;
      release := initial.release;
      alphaA := initial.alphaA;
      alphaR := initial.alphaR;
      gainSmoothPrev := new real[2] [0.0, 0.0];
      yPrev := new real[2] [0.0, 0.0];
      currentAttack := 0.0;
      currentRelease := 0.0;
    }

    /** The host changing the sample rate (juce::AudioProcessor's
        setRateAndBufferSizeDetails): only the rate that getSampleRate()
        returns changes. The coefficients are not recomputed, so they keep
        the old rate until parameterChanged runs again. */
    method SetRateAndBufferSizeDetails(newSampleRate: real, newBlockSize: int)
      requires Valid()
      modifies this
      ensures Valid() && sampleRate == newSampleRate
      ensures Parameters() == old(Parameters())
      ensures currentAttack == old(currentAttack) && currentRelease == old(currentRelease)
    {
      sampleRate := newSampleRate;
    }

    /** Nothing to prepare: no field and no envelope changes. */
    method PrepareToPlay(newSampleRate: real, samplesPerBlock: int)
      requires Valid()
      ensures Valid() && Parameters() == old(Parameters())
      ensures gainSmoothPrev[..] == old(gainSmoothPrev[..])
    {
    }

    /** Nothing to release: no field and no envelope changes. */
    method ReleaseResources()
      requires Valid()
      ensures Valid() && Parameters() == old(Parameters())
      ensures gainSmoothPrev[..] == old(gainSmoothPrev[..])
    {
    }

    /** The parameter listener: each known identifier updates its own fields. */
    method ParameterChanged(parameterId: string, newValue: real)
      requires Valid()
      modifies this
      ensures Valid()
      ensures Parameters() == ApplyParameter(prim, sampleRate, old(Parameters()), parameterId, newValue)
      ensures sampleRate == old(sampleRate)
      ensures currentAttack == old(currentAttack) && currentRelease == old(currentRelease)
    {
      if parameterId == ThresholdId {
        threshold := newValue;
      } else if parameterId == RatioId {
        ratio := newValue;
      } else if parameterId == AttackId {
        attack := newValue;
        alphaA := SmoothingCoefficient(prim, sampleRate, attack);
      } else if parameterId == ReleaseId {
        release := newValue;
        alphaR := SmoothingCoefficient(prim, sampleRate, attack);
      }
    }

    /** processBlock: output channels without an input are cleared, then every
        input channel is run through the compressor from its envelope slot. */
    method ProcessBlock(buffer: AudioBuffer, numInputChannels: nat, numOutputChannels: nat)
      requires Valid() && 0.0 < ratio
      requires numInputChannels <= 2
      requires numInputChannels <= |buffer.channels| && numOutputChannels <= |buffer.channels|
      modifies buffer, gainSmoothPrev
      ensures Valid() && |buffer.channels| == old(|buffer.channels|)
      ensures forall ch :: 0 <= ch < numInputChannels ==>
        Processed(prim, Parameters(), old(gainSmoothPrev[ch]), old(buffer.channels[ch]), buffer.channels[ch], gainSmoothPrev[ch])
      ensures forall ch :: numInputChannels <= ch < numOutputChannels ==>
        buffer.channels[ch] == Silence(|old(buffer.channels[ch])|)
      ensures forall ch :: numInputChannels <= ch < |buffer.channels| && numOutputChannels <= ch ==>
        buffer.channels[ch] == old(buffer.channels[ch])
      ensures forall ch :: numInputChannels <= ch < 2 ==> gainSmoothPrev[ch] == old(gainSmoothPrev[ch])
      ensures old(EnvelopesNonPositive()) && Compressing(Parameters()) ==> EnvelopesNonPositive()
      ensures prim.Lawful() && old(EnvelopesNonPositive()) && Compressing(Parameters()) ==>
        forall ch :: 0 <= ch < numInputChannels ==> Attenuated(buffer.channels[ch], old(buffer.channels[ch]))
    {
      ClearOutputs(buffer, numInputChannels, numOutputChannels);
      ghost var ins, envs0 := buffer.channels, gainSmoothPrev[..];
      ProcessInputs(buffer, numInputChannels);
      if old(EnvelopesNonPositive()) && Compressing(Parameters()) {
        ChannelsGuarantees(prim, Parameters(), envs0, ins, buffer.channels, gainSmoothPrev[..], numInputChannels);
      }
    }

    /** The first loop of processBlock: output channels from the input count
        up to the output count are cleared; the others are left as they are. */
    method ClearOutputs(buffer: AudioBuffer, numInputChannels: nat, numOutputChannels: nat)
      requires numOutputChannels <= |buffer.channels|
      modifies buffer
      ensures |buffer.channels| == old(|buffer.channels|)
      ensures forall ch :: numInputChannels <= ch < numOutputChannels ==>
        buffer.channels[ch] == Silence(|old(buffer.channels[ch])|)
      ensures forall ch :: 0 <= ch < |buffer.channels| && !(numInputChannels <= ch < numOutputChannels) ==>
        buffer.channels[ch] == old(buffer.channels[ch])
    {
      var i := numInputChannels;
      while i < numOutputChannels
        invariant numInputChannels <= i
        invariant i == numInputChannels || i <= numOutputChannels
        invariant |buffer.channels| == old(|buffer.channels|)
        invariant forall ch :: numInputChannels <= ch < i && ch < numOutputChannels ==>
          buffer.channels[ch] == Silence(|old(buffer.channels[ch])|)
        invariant forall ch :: 0 <= ch < |buffer.channels| && (ch < numInputChannels || i <= ch) ==>
          buffer.channels[ch] == old(buffer.channels[ch])
      {
        buffer.Clear(i);
        i := i + 1;
      }
    }

    /** The second loop of processBlock: every input channel is run from its
        own envelope slot; the other channels and slots are left as they are. */
    method ProcessInputs(buffer: AudioBuffer, numInputChannels: nat)
      requires Valid() && 0.0 < ratio
      requires numInputChannels <= 2 && numInputChannels <= |buffer.channels|
      modifies buffer, gainSmoothPrev
      ensures |buffer.channels| == old(|buffer.channels|)
      ensures forall ch :: 0 <= ch < numInputChannels ==>
        Processed(prim, Parameters(), old(gainSmoothPrev[ch]), old(buffer.channels[ch]), buffer.channels[ch], gainSmoothPrev[ch])
      ensures forall ch :: numInputChannels <= ch < |buffer.channels| ==> buffer.channels[ch] == old(buffer.channels[ch])
      ensures forall ch :: numInputChannels <= ch < 2 ==> gainSmoothPrev[ch] == old(gainSmoothPrev[ch])
    {
      for channel := 0 to numInputChannels
        invariant |buffer.channels| == old(|buffer.channels|)
        invariant forall ch :: 0 <= ch < channel ==>
          Processed(prim, Parameters(), old(gainSmoothPrev[ch]), old(buffer.channels[ch]), buffer.channels[ch], gainSmoothPrev[ch])
        invariant forall ch :: channel <= ch < |buffer.channels| ==> buffer.channels[ch] == old(buffer.channels[ch])
        invariant forall ch :: channel <= ch < 2 ==> gainSmoothPrev[ch] == old(gainSmoothPrev[ch])
      {
        ProcessChannel(buffer, channel);
      }
    }

    /** The per-sample loop of processBlock for one channel: each sample is
        replaced by its compressed value and the channel's envelope slot
        follows the smoothed gain change. */
    method ProcessChannel(buffer: AudioBuffer, ch: nat)
      requires Valid() && 0.0 < ratio && ch < 2 && ch < |buffer.channels|
      modifies buffer, gainSmoothPrev
      ensures |buffer.channels| == old(|buffer.channels|)
      ensures buffer.channels == old(buffer.channels)[ch := buffer.channels[ch]]
      ensures Processed(prim, Parameters(), old(gainSmoothPrev[ch]), old(buffer.channels[ch]), buffer.channels[ch], gainSmoothPrev[ch])
      ensures gainSmoothPrev[1 - ch] == old(gainSmoothPrev[1 - ch])
    {
      ghost var env0 := gainSmoothPrev[ch];
      ghost var xs := buffer.channels[ch];
      for i := 0 to |buffer.channels[ch]|
        invariant |buffer.channels| == old(|buffer.channels|)
        invariant buffer.channels == old(buffer.channels)[ch := buffer.channels[ch]]
        invariant |buffer.channels[ch]| == |xs|
        invariant gainSmoothPrev[ch] == Run(prim, Parameters(), env0, xs[..i]).env
        invariant buffer.channels[ch][..i] == Run(prim, Parameters(), env0, xs[..i]).samples
        invariant buffer.channels[ch][i..] == xs[i..]
        invariant gainSmoothPrev[1 - ch] == old(gainSmoothPrev[1 - ch])
      {
        ghost var before := Run(prim, Parameters(), env0, xs[..i]);
        assert buffer.channels[ch][i] == xs[i];
        ProcessSample(buffer, ch, i);
        assert xs[..i + 1][..i] == xs[..i];
        assert buffer.channels[ch][..i + 1] == before.samples + [buffer.channels[ch][i]];
      }
      assert xs[..|xs|] == xs;
      assert buffer.channels[ch][..|xs|] == buffer.channels[ch];
    }

    /** One iteration of the per-sample loop, written as the source computes
        it: level in dB, static characteristic, gain change, attack or release
        smoothing, linear gain; the sample and the envelope slot are
        overwritten and nothing else changes. */
    method ProcessSample(buffer: AudioBuffer, ch: nat, i: nat)
      requires Valid() && 0.0 < ratio && ch < 2 && ch < |buffer.channels| && i < |buffer.channels[ch]|
      modifies buffer, gainSmoothPrev
      ensures buffer.channels == old(buffer.channels)[ch := old(buffer.channels[ch])[i := Step(prim, Parameters(), old(gainSmoothPrev[ch]), old(buffer.channels[ch][i])).out]]
      ensures gainSmoothPrev[ch] == Step(prim, Parameters(), old(gainSmoothPrev[ch]), old(buffer.channels[ch][i])).env
      ensures gainSmoothPrev[1 - ch] == old(gainSmoothPrev[1 - ch])
    {
      var input := buffer.GetSample(ch, i);
      var xUni := Abs(input);
      var xDb := prim.gainToDecibels(xUni);
      var gainSC := 0.0;
      if xDb > threshold {
        gainSC := threshold + (xDb - threshold) / ratio;
      } else {
        gainSC := xDb;
      }
      var gainChangeDb := gainSC - xDb;
      assert gainChangeDb == GainChange(Level(prim, input), threshold, ratio);
      var gainSmooth := 0.0;
      if gainChangeDb < gainSmoothPrev[ch] {
        gainSmooth := (1.0 - alphaA) * gainChangeDb + alphaA * gainSmoothPrev[ch];
      } else {
        gainSmooth := (1.0 - alphaR) * gainChangeDb + alphaR * gainSmoothPrev[ch];
      }
      assert gainSmooth == Envelope(gainChangeDb, gainSmoothPrev[ch], alphaA, alphaR);
      var linA := prim.decibelsToGain(gainSmooth);
      var output := linA * input;
      assert output == Step(prim, Parameters(), gainSmoothPrev[ch], input).out;
      buffer.SetSample(ch, i, output);
      gainSmoothPrev[ch] := gainSmooth;
    }
  }

  /** juce::AudioBuffer as the processor uses it: one sequence of samples per
      channel, read and written sample by sample and cleared channel by
      channel. */
  class AudioBuffer {
    var channels: seq<seq<real>>

    constructor (channels: seq<seq<real>>)
      ensures this.channels == channels
    {
      this.channels := channels;
    }

    /** The sample at index i of channel ch, as read through getWritePointer. */
    function GetSample(ch: nat, i: nat): real
      requires ch < |channels| && i < |channels[ch]|
      reads this
    {
      channels[ch][i]
    }

    /** A write through getWritePointer: only sample i of channel ch changes. */
    method SetSample(ch: nat, i: nat, x: real)
      requires ch < |channels| && i < |channels[ch]|
      modifies this
      ensures channels == old(channels)[ch := old(channels[ch])[i := x]]
    {
      channels := channels[ch := channels[ch][i := x]];
    }

    /** clear (ch, 0, getNumSamples()): every sample of channel ch becomes 0. */
    method Clear(ch: nat)
      requires ch < |channels|
      modifies this
      ensures channels == old(channels)[ch := Silence(|old(channels[ch])|)]
    {
      channels := channels[ch := Silence(|channels[ch]|)];
    }
  }
}
