/** The arithmetic of CompressorAudioProcessor over exact reals: the hard-knee
    gain computer, the attack/release one-pole smoother, the smoothing
    coefficient, the parameter dispatch of parameterChanged, and what the
    per-sample loop of processBlock computes for one channel. */
module Engine {
  import opened MathPrimitives

  // Parameter identifiers as registered with the parameter tree.
  const ThresholdId: string := "threshold"
  const RatioId: string := "ratio"
  const AttackId: string := "attack"
  const ReleaseId: string := "release"

  /** The control fields of the processor: threshold in dB, ratio, attack and
      release times in milliseconds, and the two smoothing coefficients. */
  datatype Controls = Controls(
    threshold: real,
    ratio: real,
    attack: real,
    release: real,
    alphaA: real,
    alphaR: real)

  predicate InUnit(a: real) {
    0.0 <= a <= 1.0
  }

  /** The controls under which the engine only ever attenuates. */
  predicate Compressing(c: Controls) {
    c.ratio >= 1.0 && InUnit(c.alphaA) && InUnit(c.alphaR)
  }

  predicate Between(v: real, a: real, b: real) {
    (a <= v <= b) || (b <= v <= a)
  }

  function Abs(x: real): (r: real)
    ensures 0.0 <= r && (r == x || r == -x)
  {
    if x < 0.0 then -x else x
  }

  // ---------------------------------------------------------------------------
  // Parameters

  /** Milliseconds to seconds. */
  function MsToSeconds(ms: real): (s: real)
    ensures s * 1000.0 == ms
  {
    ms * 0.001
  }

  /** The one-pole coefficient for a time constant of `ms` milliseconds at
      `sampleRate`: exp(-log 9 / (sampleRate * seconds)). When the product is
      zero the source divides by zero, giving -infinity and a coefficient of 0. */
  function SmoothingCoefficient(p: Primitives, sampleRate: real, ms: real): (alpha: real)
    ensures p.Lawful() && 0.0 <= sampleRate && 0.0 <= ms ==> InUnit(alpha)
    ensures sampleRate == 0.0 || ms == 0.0 ==> alpha == 0.0
  {
    var t := sampleRate * MsToSeconds(ms);
    if t == 0.0 then 0.0
    else
      var arg := -p.log(9.0) / t;
      assert p.Lawful() && 0.0 < t ==> arg <= 0.0 by {
        if p.Lawful() && 0.0 < t {
          assert p.log(9.0) > 0.0;
          DivPositive(p.log(9.0), t);
        }
      }
      p.exp(arg)
  }

  /** The declared range of each parameter in the parameter tree. */
  predicate InDeclaredRange(id: string, v: real): (r: bool)
    ensures r ==> id == ThresholdId || id == RatioId || id == AttackId || id == ReleaseId
    ensures r && id != ThresholdId ==> 0.0 <= v
    ensures r && id == ThresholdId ==> v <= 0.0
  {
    if id == ThresholdId then -32.0 <= v <= 0.0
    else if id == RatioId then 0.0 <= v <= 20.0
    else if id == AttackId || id == ReleaseId then 0.0 <= v <= 500.0
    else false
  }

  /** The controls after parameter `id` changed to `v`. The release
      coefficient is computed from the ATTACK time, as the source does. */
  function ApplyParameter(p: Primitives, sampleRate: real, c: Controls, id: string, v: real): (r: Controls)
    // each field changes only under its own identifier, and takes the new value
    ensures r.threshold != c.threshold ==> id == ThresholdId
    ensures r.ratio != c.ratio ==> id == RatioId
    ensures r.attack != c.attack || r.alphaA != c.alphaA ==> id == AttackId
    ensures r.release != c.release || r.alphaR != c.alphaR ==> id == ReleaseId
    ensures id == ThresholdId ==> r.threshold == v
    ensures id == RatioId ==> r.ratio == v
    ensures id == AttackId ==> r.attack == v && r.alphaA == SmoothingCoefficient(p, sampleRate, v)
    ensures id == ReleaseId ==> r.release == v && r.alphaR == SmoothingCoefficient(p, sampleRate, c.attack)
    // in-range changes keep both coefficients in [0, 1]
    ensures p.Lawful() && 0.0 <= sampleRate && 0.0 <= c.attack && InUnit(c.alphaA) && InUnit(c.alphaR)
            && InDeclaredRange(id, v)
            ==> 0.0 <= r.attack && InUnit(r.alphaA) && InUnit(r.alphaR)
  {
    if id == ThresholdId then c.(threshold := v)
    else if id == RatioId then c.(ratio := v)
    else if id == AttackId then c.(attack := v, alphaA := SmoothingCoefficient(p, sampleRate, v))
    else if id == ReleaseId then c.(release := v, alphaR := SmoothingCoefficient(p, sampleRate, c.attack))
    else c
  }

  // ---------------------------------------------------------------------------
  // Gain computer

  /** The hard-knee static characteristic: the target level in dB. */
  function StaticCharacteristic(xdB: real, threshold: real, ratio: real): (gainSC: real)
    requires 0.0 < ratio
    ensures xdB <= threshold ==> gainSC == xdB
  {
    if xdB > threshold then threshold + (xdB - threshold) / ratio else xdB
  }

  /** The gain change in dB that the static characteristic asks for. */
  function GainChange(xdB: real, threshold: real, ratio: real): (g: real)
    requires 0.0 < ratio
    ensures xdB <= threshold ==> g == 0.0
  {
    StaticCharacteristic(xdB, threshold, ratio) - xdB
  }

  // ---------------------------------------------------------------------------
  // Smoothing

  /** One-pole smoothing towards `target` from `prev`. */
  function Smooth(alpha: real, target: real, prev: real): real {
    (1.0 - alpha) * target + alpha * prev
  }

  /** The new envelope: the attack coefficient when more reduction is asked
      for than is applied (g < prev), the release coefficient otherwise. */
  function Envelope(g: real, prev: real, alphaA: real, alphaR: real): real {
    if g < prev then Smooth(alphaA, g, prev) else Smooth(alphaR, g, prev)
  }

  // ---------------------------------------------------------------------------
  // Per-sample and per-channel processing

  datatype Sample = Sample(out: real, env: real)

  /** The sample's level in dB. */
  function Level(p: Primitives, x: real): real {
    p.gainToDecibels(Abs(x))
  }

  /** One iteration of the per-sample loop: the output sample and the new envelope. */
  function Step(p: Primitives, c: Controls, prev: real, x: real): Sample
    requires 0.0 < c.ratio
  {
    var g := GainChange(Level(p, x), c.threshold, c.ratio);
    var e := Envelope(g, prev, c.alphaA, c.alphaR);
    Sample(p.decibelsToGain(e) * x, e)
  }

  /** Output samples of a channel and its envelope at the end. */
  datatype Block = Block(samples: seq<real>, env: real)

  /** Processing the samples `xs` of one channel from envelope `env`, in order. */
  function Run(p: Primitives, c: Controls, env: real, xs: seq<real>): (b: Block)
    requires 0.0 < c.ratio
    ensures |b.samples| == |xs|
    decreases |xs|
  {
    if xs == [] then Block([], env)
    else
      var b := Run(p, c, env, xs[..|xs| - 1]);
      var s := Step(p, c, b.env, xs[|xs| - 1]);
      Block(b.samples + [s.out], s.env)
  }

  /** A channel run from envelope env0 over the samples xs produced out and
      left the envelope env. */
  ghost predicate Processed(p: Primitives, c: Controls, env0: real, xs: seq<real>, out: seq<real>, env: real)
    requires 0.0 < c.ratio
  {
    var b := Run(p, c, env0, xs);
    out == b.samples && env == b.env
  }

  /** Every sample of out is at most as loud as the sample of xs it replaced. */
  ghost predicate Attenuated(out: seq<real>, xs: seq<real>)
  {
    |out| == |xs| && forall j :: 0 <= j < |xs| ==> Abs(out[j]) <= Abs(xs[j])
  }

  // ---------------------------------------------------------------------------
  // Properties of the gain computer

  /** Above the threshold the static characteristic has slope 1/ratio:
      every dB of input over the threshold gives 1/ratio dB of output over it. */
  lemma StaticCharacteristicSlope(xdB: real, threshold: real, ratio: real)
    requires 0.0 < ratio && threshold < xdB
    ensures (StaticCharacteristic(xdB, threshold, ratio) - threshold) * ratio == xdB - threshold
    ensures threshold < StaticCharacteristic(xdB, threshold, ratio)
  {
    DivPositive(xdB - threshold, ratio);
  }

  /** The gain change above the threshold is (xdB - threshold) * (1/ratio - 1);
      it is a reduction (never positive) for ratio >= 1 and a boost for ratio < 1. */
  lemma GainChangeSign(xdB: real, threshold: real, ratio: real)
    requires 0.0 < ratio
    ensures threshold < xdB ==> GainChange(xdB, threshold, ratio) == (xdB - threshold) * (1.0 / ratio - 1.0)
    ensures 1.0 <= ratio ==> GainChange(xdB, threshold, ratio) <= 0.0
    ensures ratio < 1.0 && threshold < xdB ==> 0.0 < GainChange(xdB, threshold, ratio)
  {
    if threshold < xdB {
      var d := xdB - threshold;
      QuotientBounds(d, ratio);
      var x := d * (1.0 / ratio);
      assert x == d / ratio;
    }
  }

  /** The gain change is zero exactly at or below the threshold, for any ratio other than 1. */
  lemma GainChangeZeroIff(xdB: real, threshold: real, ratio: real)
    requires 0.0 < ratio && ratio != 1.0
    ensures GainChange(xdB, threshold, ratio) == 0.0 <==> xdB <= threshold
  {
    if threshold < xdB {
      GainChangeSign(xdB, threshold, ratio);
      if ratio > 1.0 {
        QuotientBounds(xdB - threshold, ratio);
      }
    }
  }

  /** A larger ratio never asks for less reduction. */
  lemma GainChangeAntitoneInRatio(xdB: real, threshold: real, r1: real, r2: real)
    requires 0.0 < r1 <= r2
    ensures GainChange(xdB, threshold, r2) <= GainChange(xdB, threshold, r1)
  {
    if threshold < xdB {
      QuotientAntitone(xdB - threshold, r1, r2);
    }
  }

  // ---------------------------------------------------------------------------
  // Properties of the smoother

  /** The smoothed value moves from prev towards target by the factor alpha
      and, for alpha in [0, 1], lies between the two. */
  lemma SmoothGap(alpha: real, target: real, prev: real)
    ensures Smooth(alpha, target, prev) - target == alpha * (prev - target)
    ensures InUnit(alpha) ==> Between(Smooth(alpha, target, prev), target, prev)
  {
    var d := prev - target;
    var x := alpha * d;
    assert Smooth(alpha, target, prev) - target == x;
    if InUnit(alpha) {
      ScaleToward(alpha, d);
    }
  }

  /** Coefficient choice: the attack coefficient exactly when g < prev, the
      release coefficient otherwise; with both in [0, 1] the new envelope lies
      between g and prev. */
  lemma EnvelopeGap(g: real, prev: real, alphaA: real, alphaR: real)
    ensures Envelope(g, prev, alphaA, alphaR) - g == (if g < prev then alphaA else alphaR) * (prev - g)
    ensures InUnit(alphaA) && InUnit(alphaR) ==> Between(Envelope(g, prev, alphaA, alphaR), g, prev)
  {
    if g < prev {
      SmoothGap(alphaA, g, prev);
    } else {
      SmoothGap(alphaR, g, prev);
    }
  }

  /** The envelope is monotone in both the asked-for gain change and the previous envelope. */
  lemma EnvelopeMonotone(g1: real, prev1: real, g2: real, prev2: real, alphaA: real, alphaR: real)
    requires InUnit(alphaA) && InUnit(alphaR)
    requires g2 <= g1 && prev2 <= prev1
    ensures Envelope(g2, prev2, alphaA, alphaR) <= Envelope(g1, prev1, alphaA, alphaR)
  {
    EnvelopeMonotoneInTarget(g1, g2, prev2, alphaA, alphaR);
    EnvelopeMonotoneInPrev(g1, prev1, prev2, alphaA, alphaR);
  }

  lemma EnvelopeMonotoneInTarget(g1: real, g2: real, prev: real, alphaA: real, alphaR: real)
    requires InUnit(alphaA) && InUnit(alphaR) && g2 <= g1
    ensures Envelope(g2, prev, alphaA, alphaR) <= Envelope(g1, prev, alphaA, alphaR)
  {
    var e1 := Envelope(g1, prev, alphaA, alphaR);
    var e2 := Envelope(g2, prev, alphaA, alphaR);
    EnvelopeGap(g1, prev, alphaA, alphaR);
    EnvelopeGap(g2, prev, alphaA, alphaR);
    if g2 < prev && prev <= g1 {
      assert e2 <= prev <= e1;
    } else {
      var a := if g1 < prev then alphaA else alphaR;
      assert e1 == g1 + a * (prev - g1) && e2 == g2 + a * (prev - g2);
      MulNonNeg(1.0 - a, g1 - g2);
      assert e1 - e2 == (1.0 - a) * (g1 - g2);
    }
  }

  lemma EnvelopeMonotoneInPrev(g: real, prev1: real, prev2: real, alphaA: real, alphaR: real)
    requires InUnit(alphaA) && InUnit(alphaR) && prev2 <= prev1
    ensures Envelope(g, prev2, alphaA, alphaR) <= Envelope(g, prev1, alphaA, alphaR)
  {
    var e1 := Envelope(g, prev1, alphaA, alphaR);
    var e2 := Envelope(g, prev2, alphaA, alphaR);
    EnvelopeGap(g, prev1, alphaA, alphaR);
    EnvelopeGap(g, prev2, alphaA, alphaR);
    if prev2 <= g && g < prev1 {
      assert e2 <= g <= e1;
    } else {
      var a := if g < prev1 then alphaA else alphaR;
      assert e1 == g + a * (prev1 - g) && e2 == g + a * (prev2 - g);
      MulNonNeg(a, prev1 - prev2);
      assert e1 - e2 == a * (prev1 - prev2);
    }
  }

  // ---------------------------------------------------------------------------
  // Properties of a processed channel

  /** Block splitting: processing xs ++ ys in one go is processing xs, then ys
      from the envelope xs left behind. */
  lemma {:induction false} RunSplit(p: Primitives, c: Controls, env: real, xs: seq<real>, ys: seq<real>)
    requires 0.0 < c.ratio
    ensures var first := Run(p, c, env, xs);
            var second := Run(p, c, first.env, ys);
            Run(p, c, env, xs + ys) == Block(first.samples + second.samples, second.env)
    decreases |ys|
  {
    var first := Run(p, c, env, xs);
    if ys == [] {
      assert xs + ys == xs;
    } else {
      var init := ys[..|ys| - 1];
      assert (xs + ys)[..|xs + ys| - 1] == xs + init;
      assert (xs + ys)[|xs + ys| - 1] == ys[|ys| - 1];
      RunSplit(p, c, env, xs, init);
      var mid := Run(p, c, first.env, init);
      var s := Step(p, c, mid.env, ys[|ys| - 1]);
      assert first.samples + mid.samples + [s.out] == first.samples + (mid.samples + [s.out]);
    }
  }

  /** Under compressing controls a non-positive envelope stays non-positive. */
  lemma {:induction false} EnvelopeStaysNonPositive(p: Primitives, c: Controls, env: real, xs: seq<real>)
    requires Compressing(c) && env <= 0.0
    ensures Run(p, c, env, xs).env <= 0.0
    decreases |xs|
  {
    if xs != [] {
      var init := xs[..|xs| - 1];
      EnvelopeStaysNonPositive(p, c, env, init);
      StepStaysNonPositive(p, c, Run(p, c, env, init).env, xs[|xs| - 1]);
    }
  }

  /** One sample under compressing controls keeps a non-positive envelope non-positive. */
  lemma StepStaysNonPositive(p: Primitives, c: Controls, prev: real, x: real)
    requires Compressing(c) && prev <= 0.0
    ensures Step(p, c, prev, x).env <= 0.0
  {
    var g := GainChange(Level(p, x), c.threshold, c.ratio);
    GainChangeSign(Level(p, x), c.threshold, c.ratio);
    EnvelopeGap(g, prev, c.alphaA, c.alphaR);
  }

  /** One sample under compressing controls from a non-positive envelope:
      the envelope stays non-positive and the sample is not amplified. */
  lemma StepAttenuates(p: Primitives, c: Controls, prev: real, x: real)
    requires p.Lawful() && Compressing(c) && prev <= 0.0
    ensures Step(p, c, prev, x).env <= 0.0
    ensures Abs(Step(p, c, prev, x).out) <= Abs(x)
  {
    var s := Step(p, c, prev, x);
    StepStaysNonPositive(p, c, prev, x);
    AttenuationIsUnitGain(p, s.env);
    ScaleAtMost(p.decibelsToGain(s.env), 1.0, x);
  }

  /** Under compressing controls, from a non-positive envelope, no output
      sample is larger in magnitude than its input sample. */
  lemma {:induction false} NeverAmplifies(p: Primitives, c: Controls, env: real, xs: seq<real>)
    requires p.Lawful() && Compressing(c) && env <= 0.0
    ensures forall j :: 0 <= j < |xs| ==> Abs(Run(p, c, env, xs).samples[j]) <= Abs(xs[j])
    decreases |xs|
  {
    if xs != [] {
      var init, x := xs[..|xs| - 1], xs[|xs| - 1];
      NeverAmplifies(p, c, env, init);
      EnvelopeStaysNonPositive(p, c, env, init);
      var b := Run(p, c, env, init);
      var s := Step(p, c, b.env, x);
      StepAttenuates(p, c, b.env, x);
      var out := Run(p, c, env, xs).samples;
      assert out == b.samples + [s.out];
      forall j | 0 <= j < |xs|
        ensures Abs(out[j]) <= Abs(xs[j])
      {
        if j < |init| {
          assert out[j] == b.samples[j] && xs[j] == init[j];
        }
      }
    }
  }

  /** Where every sample asks for no gain change, processing from a 0 dB
      envelope returns the input unchanged and keeps the envelope at 0 dB. */
  lemma {:induction false} TransparentWithoutGainChange(p: Primitives, c: Controls, xs: seq<real>)
    requires 0.0 < c.ratio && p.decibelsToGain(0.0) == 1.0
    requires forall j :: 0 <= j < |xs| ==> GainChange(Level(p, xs[j]), c.threshold, c.ratio) == 0.0
    ensures Run(p, c, 0.0, xs) == Block(xs, 0.0)
    decreases |xs|
  {
    if xs != [] {
      var init := xs[..|xs| - 1];
      TransparentWithoutGainChange(p, c, init);
      EnvelopeGap(0.0, 0.0, c.alphaA, c.alphaR);
      assert init + [xs[|xs| - 1]] == xs;
    }
  }

  /** No compression at or below the threshold: from a 0 dB envelope, a
      channel whose every sample is at or below the threshold passes through
      unchanged. (From an envelope below 0 dB, left by a louder block, such a
      channel is still attenuated while the envelope releases.) */
  lemma {:induction false} NoCompressionAtOrBelowThreshold(p: Primitives, c: Controls, xs: seq<real>)
    requires 0.0 < c.ratio && p.decibelsToGain(0.0) == 1.0
    requires forall j :: 0 <= j < |xs| ==> Level(p, xs[j]) <= c.threshold
    ensures Run(p, c, 0.0, xs) == Block(xs, 0.0)
  {
    TransparentWithoutGainChange(p, c, xs);
  }

  /** A ratio of 1 is a no-op: from a 0 dB envelope every input passes
      through unchanged. */
  lemma UnityRatioIsTransparent(p: Primitives, c: Controls, xs: seq<real>)
    requires c.ratio == 1.0 && p.decibelsToGain(0.0) == 1.0
    ensures Run(p, c, 0.0, xs) == Block(xs, 0.0)
  {
    forall j | 0 <= j < |xs|
      ensures GainChange(Level(p, xs[j]), c.threshold, c.ratio) == 0.0
    {
    }
    TransparentWithoutGainChange(p, c, xs);
  }

  /** Below the threshold the envelope releases toward 0 dB: when a louder
      block has left the envelope at prev <= 0, a sample at or below the
      threshold scales the envelope by the release coefficient, and the sample
      itself is scaled by the gain of that envelope, so it is attenuated while
      the release lasts. */
  lemma ReleaseBelowThreshold(p: Primitives, c: Controls, prev: real, x: real)
    requires 0.0 < c.ratio && Level(p, x) <= c.threshold && prev <= 0.0
    ensures Step(p, c, prev, x).env == c.alphaR * prev
    ensures Step(p, c, prev, x).out == p.decibelsToGain(c.alphaR * prev) * x
  {
  }

  /** One sample with a larger ratio from a lower envelope: the envelope
      stays lower and the output is no larger in magnitude. */
  lemma StepRatioMonotone(p: Primitives, c1: Controls, c2: Controls, prev1: real, prev2: real, x: real)
    requires p.Lawful()
    requires 0.0 < c1.ratio <= c2.ratio && c2 == c1.(ratio := c2.ratio)
    requires InUnit(c1.alphaA) && InUnit(c1.alphaR) && prev2 <= prev1
    ensures Step(p, c2, prev2, x).env <= Step(p, c1, prev1, x).env
    ensures Abs(Step(p, c2, prev2, x).out) <= Abs(Step(p, c1, prev1, x).out)
  {
    var level := Level(p, x);
    var g1 := GainChange(level, c1.threshold, c1.ratio);
    var g2 := GainChange(level, c2.threshold, c2.ratio);
    GainChangeAntitoneInRatio(level, c1.threshold, c1.ratio, c2.ratio);
    var e1 := Envelope(g1, prev1, c1.alphaA, c1.alphaR);
    var e2 := Envelope(g2, prev2, c1.alphaA, c1.alphaR);
    EnvelopeMonotone(g1, prev1, g2, prev2, c1.alphaA, c1.alphaR);
    var k1, k2 := p.decibelsToGain(e1), p.decibelsToGain(e2);
    var s1, s2 := Step(p, c1, prev1, x), Step(p, c2, prev2, x);
    assert s1.env == e1 && s1.out == k1 * x;
    assert s2.env == e2 && s2.out == k2 * x;
    assert 0.0 <= k2 <= k1;
    ScaleAtMost(k2, k1, x);
  }

  /** Raising the ratio, all else equal, never raises the envelope and never
      raises the magnitude of any output sample. */
  lemma {:induction false} RatioMonotone(p: Primitives, c1: Controls, c2: Controls, env: real, xs: seq<real>)
    requires p.Lawful()
    requires 0.0 < c1.ratio <= c2.ratio && c2 == c1.(ratio := c2.ratio)
    requires InUnit(c1.alphaA) && InUnit(c1.alphaR)
    ensures Run(p, c2, env, xs).env <= Run(p, c1, env, xs).env
    ensures forall j :: 0 <= j < |xs| ==>
      Abs(Run(p, c2, env, xs).samples[j]) <= Abs(Run(p, c1, env, xs).samples[j])
    decreases |xs|
  {
    if xs != [] {
      var init, x := xs[..|xs| - 1], xs[|xs| - 1];
      RatioMonotone(p, c1, c2, env, init);
      var b1, b2 := Run(p, c1, env, init), Run(p, c2, env, init);
      StepRatioMonotone(p, c1, c2, b1.env, b2.env, x);
      var s1, s2 := Step(p, c1, b1.env, x), Step(p, c2, b2.env, x);
      var out1, out2 := Run(p, c1, env, xs).samples, Run(p, c2, env, xs).samples;
      assert out1 == b1.samples + [s1.out];
      assert out2 == b2.samples + [s2.out];
      forall j | 0 <= j < |xs|
        ensures Abs(out2[j]) <= Abs(out1[j])
      {
        if j < |init| {
          assert out1[j] == b1.samples[j] && out2[j] == b2.samples[j];
        }
      }
    }
  }

  /** Processing reads only the threshold, the ratio and the two coefficients;
      the attack and release times themselves play no part. */
  lemma {:induction false} RunIgnoresTimes(p: Primitives, c1: Controls, c2: Controls, env: real, xs: seq<real>)
    requires 0.0 < c1.ratio
    requires c2 == c1.(attack := c2.attack, release := c2.release)
    ensures Run(p, c1, env, xs) == Run(p, c2, env, xs)
    decreases |xs|
  {
    if xs != [] {
      var init := xs[..|xs| - 1];
      RunIgnoresTimes(p, c1, c2, env, init);
      var e := Run(p, c1, env, init).env;
      assert c1.threshold == c2.threshold && c1.ratio == c2.ratio;
      assert c1.alphaA == c2.alphaA && c1.alphaR == c2.alphaR;
      assert Step(p, c1, e, xs[|xs| - 1]) == Step(p, c2, e, xs[|xs| - 1]);
    }
  }

  /** The release time has no effect: whatever value "release" is set to,
      every later block is processed identically, with the release coefficient
      computed from the current attack time. */
  lemma ReleaseTimeHasNoEffect(p: Primitives, sampleRate: real, c: Controls, v1: real, v2: real, env: real, xs: seq<real>)
    requires 0.0 < c.ratio
    ensures ApplyParameter(p, sampleRate, c, ReleaseId, v1).alphaR == SmoothingCoefficient(p, sampleRate, c.attack)
    ensures Run(p, ApplyParameter(p, sampleRate, c, ReleaseId, v1), env, xs)
         == Run(p, ApplyParameter(p, sampleRate, c, ReleaseId, v2), env, xs)
  {
    RunIgnoresTimes(p, ApplyParameter(p, sampleRate, c, ReleaseId, v1), ApplyParameter(p, sampleRate, c, ReleaseId, v2), env, xs);
  }

  /** A coefficient raised to the n-th power. */
  function Pow(a: real, n: nat): real {
    if n == 0 then 1.0 else a * Pow(a, n - 1)
  }

  /** A gap d scaled n times by the coefficient a. */
  function Decay(a: real, d: real, n: nat): real {
    if n == 0 then d else a * Decay(a, d, n - 1)
  }

  /** Decay is the geometric law: the gap after n samples is a^n times the first. */
  lemma {:induction false} DecayIsPow(a: real, d: real, n: nat)
    ensures Decay(a, d, n) == Pow(a, n) * d
  {
    if n > 0 {
      DecayIsPow(a, d, n - 1);
      var x := a * (Pow(a, n - 1) * d);
      assert x == (a * Pow(a, n - 1)) * d;
    }
  }

  /** With a coefficient in [0, 1] the gap keeps its sign and never grows. */
  lemma {:induction false} DecayBetween(a: real, d: real, n: nat)
    requires InUnit(a)
    ensures Between(Decay(a, d, n), 0.0, d)
  {
    if n > 0 {
      DecayBetween(a, d, n - 1);
      ScaleToward(a, Decay(a, d, n - 1));
    }
  }

  /** With a non-negative coefficient the gap keeps its sign. */
  lemma {:induction false} DecaySign(a: real, d: real, n: nat)
    requires 0.0 <= a
    ensures 0.0 <= d ==> 0.0 <= Decay(a, d, n)
    ensures d <= 0.0 ==> Decay(a, d, n) <= 0.0
  {
    if n > 0 {
      DecaySign(a, d, n - 1);
      var x := Decay(a, d, n - 1);
      if 0.0 <= x {
        MulNonNeg(a, x);
      } else {
        MulNonNeg(a, -x);
        var y := a * (-x);
        assert y == -(a * x);
      }
    }
  }

  /** The envelope after n samples that all ask for the same gain change g. */
  function Settle(g: real, env: real, alphaA: real, alphaR: real, n: nat): real {
    if n == 0 then env else Envelope(g, Settle(g, env, alphaA, alphaR, n - 1), alphaA, alphaR)
  }

  /** A channel held at a constant level moves its envelope as Settle does. */
  lemma {:induction false} RunAtConstantLevel(p: Primitives, c: Controls, env: real, level: real, xs: seq<real>)
    requires 0.0 < c.ratio
    requires forall j :: 0 <= j < |xs| ==> Level(p, xs[j]) == level
    ensures Run(p, c, env, xs).env == Settle(GainChange(level, c.threshold, c.ratio), env, c.alphaA, c.alphaR, |xs|)
    decreases |xs|
  {
    if xs != [] {
      var init := xs[..|xs| - 1];
      RunAtConstantLevel(p, c, env, level, init);
      assert Level(p, xs[|xs| - 1]) == level;
    }
  }

  /** Attack: from an envelope above a constant gain change g, every sample
      scales the gap to g by the attack coefficient, so after n samples the
      gap is alphaA^n times the first (DecayIsPow). */
  lemma {:induction false} SettleAttack(g: real, env: real, alphaA: real, alphaR: real, n: nat)
    requires 0.0 <= alphaA && g < env
    ensures Settle(g, env, alphaA, alphaR, n) - g == Decay(alphaA, env - g, n)
  {
    if n > 0 {
      var m := n - 1;
      SettleAttack(g, env, alphaA, alphaR, m);
      DecaySign(alphaA, env - g, m);
      var prev := Settle(g, env, alphaA, alphaR, m);
      var gap := Decay(alphaA, env - g, m);
      EnvelopeGapAttack(g, prev, alphaA, alphaR, gap);
      assert Settle(g, env, alphaA, alphaR, n) == Envelope(g, prev, alphaA, alphaR);
      assert Decay(alphaA, env - g, n) == alphaA * gap;
    } else {
      assert Settle(g, env, alphaA, alphaR, 0) == env && Decay(alphaA, env - g, 0) == env - g;
    }
  }

  /** Release: from an envelope at or below a constant gain change g, every
      sample scales the gap to g by the release coefficient. */
  lemma {:induction false} SettleRelease(g: real, env: real, alphaA: real, alphaR: real, n: nat)
    requires 0.0 <= alphaR && env <= g
    ensures Settle(g, env, alphaA, alphaR, n) - g == Decay(alphaR, env - g, n)
  {
    if n > 0 {
      var m := n - 1;
      SettleRelease(g, env, alphaA, alphaR, m);
      DecaySign(alphaR, env - g, m);
      var prev := Settle(g, env, alphaA, alphaR, m);
      var gap := Decay(alphaR, env - g, m);
      EnvelopeGapRelease(g, prev, alphaA, alphaR, gap);
      assert Settle(g, env, alphaA, alphaR, n) == Envelope(g, prev, alphaA, alphaR);
      assert Decay(alphaR, env - g, n) == alphaR * gap;
    } else {
      assert Settle(g, env, alphaA, alphaR, 0) == env && Decay(alphaR, env - g, 0) == env - g;
    }
  }

  /** A non-negative gap to g selects the attack coefficient, or is zero. */
  lemma EnvelopeGapAttack(g: real, prev: real, alphaA: real, alphaR: real, gap: real)
    requires 0.0 <= gap && prev - g == gap
    ensures Envelope(g, prev, alphaA, alphaR) - g == alphaA * gap
  {
    EnvelopeGap(g, prev, alphaA, alphaR);
    if prev == g {
      assert alphaR * (prev - g) == 0.0 == alphaA * gap;
    }
  }

  /** A non-positive gap to g always selects the release coefficient. */
  lemma EnvelopeGapRelease(g: real, prev: real, alphaA: real, alphaR: real, gap: real)
    requires gap <= 0.0 && prev - g == gap
    ensures Envelope(g, prev, alphaA, alphaR) - g == alphaR * gap
  {
    EnvelopeGap(g, prev, alphaA, alphaR);
  }

  // ---------------------------------------------------------------------------
  // Arithmetic helpers

  lemma MulNonNeg(a: real, b: real)
    requires 0.0 <= a && 0.0 <= b
    ensures 0.0 <= a * b
  {
  }

  lemma MulPositive(a: real, b: real)
    requires 0.0 < a && 0.0 < b
    ensures 0.0 < a * b
  {
  }

  lemma DivPositive(a: real, t: real)
    requires 0.0 < a && 0.0 < t
    ensures 0.0 < a / t
  {
  }

  lemma FactorSign(a: real, r: real)
    requires 0.0 < r && 0.0 < a * r
    ensures 0.0 < a
  {
  }

  /** For d > 0 and r > 0 with q * r == d: q is positive, at most d when
      r >= 1 (strictly below when r > 1), and above d when r < 1. */
  lemma FactorBounds(q: real, r: real, d: real)
    requires 0.0 < d && 0.0 < r && q * r == d
    ensures 0.0 < q
    ensures 1.0 <= r ==> q <= d
    ensures 1.0 < r ==> q < d
    ensures r < 1.0 ==> d < q
  {
    FactorSign(q, r);
    if 1.0 < r {
      MulPositive(q, r - 1.0);
      var x := q * (r - 1.0);
      assert x == d - q;
    } else if r < 1.0 {
      var s := 1.0 - r;
      MulPositive(q, s);
      var x, y := q * s, q * r;
      assert x + y == q by {
        assert x + y == q * (s + r);
      }
    }
  }

  lemma QuotientBounds(d: real, r: real)
    requires 0.0 < d && 0.0 < r
    ensures 0.0 < d / r
    ensures 1.0 <= r ==> d / r <= d
    ensures 1.0 < r ==> d / r < d
    ensures r < 1.0 ==> d < d / r
  {
    FactorBounds(d / r, r, d);
  }

  lemma QuotientAntitone(d: real, r1: real, r2: real)
    requires 0.0 < d && 0.0 < r1 <= r2
    ensures d / r2 <= d / r1
  {
    FactorAntitone(d / r1, d / r2, r1, r2, d);
  }

  lemma FactorAntitone(q1: real, q2: real, r1: real, r2: real, d: real)
    requires 0.0 < d && 0.0 < r1 <= r2 && q1 * r1 == d && q2 * r2 == d
    ensures q2 <= q1
  {
  }

  /** If 0 <= a <= b, scaling x by a gives a magnitude at most scaling it by b. */
  lemma ScaleAtMost(a: real, b: real, x: real)
    requires 0.0 <= a <= b
    ensures Abs(a * x) <= Abs(b * x)
  {
    MulNonNeg(b - a, Abs(x));
    MulNonNeg(a, Abs(x));
    assert Abs(a * x) == a * Abs(x);
    assert Abs(b * x) == b * Abs(x);
    assert b * Abs(x) - a * Abs(x) == (b - a) * Abs(x);
  }

  /** Scaling x by a coefficient in [0, 1] lands between 0 and x. */
  lemma ScaleToward(a: real, x: real)
    requires InUnit(a)
    ensures Between(a * x, 0.0, x)
  {
    var ax := a * x;
    if 0.0 <= x {
      MulNonNeg(a, x);
      MulNonNeg(1.0 - a, x);
      var y := (1.0 - a) * x;
      assert y == x - ax;
    } else {
      MulNonNeg(a, -x);
      MulNonNeg(1.0 - a, -x);
      var y := (1.0 - a) * (-x);
      var z := a * (-x);
      assert y == ax - x;
      assert z == -ax;
    }
  }

  /** What a processed channel guarantees when the compressor attenuates and
      its envelope starts at or below 0 dB: the envelope stays there and no
      sample gets louder. */
  lemma ProcessedGuarantees(p: Primitives, c: Controls, env0: real, xs: seq<real>, out: seq<real>, env: real)
    requires Compressing(c) && env0 <= 0.0 && Processed(p, c, env0, xs, out, env)
    ensures env <= 0.0
    ensures p.Lawful() ==> Attenuated(out, xs)
  {
    EnvelopeStaysNonPositive(p, c, env0, xs);
    if p.Lawful() {
      NeverAmplifies(p, c, env0, xs);
    }
  }
}
