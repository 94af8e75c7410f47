/** The numeric primitives the compressor calls but does not define:
    juce::Decibels::gainToDecibels and decibelsToGain, expf and log.
    The model carries them as function values and assumes nothing about them
    beyond what Lawful() states. */
module MathPrimitives {

  datatype Primitives = Primitives(
    gainToDecibels: real -> real,
    decibelsToGain: real -> real,
    exp: real -> real,
    log: real -> real)
  {
    /** The only facts about the primitives that the proofs rely on:
        decibelsToGain is a non-negative, monotone gain with 0 dB at unity,
        exp maps non-positive arguments into [0, 1], and log is positive above 1. */
    ghost predicate Lawful() {
      && (forall d :: 0.0 <= decibelsToGain(d))
      && decibelsToGain(0.0) == 1.0
      && (forall d1, d2 :: d1 <= d2 ==> decibelsToGain(d1) <= decibelsToGain(d2))
      && (forall x :: x <= 0.0 ==> 0.0 <= exp(x) <= 1.0)
      && (forall x :: x > 1.0 ==> log(x) > 0.0)
    }
  }

  /** An attenuation (a non-positive level in dB) becomes a linear gain in [0, 1]. */
  lemma AttenuationIsUnitGain(p: Primitives, d: real)
    requires p.Lawful() && d <= 0.0
    ensures 0.0 <= p.decibelsToGain(d) <= 1.0
  {
  }

  /** Lawful() is not contradictory: even a coarse set of primitives (a
      two-step dB-to-gain curve, a constant exp) satisfies it. */
  lemma LawfulPrimitivesExist()
    ensures exists p: Primitives :: p.Lawful()
  {
    var toGain := (d: real) => if d <= 0.0 then 1.0 else 2.0;
    var toDb := (g: real) => g - 1.0;
    var ex := (x: real) => 1.0;
    var lg := (x: real) => x - 1.0;
    var p := Primitives(toDb, toGain, ex, lg);
    assert p.Lawful();
  }
}
