/** The per-sample dynamics of the compressor, as pure values: the envelope
    follower, the gain computer, one processing step, and the reference
    semantics of processing a run of samples (a left fold of the step).
    Samples, envelope and gain are modelled as `real`, not as 32-bit floats. */
module Dynamics {

  /** Magnitude of a sample (std::abs on a float). */
  function Abs(x: real): (r: real)
    ensures 0.0 <= r && (r == x || r == -x)
  {
    if x < 0.0 then -x else x
  }

  /** The four settings a Compressor is configured with. `release` is used as a
      per-sample smoothing coefficient; `attack` is carried but never read. */
  datatype Params = Params(threshold: real, ratio: real, attack: real, release: real)
  {
    /** Above the threshold the gain formula divides by envelope * ratio; a
        non-negative threshold and a positive ratio keep that divisor positive. */
    predicate Defined() { 0.0 <= threshold && 0.0 < ratio }

    /** The release coefficient lies in [0, 1], so a release step is a convex
        mix of the old envelope and the new magnitude. */
    predicate Smoothing() { 0.0 <= release <= 1.0 }
  }

  /** The state a Compressor carries from one sample to the next and from one
      call to the next. */
  datatype State = State(envelope: real, gain: real)

  /** State of a newly constructed Compressor. */
  const Initial: State := State(0.0, 1.0)

  /** Envelope follower: instant attack to a louder magnitude, otherwise an
      exponential release towards the current magnitude. */
  function NextEnvelope(envelope: real, x: real, release: real): (r: real)
    ensures Abs(x) > envelope ==> r == Abs(x)
    ensures 0.0 <= release <= 1.0 ==> Abs(x) <= r
    ensures 0.0 <= release <= 1.0 && Abs(x) <= envelope ==> r <= envelope
  {
    var a := Abs(x);
    if a > envelope then a
    else
      DecayBetween(envelope, a, release);
      Decay(envelope, a, release)
  }

  /** One release step: the envelope moves a fraction `release` of the way
      towards the magnitude `a`, so its distance from `a` shrinks by the factor
      1 - release. */
  function Decay(envelope: real, a: real, release: real): (r: real)
    ensures r - a == (envelope - a) * (1.0 - release)
    ensures r - envelope == (a - envelope) * release
  {
    envelope * (1.0 - release) + a * release
  }

  lemma MulNonNegative(u: real, v: real)
    requires 0.0 <= u && 0.0 <= v
    ensures 0.0 <= u * v
  {
  }

  /** With a coefficient in [0, 1] a release step lands between the magnitude
      and the old envelope. */
  lemma DecayBetween(envelope: real, a: real, release: real)
    ensures a <= envelope && 0.0 <= release <= 1.0 ==> a <= Decay(envelope, a, release) <= envelope
  {
    if a <= envelope && 0.0 <= release <= 1.0 {
      MulNonNegative(envelope - a, 1.0 - release);
      MulNonNegative(envelope - a, release);
      assert Decay(envelope, a, release) == a + (envelope - a) * (1.0 - release);
      assert Decay(envelope, a, release) == envelope - (envelope - a) * release;
    }
  }

  /** The envelope follower run over a sequence of samples: the envelope left
      after the last one. With a release coefficient in [0, 1] it never drops
      below the magnitude of the last sample, and a non-negative envelope stays
      non-negative. */
  function Follow(envelope: real, xs: seq<real>, release: real): (r: real)
    ensures 0.0 <= release <= 1.0 && xs != [] ==> Abs(xs[|xs| - 1]) <= r
    ensures 0.0 <= release <= 1.0 && 0.0 <= envelope ==> 0.0 <= r
    decreases |xs|
  {
    if xs == [] then envelope else Follow(NextEnvelope(envelope, xs[0], release), xs[1..], release)
  }

  /** Gain computer: unity at or below the threshold, and above it a reduction
      that never exceeds 1 / ratio. */
  function Gain(envelope: real, threshold: real, ratio: real): (g: real)
    requires 0.0 <= threshold && 0.0 < ratio
    ensures envelope <= threshold ==> g == 1.0
    ensures envelope > threshold ==> 1.0 - 1.0 / ratio <= g < 1.0
  {
    if envelope > threshold then
      ReductionBounds(envelope, threshold, ratio);
      1.0 - (envelope - threshold) / (envelope * ratio)
    else 1.0
  }

  /** The reduction term (e - t) / (e * ratio) lies in (0, 1 / ratio]. */
  lemma ReductionBounds(e: real, t: real, ratio: real)
    requires 0.0 <= t < e && 0.0 < ratio
    ensures 0.0 < (e - t) / (e * ratio) <= 1.0 / ratio
  {
    var q := (e - t) / e;
    assert 0.0 < q <= 1.0;
    assert (e - t) / (e * ratio) == q / ratio;
    assert q / ratio <= 1.0 / ratio;
  }

  /** One sample: update the envelope, then compute the gain from the new
      envelope. The sample itself is scaled by the new gain. */
  function Step(p: Params, s: State, x: real): (r: State)
    requires p.Defined()
    ensures Abs(x) > s.envelope ==> r.envelope == Abs(x)
    ensures r.gain == 1.0 <==> r.envelope <= p.threshold
    ensures r.envelope > p.threshold ==> 1.0 - 1.0 / p.ratio <= r.gain < 1.0
  {
    var e := NextEnvelope(s.envelope, x, p.release);
    State(e, Gain(e, p.threshold, p.ratio))
  }

  /** The processed sample: the input scaled by the gain of its own step. Unity
      gain passes the sample through, and a gain in [0, 1] never makes it
      louder. */
  function ApplyGain(x: real, gain: real): (r: real)
    ensures gain == 1.0 ==> r == x
    ensures 0.0 <= gain <= 1.0 ==> Abs(r) <= Abs(x)
  {
    ProductShrinks(x, gain);
    x * gain
  }

  /** Multiplying by a factor in [0, 1] never increases a magnitude. */
  lemma ProductShrinks(x: real, g: real)
    ensures 0.0 <= g <= 1.0 ==> Abs(x * g) <= Abs(x)
  {
    if 0.0 <= g <= 1.0 {
      if x >= 0.0 {
        MulNonNegative(x, g);
        MulNonNegative(x, 1.0 - g);
      } else {
        MulNonNegative(-x, g);
        MulNonNegative(-x, 1.0 - g);
      }
    }
  }

  /** What processing a run of samples yields: the state afterwards and the
      processed samples. */
  datatype Outcome = Outcome(final: State, out: seq<real>)

  /** Reference semantics of processing `xs` from state `s`: each sample is
      stepped in order and replaced by itself times the gain of its own step.
      The body names the first step and the rest of the run inline rather than
      through `var` bindings: with let-bindings here the verifier no longer
      unfolds Process cheaply in the lemmas about it. */
  function Process(p: Params, s: State, xs: seq<real>): (r: Outcome)
    requires p.Defined()
    ensures |r.out| == |xs|
    decreases |xs|
  {
    if xs == [] then Outcome(s, [])
    else
      Outcome(Process(p, Step(p, s, xs[0]), xs[1..]).final,
              [ApplyGain(xs[0], Step(p, s, xs[0]).gain)] + Process(p, Step(p, s, xs[0]), xs[1..]).out)
  }
}
