/** What processing a run of samples guarantees: chunking, per-sample
    alignment of output and gain, unity below the threshold, no amplification,
    geometric decay on silence, instant attack, and the role of each setting. */
module Properties {
  import opened Dynamics

  /** One step of the fold: the first sample is stepped and scaled, the rest
      is processed from the state it leaves. */
  lemma ProcessCons(p: Params, s: State, xs: seq<real>)
    requires p.Defined() && xs != []
    ensures Process(p, s, xs).final == Process(p, Step(p, s, xs[0]), xs[1..]).final
    ensures Process(p, s, xs).out
         == [ApplyGain(xs[0], Step(p, s, xs[0]).gain)] + Process(p, Step(p, s, xs[0]), xs[1..]).out
  {
  }

  /** Processing `a` and then `b` from the state `a` leaves behind is the same
      as processing `a + b` in one go: the state carries across chunks. */
  lemma {:induction false} ProcessChunks(p: Params, s: State, a: seq<real>, b: seq<real>)
    requires p.Defined()
    ensures Process(p, s, a + b).final == Process(p, Process(p, s, a).final, b).final
    ensures Process(p, s, a + b).out == Process(p, s, a).out + Process(p, Process(p, s, a).final, b).out
    decreases |a|
  {
    if a == [] {
      assert a + b == b;
    } else {
      var s1 := Step(p, s, a[0]);
      assert (a + b)[0] == a[0];
      assert (a + b)[1..] == a[1..] + b;
      ProcessCons(p, s, a);
      ProcessCons(p, s, a + b);
      ProcessChunks(p, s1, a[1..], b);
      var y := ApplyGain(a[0], s1.gain);
      var ra := Process(p, s1, a[1..]);
      var rb := Process(p, ra.final, b);
      assert [y] + (ra.out + rb.out) == ([y] + ra.out) + rb.out;
    }
  }

  /** Appending one sample to a run adds one step and one output. */
  lemma ProcessSnoc(p: Params, s: State, xs: seq<real>, x: real)
    requires p.Defined()
    ensures Process(p, s, xs + [x]).final == Step(p, Process(p, s, xs).final, x)
    ensures Process(p, s, xs + [x]).out
         == Process(p, s, xs).out + [ApplyGain(x, Step(p, Process(p, s, xs).final, x).gain)]
  {
    ProcessChunks(p, s, xs, [x]);
    var before := Process(p, s, xs).final;
    assert [x][1..] == [];
    ProcessCons(p, before, [x]);
  }

  /** The k-th output is the k-th input times the gain computed at step k, from
      the envelope that includes sample k itself (no delay). */
  lemma ProcessAt(p: Params, s: State, xs: seq<real>, k: int)
    requires p.Defined() && 0 <= k < |xs|
    ensures Process(p, s, xs[..k + 1]).final == Step(p, Process(p, s, xs[..k]).final, xs[k])
    ensures Process(p, s, xs).out[k] == ApplyGain(xs[k], Process(p, s, xs[..k + 1]).final.gain)
  {
    var head, tail := xs[..k + 1], xs[k + 1..];
    assert xs[..k] + [xs[k]] == head;
    ProcessSnoc(p, s, xs[..k], xs[k]);
    assert head + tail == xs;
    ProcessChunks(p, s, head, tail);
  }

  /** Right after sample k the envelope is at least |xs[k]|; it is exactly
      |xs[k]| when that exceeded the envelope before, and otherwise it has not
      risen. */
  lemma EnvelopeAfterEachSample(p: Params, s: State, xs: seq<real>, k: int)
    requires p.Defined() && p.Smoothing() && 0 <= k < |xs|
    ensures Abs(xs[k]) <= Process(p, s, xs[..k + 1]).final.envelope
    ensures Abs(xs[k]) > Process(p, s, xs[..k]).final.envelope
        ==> Process(p, s, xs[..k + 1]).final.envelope == Abs(xs[k])
    ensures Abs(xs[k]) <= Process(p, s, xs[..k]).final.envelope
        ==> Process(p, s, xs[..k + 1]).final.envelope <= Process(p, s, xs[..k]).final.envelope
  {
    ProcessAt(p, s, xs, k);
  }

  /** While every sample stays at or below the threshold (and the envelope starts
      there), the envelope never crosses the threshold and the output is the
      input, whatever the ratio. */
  lemma {:induction false} BelowThresholdUnchanged(p: Params, s: State, xs: seq<real>)
    requires p.Defined() && p.Smoothing()
    requires s.envelope <= p.threshold
    requires forall k :: 0 <= k < |xs| ==> Abs(xs[k]) <= p.threshold
    ensures Process(p, s, xs).out == xs
    ensures Process(p, s, xs).final.envelope <= p.threshold
    decreases |xs|
  {
    if xs != [] {
      var s1 := Step(p, s, xs[0]);
      assert s1.envelope <= p.threshold;
      assert s1.gain == 1.0;
      assert forall k :: 0 <= k < |xs[1..]| ==> xs[1..][k] == xs[k + 1];
      BelowThresholdUnchanged(p, s1, xs[1..]);
      ProcessCons(p, s, xs);
      assert ApplyGain(xs[0], s1.gain) == xs[0];
      assert xs == [xs[0]] + xs[1..];
    }
  }

  /** With ratio >= 1 the gain lies in [0, 1]. */
  lemma GainInUnit(e: real, t: real, ratio: real)
    requires 0.0 <= t && 1.0 <= ratio
    ensures 0.0 <= Gain(e, t, ratio) <= 1.0
  {
    assert 1.0 / ratio <= 1.0;
  }

  /** With ratio >= 1 every gain lies in [1 - 1/ratio, 1] within [0, 1], so no
      output sample is louder than its input. */
  lemma {:induction false} NeverAmplifies(p: Params, s: State, xs: seq<real>)
    requires p.Defined() && 1.0 <= p.ratio
    ensures forall k :: 0 <= k < |xs| ==> Abs(Process(p, s, xs).out[k]) <= Abs(xs[k])
    decreases |xs|
  {
    if xs != [] {
      var s1 := Step(p, s, xs[0]);
      ProcessCons(p, s, xs);
      GainInUnit(s1.envelope, p.threshold, p.ratio);
      NeverAmplifies(p, s1, xs[1..]);
      var out, rest := Process(p, s, xs).out, Process(p, s1, xs[1..]).out;
      forall k | 0 < k < |xs|
        ensures Abs(out[k]) <= Abs(xs[k])
      {
        assert out[k] == rest[k - 1];
        assert xs[k] == xs[1..][k - 1];
      }
    }
  }

  /** b to the power n. */
  function Pow(b: real, n: nat): real
  {
    if n == 0 then 1.0 else b * Pow(b, n - 1)
  }

  /** A run of n zero samples. */
  function Silence(n: nat): (z: seq<real>)
    ensures |z| == n && forall k :: 0 <= k < n ==> z[k] == 0.0
  {
    if n == 0 then [] else [0.0] + Silence(n - 1)
  }

  /** `e` scaled by `b` once per sample, n times over. */
  function Decayed(e: real, b: real, n: nat): real
    decreases n
  {
    if n == 0 then e else Decayed(e * b, b, n - 1)
  }

  lemma {:induction false} DecayedIsPow(e: real, b: real, n: nat)
    ensures Decayed(e, b, n) == e * Pow(b, n)
    decreases n
  {
    if n > 0 {
      DecayedIsPow(e * b, b, n - 1);
      MulAssociates(e, b, Pow(b, n - 1));
    }
  }

  lemma MulAssociates(x: real, y: real, z: real)
    ensures (x * y) * z == x * (y * z)
  {
  }

  /** The envelope a run leaves behind is the envelope follower's alone: the
      gain never feeds back into it. */
  lemma {:induction false} ProcessFollows(p: Params, s: State, xs: seq<real>)
    requires p.Defined()
    ensures Process(p, s, xs).final.envelope == Follow(s.envelope, xs, p.release)
    decreases |xs|
  {
    if xs != [] {
      ProcessCons(p, s, xs);
      ProcessFollows(p, Step(p, s, xs[0]), xs[1..]);
    }
  }

  /** On silence every sample takes the release branch, scaling the envelope by
      1 - release. */
  lemma {:induction false} SilenceScalesEnvelope(e: real, release: real, n: nat)
    requires release <= 1.0 && 0.0 <= e
    ensures Follow(e, Silence(n), release) == Decayed(e, 1.0 - release, n)
    decreases n
  {
    if n > 0 {
      var zs := Silence(n);
      assert zs[0] == 0.0 && zs[1..] == Silence(n - 1);
      assert Abs(0.0) == 0.0;
      var e1 := Decay(e, 0.0, release);
      assert e1 == e * (1.0 - release);
      MulNonNegative(e, 1.0 - release);
      assert Follow(e, zs, release) == Follow(e1, Silence(n - 1), release);
      SilenceScalesEnvelope(e1, release, n - 1);
    } else {
      assert Silence(n) == [];
    }
  }

  /** On silence the envelope decays geometrically: after n zero samples it is
      the starting envelope times (1 - release)^n. With ProcessFollows this is
      the envelope a Compressor holds after processing n zeros. */
  lemma SilenceDecay(e: real, release: real, n: nat)
    requires release <= 1.0 && 0.0 <= e
    ensures Follow(e, Silence(n), release) == e * Pow(1.0 - release, n)
  {
    SilenceScalesEnvelope(e, release, n);
    DecayedIsPow(e, 1.0 - release, n);
  }

  /** The same decay seen on a compressor's state: processing n zeros from a
      non-negative envelope leaves envelope * (1 - release)^n. */
  lemma SilenceReleasesEnvelope(p: Params, s: State, n: nat)
    requires p.Defined() && p.release <= 1.0 && 0.0 <= s.envelope
    ensures Process(p, s, Silence(n)).final.envelope == s.envelope * Pow(1.0 - p.release, n)
  {
    // Only the two equalities below are needed; unfolding the folds here
    // gives the solver nonlinear arithmetic to search through for nothing.
    hide Process, Follow;
    ProcessFollows(p, s, Silence(n));
    SilenceDecay(s.envelope, p.release, n);
  }

  /** Silence in, silence out: a zero sample stays zero whatever the gain. */
  lemma {:induction false} SilenceStaysSilent(p: Params, s: State, n: nat)
    requires p.Defined()
    ensures Process(p, s, Silence(n)).out == Silence(n)
    decreases n
  {
    if n > 0 {
      var s1 := Step(p, s, 0.0);
      var zs := Silence(n);
      assert zs[0] == 0.0 && zs[1..] == Silence(n - 1);
      ProcessCons(p, s, zs);
      SilenceStaysSilent(p, s1, n - 1);
      assert ApplyGain(0.0, s1.gain) == 0.0;
    }
  }

  /** The attack setting is never read: changing it changes neither the output
      nor the state. */
  lemma {:induction false} AttackIgnored(p: Params, s: State, xs: seq<real>, attack: real)
    requires p.Defined()
    ensures Process(p.(attack := attack), s, xs) == Process(p, s, xs)
    decreases |xs|
  {
    if xs != [] {
      var q := p.(attack := attack);
      var s1 := Step(p, s, xs[0]);
      assert Step(q, s, xs[0]) == s1;
      AttackIgnored(p, s1, xs[1..], attack);
      ProcessCons(p, s, xs);
      ProcessCons(q, s, xs);
    }
  }

  /** With a release coefficient in [0, 1] a non-negative envelope stays
      non-negative. */
  lemma {:induction false} EnvelopeStaysNonNegative(p: Params, s: State, xs: seq<real>)
    requires p.Defined() && p.Smoothing() && 0.0 <= s.envelope
    ensures 0.0 <= Process(p, s, xs).final.envelope
    decreases |xs|
  {
    if xs != [] {
      EnvelopeStaysNonNegative(p, Step(p, s, xs[0]), xs[1..]);
    }
  }

  /** When every sample is louder than the envelope before it, the envelope
      ends on the magnitude of the last sample. */
  lemma {:induction false} RisingEndsOnLast(p: Params, s: State, xs: seq<real>)
    requires p.Defined() && |xs| > 0
    requires Abs(xs[0]) > s.envelope
    requires forall k :: 0 < k < |xs| ==> Abs(xs[k - 1]) < Abs(xs[k])
    ensures Process(p, s, xs).final.envelope == Abs(xs[|xs| - 1])
    decreases |xs|
  {
    if |xs| > 1 {
      var s1 := Step(p, s, xs[0]);
      assert forall k :: 0 < k < |xs[1..]| ==> xs[1..][k - 1] == xs[k] && xs[1..][k] == xs[k + 1];
      RisingEndsOnLast(p, s1, xs[1..]);
    }
  }

  /** Attack is instantaneous: on an input whose magnitudes keep rising above
      the envelope, the envelope equals the magnitude of each sample right
      after it. */
  lemma AttackTracksRisingInput(p: Params, s: State, xs: seq<real>)
    requires p.Defined()
    requires |xs| > 0 ==> Abs(xs[0]) > s.envelope
    requires forall k :: 0 < k < |xs| ==> Abs(xs[k - 1]) < Abs(xs[k])
    ensures forall k :: 0 <= k < |xs| ==> Process(p, s, xs[..k + 1]).final.envelope == Abs(xs[k])
  {
    forall k | 0 <= k < |xs|
      ensures Process(p, s, xs[..k + 1]).final.envelope == Abs(xs[k])
    {
      RisingEndsOnLast(p, s, xs[..k + 1]);
    }
  }

  /** Above the threshold the output level is e - (e - t) / ratio: a larger
      ratio removes less of the excess. */
  lemma OutputLevelAboveThreshold(e: real, t: real, ratio: real)
    requires 0.0 <= t < e && 0.0 < ratio
    ensures e * Gain(e, t, ratio) == e - (e - t) / ratio
  {
    assert e * ((e - t) / (e * ratio)) == (e - t) / ratio;
  }

  /** The gain does not fall as the ratio grows. */
  lemma GainRisesWithRatio(e: real, t: real, r1: real, r2: real)
    requires 0.0 <= t && 0.0 < r1 <= r2
    ensures Gain(e, t, r1) <= Gain(e, t, r2)
  {
    if e > t {
      var q := (e - t) / e;
      assert (e - t) / (e * r1) == q / r1;
      assert (e - t) / (e * r2) == q / r2;
      DivAntitone(q, r1, r2);
    }
  }

  /** Dividing a non-negative amount by a larger divisor gives less. */
  lemma DivAntitone(q: real, r1: real, r2: real)
    requires 0.0 <= q && 0.0 < r1 <= r2
    ensures q / r2 <= q / r1
  {
    var a, b := q / r1, q / r2;
    assert a * r1 == q && b * r2 == q;
    MulNonNegative(a, r2 - r1);
    assert (a - b) * r2 == a * (r2 - r1);
    NonNegativeFactor(a - b, r2);
  }

  lemma NonNegativeFactor(u: real, v: real)
    requires 0.0 < v && 0.0 <= u * v
    ensures 0.0 <= u
  {
    if u < 0.0 {
      MulNonNegative(-u, v);
    }
  }

  /** With the constructor's threshold 0 and ratio 1 every sample is muted: the
      gain is 1 - e / e = 0 as soon as the envelope is positive. */
  lemma {:induction false} DefaultSettingsMute(attack: real, release: real, s: State, xs: seq<real>)
    requires 0.0 <= release <= 1.0
    ensures Process(Params(0.0, 1.0, attack, release), s, xs).out == Silence(|xs|)
    decreases |xs|
  {
    var p := Params(0.0, 1.0, attack, release);
    if xs != [] {
      var s1 := Step(p, s, xs[0]);
      ProcessCons(p, s, xs);
      if xs[0] != 0.0 {
        GainMutes(s1.envelope);
      }
      assert ApplyGain(xs[0], s1.gain) == 0.0;
      DefaultSettingsMute(attack, release, s1, xs[1..]);
    }
  }

  /** Threshold 0 and ratio 1 give gain 1 - e / e = 0 for any positive envelope. */
  lemma GainMutes(e: real)
    requires 0.0 < e
    ensures Gain(e, 0.0, 1.0) == 0.0
  {
    assert (e - 0.0) / (e * 1.0) == 1.0;
  }

  /** A newly constructed compressor is at rest: a zero sample leaves its state
      as it is, and its first sample sets the envelope to that sample's
      magnitude whatever the release coefficient. */
  lemma InitialAtRest(p: Params)
    requires p.Defined()
    ensures Step(p, Initial, 0.0) == Initial
    ensures forall x :: Step(p, Initial, x).envelope == Abs(x)
  {
    forall x
      ensures Step(p, Initial, x).envelope == Abs(x)
    {
      if Abs(x) <= 0.0 {
        assert Decay(0.0, Abs(x), p.release) == 0.0;
      }
    }
  }

  /** Threshold 0.5, ratio 4, release 0.2 on a fresh compressor: the two quiet
      samples pass, 0.8 gets gain 0.90625, and 0.4 is processed after the
      envelope has decayed to 0.72. */
  lemma WorkedExample()
    ensures Process(Params(0.5, 4.0, 0.05, 0.2), Initial, [0.1, 0.2, 0.8, 0.4]).out
         == [0.1, 0.2, 0.725, 133.0 / 360.0]
  {
    var p := Params(0.5, 4.0, 0.05, 0.2);
    var s1 := Step(p, Initial, 0.1);
    var s2 := Step(p, s1, 0.2);
    var s3 := Step(p, s2, 0.8);
    var s4 := Step(p, s3, 0.4);
    assert s3.envelope == 0.8 && s3.gain == 0.90625;
    assert s4.envelope == 0.72 && s4.gain == 133.0 / 144.0;
  }
}
