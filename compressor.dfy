/** The Compressor object: its settings and its running state are fields that
    the setters and ProcessAudio update in place, and ProcessAudio rewrites the
    caller's buffer sample by sample. Every method is specified against the
    value-level semantics in module Dynamics. */
module Processor {
  import opened Dynamics
  import opened Properties

  class Compressor {
    // Settings
    var threshold: real
    var ratio: real
    var attackTime: real
    var releaseTime: real

    // Running state, carried from one sample and one call to the next
    var gain: real
    var envelope: real

    /** The four settings as a value. */
    function Settings(): Params
      reads this
    {
      Params(threshold, ratio, attackTime, releaseTime)
    }

    /** The running state as a value. */
    function Current(): State
      reads this
    {
      State(envelope, gain)
    }

    /** A new compressor: threshold 0, ratio 1, attack 0.05, release 0.2,
        unity gain and a zero envelope. */
    constructor ()
      ensures Settings() == Params(0.0, 1.0, 0.05, 0.2)
      ensures Current() == Initial
    {
      threshold := 0.0;
      ratio := 1.0;
      attackTime := 0.05;
      releaseTime := 0.2;
      gain := 1.0;
      envelope := 0.0;
    }

    /** Compresses `buffer` in place. Each sample is replaced by its processed
        value, and the envelope and gain left behind are those of the last
        sample, so the next call carries on from them. */
    method ProcessAudio(buffer: array<real>)
      requires Settings().Defined()
      modifies this`envelope, this`gain, buffer
      ensures buffer[..] == Process(Settings(), old(Current()), old(buffer[..])).out
      ensures Current() == Process(Settings(), old(Current()), old(buffer[..])).final
    {
      ghost var xs := buffer[..];
      ghost var s0 := Current();
      var i := 0;
      while i < buffer.Length
        invariant 0 <= i <= buffer.Length
        invariant buffer[i..] == xs[i..]
        invariant Current() == Process(Settings(), s0, xs[..i]).final
        invariant buffer[..i] == Process(Settings(), s0, xs[..i]).out
      {
        var sample := buffer[i];
        envelope := NextEnvelope(envelope, sample, releaseTime);
        gain := Gain(envelope, threshold, ratio);
        buffer[i] := ApplyGain(sample, gain);

        ProcessSnoc(Settings(), s0, xs[..i], sample);
        assert xs[..i + 1] == xs[..i] + [sample];
        assert buffer[..i + 1] == buffer[..i] + [ApplyGain(sample, gain)];
        i := i + 1;
      }
      assert xs[..i] == xs;
      assert buffer[..i] == buffer[..];
    }

    /** Sets the threshold and nothing else. */
    method SetThreshold(value: real)
      modifies this`threshold
      ensures Settings() == old(Settings()).(threshold := value)
      ensures Current() == old(Current())
    {
      threshold := value;
    }

    /** Sets the ratio and nothing else. */
    method SetRatio(value: real)
      modifies this`ratio
      ensures Settings() == old(Settings()).(ratio := value)
      ensures Current() == old(Current())
    {
      ratio := value;
    }

    /** Sets the attack time and nothing else. */
    method SetAttack(value: real)
      modifies this`attackTime
      ensures Settings() == old(Settings()).(attack := value)
      ensures Current() == old(Current())
    {
      attackTime := value;
    }

    /** Sets the release coefficient and nothing else. */
    method SetRelease(value: real)
      modifies this`releaseTime
      ensures Settings() == old(Settings()).(release := value)
      ensures Current() == old(Current())
    {
      releaseTime := value;
    }
  }

  /** The one-shot entry point: a fresh Compressor configured with the four
      settings processes a copy of the first `size` samples, which is then
      copied back. Nothing survives the call, so the result depends only on
      the arguments. */
  method ProcessAudioBuffer(buffer: array<real>, size: nat, threshold: real, ratio: real,
                            attack: real, release: real)
    requires size <= buffer.Length
    requires Params(threshold, ratio, attack, release).Defined()
    modifies buffer
    ensures buffer[..size] == Process(Params(threshold, ratio, attack, release), Initial, old(buffer[..size])).out
    ensures buffer[size..] == old(buffer[size..])
  {
    var compressor := new Compressor();
    compressor.SetThreshold(threshold);
    compressor.SetRatio(ratio);
    compressor.SetAttack(attack);
    compressor.SetRelease(release);

    var audio := CopyPrefix(buffer, size);
    compressor.ProcessAudio(audio);
    CopyBack(audio, buffer);
  }

  /** A new array holding the first `size` samples of `buffer` (the vector
      built from the pointer and the size). */
  method CopyPrefix(buffer: array<real>, size: nat) returns (audio: array<real>)
    requires size <= buffer.Length
    ensures fresh(audio)
    ensures audio[..] == buffer[..size]
  {
    audio := new real[size];
    var i := 0;
    while i < size
      invariant 0 <= i <= size
      invariant audio[..i] == buffer[..i]
    {
      audio[i] := buffer[i];
      i := i + 1;
    }
    assert audio[..] == audio[..i];
  }

  /** Copies all of `audio` over the front of `buffer` and leaves the rest of
      `buffer` as it was. */
  method CopyBack(audio: array<real>, buffer: array<real>)
    requires audio.Length <= buffer.Length && audio != buffer
    modifies buffer
    ensures buffer[..audio.Length] == audio[..]
    ensures buffer[audio.Length..] == old(buffer[audio.Length..])
  {
    var i := 0;
    while i < audio.Length
      invariant 0 <= i <= audio.Length
      invariant buffer[..i] == audio[..i]
      invariant buffer[i..] == old(buffer[i..])
    {
      buffer[i] := audio[i];
      i := i + 1;
    }
    assert audio[..] == audio[..i];
  }
}
