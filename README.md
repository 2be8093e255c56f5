# Real-Time-Compressor: the Compressor core in Dafny

This project models the `Compressor` class of the Real-Time-Compressor
repository. It is a per-sample dynamic-range compressor that rewrites an audio
buffer in place. For each sample, in order, it does three things:

1. **Envelope follower.** If `|x|` exceeds the envelope, the envelope jumps to
   `|x|` (instant attack). Otherwise it releases exponentially:
   `envelope * (1 - release) + |x| * release`.
2. **Gain computer.** Above the threshold the gain is
   `1 - (envelope - threshold) / (envelope * ratio)`. At or below it the gain is 1.
3. **Apply.** The sample is multiplied by that gain where it sits.

`envelope` and `gain` are fields of the object, so they carry over from one
`process_audio` call to the next. The C entry point `process_audio_buffer`
builds a fresh compressor for every call, configures it with the four setters,
processes a copy of the buffer and copies the result back.

Layout:

- `dynamics.dfy` (module `Dynamics`) holds the per-sample formulas as pure
  functions: `Abs`, `NextEnvelope` (with its release step `Decay`), `Gain`,
  `ApplyGain`, one `Step`, and `Process`. `Process` is the reference semantics
  of a run of samples: a left fold of `Step` that returns the state left behind
  and the processed samples. `Follow` is the envelope follower alone, folded
  over a run.
- `properties.dfy` (module `Properties`) holds the lemmas about `Process`,
  `Follow` and `Gain`.
- `compressor.dfy` (module `Processor`) holds the class `Compressor`. Its fields
  mirror the source: `threshold`, `ratio`, `attackTime`, `releaseTime`, `gain`
  and `envelope`. It has the default constructor, the four setters, and
  `ProcessAudio`, a loop over an `array<real>` that overwrites each element.
  `ProcessAudio` is proved equal to `Process`. The module also holds
  `ProcessAudioBuffer`, the one-shot entry point, with its two copies:
  `CopyPrefix` (the vector built from the pointer and the size) and `CopyBack`
  (the final `std::copy`).

Samples, envelope and gain are `real`, not 32-bit floats. The gain formula
divides by `envelope * ratio`. Every operation that computes a gain therefore
requires `0 <= threshold` and `0 < ratio` (`Params.Defined`). Under those
conditions `envelope > threshold` implies that the divisor is positive. The
release coefficient is used the way the code uses it, as a per-sample
smoothing factor. The header calls it a time in seconds, but the code never
treats it as one. Lemmas that need the coefficient to lie in [0, 1] say so
(`Params.Smoothing`).

Two consequences of the gain formula are proved rather than assumed
(`OutputLevelAboveThreshold`, `GainRisesWithRatio`, `DefaultSettingsMute`):

- Above the threshold the output level is `e - (e - t) / ratio`. A larger ratio
  therefore removes less of the excess.
- The constructor's defaults (threshold 0, ratio 1) give gain 0 for any
  positive envelope, so a default compressor mutes everything.

Both contradict the header. `compressor.h:37` documents the ratio as "4.0 for
a 4:1 ratio", the usual meaning, in which the excess over the threshold is
divided by the ratio and ratio 1 leaves the signal unchanged. The formula at
`compressor.cpp:40` does the reverse: it divides the excess that is *removed*
by the ratio. Ratio 1 therefore pins the output level to the threshold, and a
growing ratio lets more of the signal through. The model follows the code, and
the lemmas above state what the code does.

## Model

| member | source | states |
|---|---|---|
| `Dynamics.Abs` | src/cpp/compressor/compressor.cpp:27 | the magnitude is non-negative and equals the sample or its negation |
| `Dynamics.NextEnvelope` | src/cpp/compressor/compressor.cpp:27-35 | a sample louder than the envelope sets the envelope to its magnitude; with release in [0, 1] the new envelope is at least the magnitude, and in the release branch it does not rise above the old envelope |
| `Dynamics.Decay` | src/cpp/compressor/compressor.cpp:34 | one release step moves the envelope a fraction `release` of the way to the magnitude: its distance from the magnitude is multiplied by 1 - release, and its change is release times (magnitude - envelope) |
| `Dynamics.Follow` | src/cpp/compressor/compressor.cpp:25-35 | the envelope follower run over a sequence: with release in [0, 1], the envelope after a non-empty run is at least the last sample's magnitude, and a non-negative envelope stays non-negative |
| `Dynamics.Gain` | src/cpp/compressor/compressor.cpp:38-44 | the gain is exactly 1 at or below the threshold; above it, with threshold >= 0 and ratio > 0, it lies in [1 - 1/ratio, 1) |
| `Dynamics.Step` | src/cpp/compressor/compressor.cpp:27-44 | one iteration's state update: a louder sample sets the envelope to its magnitude; the new gain is 1 exactly when the new envelope is at or below the threshold, and otherwise lies in [1 - 1/ratio, 1) |
| `Dynamics.ApplyGain` | src/cpp/compressor/compressor.cpp:47 | the processed sample: unity gain passes the sample through unchanged, and a gain in [0, 1] never makes it louder |
| `Dynamics.Process` | src/cpp/compressor/compressor.cpp:23-48 | processing a run yields exactly one output per input sample |
| `Properties.ProcessChunks` | src/cpp/compressor/compressor.h:9-14 | processing chunk a and then chunk b from the state a leaves gives the same final state and outputs as processing a + b in one call |
| `Properties.ProcessSnoc` | src/cpp/compressor/compressor.cpp:25-48 | one more sample adds exactly one step to the state and one processed sample to the output |
| `Properties.ProcessAt` | src/cpp/compressor/compressor.cpp:25-47 | output k is input k times the gain computed at step k, from the envelope that already includes sample k, so there is no delay |
| `Properties.EnvelopeAfterEachSample` | src/cpp/compressor/compressor.cpp:27-35 | after each sample of a run the envelope is at least that sample's magnitude; it equals the magnitude when the sample was louder than the envelope, and it has not risen otherwise |
| `Properties.BelowThresholdUnchanged` | src/cpp/compressor/compressor.cpp:38-47 | if the envelope starts at or below the threshold and every sample's magnitude is at or below it, the output equals the input whatever the ratio, and the envelope stays at or below the threshold |
| `Properties.NeverAmplifies` | src/cpp/compressor/compressor.cpp:38-47 | with ratio >= 1, no output sample has a larger magnitude than its input |
| `Properties.ProcessFollows` | src/cpp/compressor/compressor.cpp:27-35 | the envelope a run leaves is the envelope follower folded over the samples; the gain never feeds back into it |
| `Properties.SilenceDecay` | src/cpp/compressor/compressor.cpp:32-35 | after n zero samples, starting from a non-negative envelope e with release <= 1, the envelope is e * (1 - release)^n |
| `Properties.SilenceReleasesEnvelope` | src/cpp/compressor/compressor.cpp:32-35 | a compressor state with non-negative envelope e that processes n zeros, with release <= 1, is left with envelope e * (1 - release)^n |
| `Properties.SilenceStaysSilent` | src/cpp/compressor/compressor.cpp:47 | a run of zeros is processed into a run of zeros |
| `Properties.DecayedIsPow` | src/cpp/compressor/compressor.cpp:34 | helper for SilenceDecay: scaling by b once per sample for n samples is scaling by b^n |
| `Properties.AttackIgnored` | src/cpp/compressor/compressor.cpp:60-62 | changing the attack setting changes neither the output nor the state left behind, because the attack time is never read |
| `Properties.EnvelopeStaysNonNegative` | src/cpp/compressor/compressor.cpp:27-35 | with release in [0, 1], a non-negative envelope stays non-negative over any run |
| `Properties.RisingEndsOnLast` | src/cpp/compressor/compressor.cpp:28-31 | if every sample is louder than the envelope before it, the envelope ends on the magnitude of the last sample |
| `Properties.AttackTracksRisingInput` | src/cpp/compressor/compressor.cpp:28-31 | on input whose magnitudes keep rising above the envelope, the envelope right after each sample equals that sample's magnitude (instant attack) |
| `Properties.OutputLevelAboveThreshold` | src/cpp/compressor/compressor.cpp:38-40 | above the threshold, envelope times gain is e - (e - t) / ratio |
| `Properties.GainRisesWithRatio` | src/cpp/compressor/compressor.cpp:40 | for a fixed envelope and threshold, a larger ratio never gives a smaller gain |
| `Properties.GainInUnit` | src/cpp/compressor/compressor.cpp:38-44 | helper for NeverAmplifies: with threshold >= 0 and ratio >= 1 the gain lies in [0, 1] |
| `Properties.GainMutes` | src/cpp/compressor/compressor.cpp:40 | helper for DefaultSettingsMute: with threshold 0 and ratio 1 the gain is 0 for any positive envelope |
| `Properties.DefaultSettingsMute` | src/cpp/compressor/compressor.cpp:13-20 | with the constructor's threshold 0 and ratio 1, and release in [0, 1], every output sample is 0 |
| `Properties.InitialAtRest` | src/cpp/compressor/compressor.cpp:18-19 | the state of a new compressor (gain 1, envelope 0) is at rest: a zero sample leaves it unchanged, and the first sample sets the envelope to that sample's magnitude |
| `Properties.WorkedExample` | src/cpp/compressor/compressor.cpp:23-48 | with threshold 0.5, ratio 4 and release 0.2, a fresh compressor maps [0.1, 0.2, 0.8, 0.4] to [0.1, 0.2, 0.725, 133/360] |
| `Processor.Compressor.constructor` | src/cpp/compressor/compressor.cpp:13-20 | a new compressor has threshold 0, ratio 1, attack 0.05, release 0.2, gain 1 and envelope 0 |
| `Processor.Compressor.ProcessAudio` | src/cpp/compressor/compressor.cpp:23-48 | the buffer is overwritten in place with the processed samples of its old contents, and the envelope and gain become the state after the last sample; the settings are untouched |
| `Processor.Compressor.SetThreshold` | src/cpp/compressor/compressor.cpp:52-54 | only the threshold changes; the other settings, the envelope and the gain keep their values |
| `Processor.Compressor.SetRatio` | src/cpp/compressor/compressor.cpp:56-58 | only the ratio changes; the other settings, the envelope and the gain keep their values |
| `Processor.Compressor.SetAttack` | src/cpp/compressor/compressor.cpp:60-62 | only the attack time changes; the other settings, the envelope and the gain keep their values |
| `Processor.Compressor.SetRelease` | src/cpp/compressor/compressor.cpp:64-66 | only the release coefficient changes; the other settings, the envelope and the gain keep their values |
| `Processor.CopyPrefix` | src/cpp/compressor/compressor.cpp:94 | a new array holding exactly the first `size` samples of the buffer |
| `Processor.CopyBack` | src/cpp/compressor/compressor.cpp:100 | the processed samples overwrite the front of the buffer, and the rest of the buffer is left as it was |
| `Processor.ProcessAudioBuffer` | src/cpp/compressor/compressor.cpp:82-101 | the first `size` samples become the output of a fresh, default-constructed compressor configured with the four arguments; the rest of the buffer is untouched, and no state survives the call |

## Left out

- 32-bit floating point is not modelled. Samples and state are `real`, with no rounding and no NaN or infinity.
- Degenerate settings are excluded by the requires `0 <= threshold` and `0 < ratio`. With a zero ratio, or a zero envelope above a negative threshold, the source divides by zero in floating point. The requires also excludes cases where the source computes a finite result. A negative ratio gives a gain above 1 that amplifies: ratio -4 gives `1 + (e - t) / (4e)`. A negative threshold is excluded even on runs where the envelope never reaches 0. The header documents the threshold as lying in [0, 1]. The upper bound is not required here because nothing depends on it.
- Processor.ProcessAudioBuffer: the raw `float*` pointer and the signed `int size` are modelled as an array and a natural number with `size <= buffer.Length`. Pointer validity, a negative size, `extern "C"` and the DLL export are not modelled.
- Access control is not modelled. The C++ fields are private, while Dafny class fields are visible to the module. In this model only the constructor, the setters and `ProcessAudio` write them.
- The lookahead delay line, the sample-rate argument and the per-sample debug trace are not modelled. Only the console harness `src/cpp/compressor/test_main.cpp` calls them (`set_lookahead`, `DebugSample`, a three-argument `process_audio`), and neither `compressor.h` nor `compressor.cpp` declares or implements them.
- The console harness and the Python real-time player (`src/python/realtime_compressor.py`) are I/O only: printing, DLL loading, audio decoding and a stream callback.
