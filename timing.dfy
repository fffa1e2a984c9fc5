/** Beat arithmetic shared by the audio recorder (engine/src/recorder.rs)
    and the MIDI recorder (engine/src/midi_recorder.rs): both run at
    48 kHz, clamp the tempo to [20, 300] BPM and turn it into a whole
    number of samples per beat with a saturating `as u64` cast. */
module Timing {
  import opened Common

  /** `TARGET_SAMPLE_RATE` of the audio-file module and `SAMPLE_RATE` of
      midi_recorder.rs. */
  const SAMPLE_RATE_HZ: nat := 48000

  const MIN_TEMPO: real := 20.0
  const MAX_TEMPO: real := 300.0

  predicate ValidTempo(bpm: real)
  {
    MIN_TEMPO <= bpm <= MAX_TEMPO
  }

  /** `(60.0 / tempo * 48000.0) as u64`: the beat length in samples. */
  function SamplesPerBeat(bpm: real): (n: nat)
    requires bpm > 0.0
    ensures ValidTempo(bpm) ==> 9600 <= n <= 144000
  {
    BeatLengthBounds(bpm);
    CastU64(60.0 / bpm * SAMPLE_RATE_HZ as real)
  }

  /** In the clamped tempo range a beat lasts between 9600 samples (300
      BPM) and 144000 samples (20 BPM); in particular it is never 0, so
      the modulo and division by it are defined. */
  lemma BeatLengthBounds(bpm: real)
    requires bpm > 0.0
    ensures CastU64(60.0 / bpm * SAMPLE_RATE_HZ as real) as real <= 60.0 / bpm * SAMPLE_RATE_HZ as real
    ensures ValidTempo(bpm) ==> 9600 <= CastU64(60.0 / bpm * SAMPLE_RATE_HZ as real) <= 144000
  {
    var x := 60.0 / bpm;
    assert x * bpm == 60.0;
    if ValidTempo(bpm) {
      QuotientBetween(60.0, bpm);
      assert 0.2 <= x <= 3.0;
    }
  }

  lemma QuotientBetween(a: real, t: real)
    requires a == 60.0 && MIN_TEMPO <= t <= MAX_TEMPO
    ensures 0.2 <= a / t <= 3.0
  {
    var x := a / t;
    assert x * t == a;
    assert (x - 0.2) * t == a - 0.2 * t;
    assert (3.0 - x) * t == 3.0 * t - a;
    SignOfProduct(x - 0.2, t);
    SignOfProduct(3.0 - x, t);
  }

  lemma SignOfProduct(a: real, t: real)
    requires t > 0.0 && a * t >= 0.0
    ensures a >= 0.0
  {
  }

  /** At the default 120 BPM a beat is exactly 24000 samples. */
  lemma SamplesPerBeatAt120()
    ensures SamplesPerBeat(120.0) == 24000
  {
    assert 60.0 / 120.0 * SAMPLE_RATE_HZ as real == 24000.0;
  }
}
