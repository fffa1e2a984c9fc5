/** The audio recorder of engine/src/recorder.rs: a count-in, a metronome
    derived from a shared sample counter, and a stereo capture buffer.
    `Recorder` and the `RecorderCallbackRefs` the audio callback holds
    share every field through `Arc`s, so they are one class here; its
    per-frame step is specified by the pure function `Frame` over a
    snapshot of the fields. */
module Recorder {
  import opened Common
  import opened Timing
  import opened AudioFile

  datatype RecordingState = Idle | CountingIn | Recording

  /** All the recorder's shared state. `countInBars` is a `u32`, the
      counter a `u64` that is not wrapped here. */
  datatype RecorderState = RecorderState(state: RecordingState, recorded: seq<real>, counter: nat,
                                         countInBars: nat, tempo: real, metronomeEnabled: bool,
                                         timeSignature: nat)

  /** The tempo is always within the clamp range and the time signature
      (never changed from 4) is positive. */
  predicate Settled(s: RecorderState)
  {
    ValidTempo(s.tempo) && s.timeSignature > 0
  }

  function SamplesPerBar(s: RecorderState): (n: nat)
    requires Settled(s)
    ensures n > 0
  {
    SamplesPerBeat(s.tempo) * s.timeSignature
  }

  /** Length of the count-in in samples. */
  function CountInSamples(s: RecorderState): nat
    requires Settled(s)
  {
    SamplesPerBar(s) * s.countInBars
  }

  function PositionInBar(s: RecorderState, idx: nat): (p: nat)
    requires Settled(s)
    ensures p < SamplesPerBar(s)
  {
    idx % SamplesPerBar(s)
  }

  function BeatInBar(s: RecorderState, idx: nat): (b: nat)
    requires Settled(s)
    ensures b < s.timeSignature
  {
    BeatOf(PositionInBar(s, idx), SamplesPerBeat(s.tempo), s.timeSignature)
  }

  /** The beat a position within a bar falls in. */
  function BeatOf(p: nat, spb: nat, beats: nat): (b: nat)
    requires spb > 0 && p < spb * beats
    ensures b < beats
  {
    DivBelow(p, spb, beats);
    p / spb
  }

  function PositionInBeat(s: RecorderState, idx: nat): (p: nat)
    requires Settled(s)
    ensures p < SamplesPerBeat(s.tempo)
  {
    PositionInBar(s, idx) % SamplesPerBeat(s.tempo)
  }

  /** Length of the click in samples (about 80 ms at 48 kHz). */
  const CLICK_SAMPLES: nat := 4000

  /** The click waveform `pos` samples into a beat: a sine burst at
      `freq` Hz with a squared linear fade over 4000 samples, at 0.6 of
      full scale. `sinTurns(x)` stands for sin(2*pi*x). */
  function Click(sinTurns: real -> real, freq: real, pos: nat): real
  {
    var fade := 1.0 - pos as real / CLICK_SAMPLES as real;
    sinTurns(freq * (pos as real / SAMPLE_RATE_HZ as real)) * 0.6 * (fade * fade)
  }

  /** The downbeat clicks at 1200 Hz, the other beats at 800 Hz. */
  function ClickFrequency(beat: nat): real
  {
    if beat == 0 then 1200.0 else 800.0
  }

  /** The metronome sample for counter value `idx`. */
  function Metronome(sinTurns: real -> real, s: RecorderState, idx: nat): (m: real)
    requires Settled(s)
    ensures !s.metronomeEnabled || PositionInBeat(s, idx) >= CLICK_SAMPLES ==> m == 0.0
    ensures s.metronomeEnabled && PositionInBeat(s, idx) < CLICK_SAMPLES ==>
      m == Click(sinTurns, ClickFrequency(BeatInBar(s, idx)), PositionInBeat(s, idx))
  {
    if s.metronomeEnabled && PositionInBeat(s, idx) < CLICK_SAMPLES
    then Click(sinTurns, ClickFrequency(BeatInBar(s, idx)), PositionInBeat(s, idx))
    else 0.0
  }

  /** The counter advances iff the transport is playing or the recorder is
      not Idle. */
  predicate Ticks(s: RecorderState, isPlaying: bool)
  {
    isPlaying || s.state != Idle
  }

  datatype FrameOut = FrameOut(next: RecorderState, left: real, right: real)

  /** One frame of `process_frame(input_left, input_right, is_playing)`:
      the metronome is computed from the counter value before the
      increment; then the count-in may end (Recording, counter back to
      0), or a recording frame is captured. */
  function Frame(sinTurns: real -> real, s: RecorderState, inL: real, inR: real, isPlaying: bool): (f: FrameOut)
    requires Settled(s)
    ensures f.left == f.right == Metronome(sinTurns, s, s.counter)
    ensures Settled(f.next)
    ensures f.next.countInBars == s.countInBars && f.next.tempo == s.tempo
    ensures f.next.metronomeEnabled == s.metronomeEnabled && f.next.timeSignature == s.timeSignature
  {
    var idx := s.counter;
    var m := Metronome(sinTurns, s, idx);
    var counted := s.(counter := if Ticks(s, isPlaying) then idx + 1 else idx);
    var next :=
      match s.state
      case CountingIn =>
        if idx >= CountInSamples(s) then counted.(state := Recording, counter := 0) else counted
      case Recording => counted.(recorded := s.recorded + [inL, inR])
      case Idle => counted;
    FrameOut(next, m, m)
  }

  /** The tick rule: the counter moves by exactly one when it ticks and
      stays put otherwise, except on the frame that ends the count-in.
      An idle recorder with the transport stopped is left as it is. */
  lemma FrameCounter(sinTurns: real -> real, s: RecorderState, inL: real, inR: real, isPlaying: bool)
    requires Settled(s)
    ensures var n := Frame(sinTurns, s, inL, inR, isPlaying).next;
      !(s.state == CountingIn && s.counter >= CountInSamples(s)) ==>
        n.counter == if Ticks(s, isPlaying) then s.counter + 1 else s.counter
    ensures !Ticks(s, isPlaying) ==> Frame(sinTurns, s, inL, inR, isPlaying).next == s
  {
  }

  /** Capture: a recording frame appends left then right; no other state
      touches the buffer, so the buffer grows by exactly 2 and stays of
      even length. The state only moves CountingIn -> Recording. */
  lemma FrameCapture(sinTurns: real -> real, s: RecorderState, inL: real, inR: real, isPlaying: bool)
    requires Settled(s)
    ensures var n := Frame(sinTurns, s, inL, inR, isPlaying).next;
      (s.state == Recording ==> n.recorded == s.recorded + [inL, inR] && n.state == Recording) &&
      (s.state != Recording ==> n.recorded == s.recorded) &&
      (|s.recorded| % 2 == 0 ==> |n.recorded| % 2 == 0) &&
      (s.state == Idle ==> n.state == Idle) &&
      (n.state != s.state ==> s.state == CountingIn && n.state == Recording && n.counter == 0)
  {
  }

  /** The metronome repeats every bar. */
  lemma {:induction false} MetronomePeriodic(sinTurns: real -> real, s: RecorderState, idx: nat)
    requires Settled(s)
    ensures Metronome(sinTurns, s, idx + SamplesPerBar(s)) == Metronome(sinTurns, s, idx)
  {
    var bar := SamplesPerBar(s);
    assert (idx + bar) % bar == idx % bar by {
      ModShift(idx, bar);
    }
  }

  lemma ModShift(x: nat, n: nat)
    requires n > 0
    ensures (x + n) % n == x % n
  {
    var q, r := x / n, x % n;
    assert x + n == (q + 1) * n + r;
    DivModUnique(x + n, n, q + 1, r);
  }

  /** The first click of every bar is the downbeat, at 1200 Hz. */
  lemma DownbeatClick(sinTurns: real -> real, s: RecorderState, bars: nat)
    requires Settled(s) && s.metronomeEnabled
    ensures Metronome(sinTurns, s, bars * SamplesPerBar(s)) == Click(sinTurns, 1200.0, 0)
  {
    var idx := bars * SamplesPerBar(s);
    MulMod(bars, SamplesPerBar(s));
    assert PositionInBar(s, idx) == 0;
    assert BeatInBar(s, idx) == 0 && PositionInBeat(s, idx) == 0;
  }

  lemma MulMod(k: nat, n: nat)
    requires n > 0
    ensures (k * n) % n == 0
  {
    DivModUnique(k * n, n, k, 0);
  }

  /** Stereo interleaving of captured frames. */
  function Interleave(frames: seq<(real, real)>): (r: seq<real>)
    ensures |r| == 2 * |frames|
  {
    if |frames| == 0 then [] else [frames[0].0, frames[0].1] + Interleave(frames[1..])
  }

  /** The recorder after a sequence of input frames, the transport's
      playing flag fixed. */
  function Run(sinTurns: real -> real, s: RecorderState, frames: seq<(real, real)>, isPlaying: bool): (r: RecorderState)
    requires Settled(s)
    ensures Settled(r)
    decreases |frames|
  {
    if |frames| == 0 then s
    else Run(sinTurns, Frame(sinTurns, s, frames[0].0, frames[0].1, isPlaying).next, frames[1..], isPlaying)
  }

  /** While recording, every frame is captured in order and the counter
      counts the frames. */
  lemma {:induction false} RecordingRun(sinTurns: real -> real, s: RecorderState, frames: seq<(real, real)>, isPlaying: bool)
    requires Settled(s) && s.state == Recording
    ensures Run(sinTurns, s, frames, isPlaying) ==
      s.(recorded := s.recorded + Interleave(frames), counter := s.counter + |frames|)
    decreases |frames|
  {
    if |frames| > 0 {
      var n := Frame(sinTurns, s, frames[0].0, frames[0].1, isPlaying).next;
      RecordingRun(sinTurns, n, frames[1..], isPlaying);
      assert s.recorded + [frames[0].0, frames[0].1] + Interleave(frames[1..]) == s.recorded + Interleave(frames);
    }
  }

  /** During the count-in nothing is captured and the counter counts up
      to the count-in length. */
  lemma {:induction false} CountingInRun(sinTurns: real -> real, s: RecorderState, frames: seq<(real, real)>, isPlaying: bool)
    requires Settled(s) && s.state == CountingIn
    requires s.counter + |frames| <= CountInSamples(s)
    ensures Run(sinTurns, s, frames, isPlaying) == s.(counter := s.counter + |frames|)
    decreases |frames|
  {
    if |frames| > 0 {
      var n := Frame(sinTurns, s, frames[0].0, frames[0].1, isPlaying).next;
      CountingInRun(sinTurns, n, frames[1..], isPlaying);
    }
  }

  /** The count-in lasts exactly `samples_per_bar * count_in_bars` frames
      from a zero counter; the next frame switches to Recording with the
      counter back at 0, and nothing was captured. */
  lemma CountInEnds(sinTurns: real -> real, s: RecorderState, frames: seq<(real, real)>, isPlaying: bool)
    requires Settled(s) && s.state == CountingIn && s.counter == 0
    requires |frames| == CountInSamples(s) + 1
    ensures Run(sinTurns, s, frames[..|frames| - 1], isPlaying) == s.(counter := CountInSamples(s))
    ensures Run(sinTurns, s, frames, isPlaying) == s.(state := Recording, counter := 0)
  {
    var last := |frames| - 1;
    CountingInRun(sinTurns, s, frames[..last], isPlaying);
    RunSplit(sinTurns, s, frames[..last], frames[last..], isPlaying);
    assert frames[..last] + frames[last..] == frames;
  }

  lemma {:induction false} RunSplit(sinTurns: real -> real, s: RecorderState, a: seq<(real, real)>, b: seq<(real, real)>, isPlaying: bool)
    requires Settled(s)
    ensures Run(sinTurns, s, a + b, isPlaying) == Run(sinTurns, Run(sinTurns, s, a, isPlaying), b, isPlaying)
    decreases |a|
  {
    if |a| > 0 {
      var n := Frame(sinTurns, s, a[0].0, a[0].1, isPlaying).next;
      assert (a + b)[0] == a[0];
      assert (a + b)[1..] == a[1..] + b;
      assert Run(sinTurns, s, a + b, isPlaying) == Run(sinTurns, n, a[1..] + b, isPlaying);
      assert Run(sinTurns, s, a, isPlaying) == Run(sinTurns, n, a[1..], isPlaying);
      RunSplit(sinTurns, n, a[1..], b, isPlaying);
    } else {
      assert a + b == b;
    }
  }

  /** Running one more frame after a run is one more `Frame` step. */
  lemma RunSnoc(sinTurns: real -> real, s: RecorderState, frames: seq<(real, real)>, x: (real, real), isPlaying: bool)
    requires Settled(s)
    ensures Run(sinTurns, s, frames + [x], isPlaying) ==
      Frame(sinTurns, Run(sinTurns, s, frames, isPlaying), x.0, x.1, isPlaying).next
  {
    RunSplit(sinTurns, s, frames, [x], isPlaying);
    var r := Run(sinTurns, s, frames, isPlaying);
    assert Run(sinTurns, r, [x], isPlaying) == Run(sinTurns, Frame(sinTurns, r, x.0, x.1, isPlaying).next, [], isPlaying);
  }

  /** Duration in seconds of an interleaved stereo buffer
      (`get_recorded_duration`, and the clip's `duration_seconds`). */
  function StereoDuration(samples: seq<real>): real
  {
    (|samples| / 2) as real / SAMPLE_RATE_HZ as real
  }

  /** Capturing `k` frames yields `k / 48000` seconds. */
  lemma CapturedDuration(frames: seq<(real, real)>)
    ensures StereoDuration(Interleave(frames)) == |frames| as real / SAMPLE_RATE_HZ as real
  {
    var n := |Interleave(frames)|;
    DivModUnique(n, 2, |frames|, 0);
  }

  /** The clip `stop_recording` builds: stereo at 48 kHz, named after the
      wall-clock time in seconds. */
  function RecordedClip(samples: seq<real>, nowSecs: nat): (c: AudioClip)
    ensures c.samples == samples && c.channels == 2 && c.sampleRate == SAMPLE_RATE_HZ
    ensures c.durationSeconds == StereoDuration(samples)
    ensures c.filePath == "recorded_" + NatToString(nowSecs) + ".wav"
  {
    AudioClip(samples, 2, SAMPLE_RATE_HZ, StereoDuration(samples), "recorded_" + NatToString(nowSecs) + ".wav")
  }

  const ALREADY_RECORDING: string := "Already recording or counting in"

  class Recorder {
    var state: RecordingState
    var recorded: seq<real>
    var counter: nat
    var countInBars: nat
    var tempo: real
    var metronomeEnabled: bool
    const timeSignature: nat
    /** The sine kernel of the metronome click. */
    const sinTurns: real -> real

    function Snapshot(): RecorderState
      reads this
    {
      RecorderState(state, recorded, counter, countInBars, tempo, metronomeEnabled, timeSignature)
    }

    ghost predicate Valid()
      reads this
    {
      Settled(Snapshot()) && timeSignature == 4 && countInBars <= U32_MAX && |recorded| % 2 == 0
    }

    /** `Recorder::new`: Idle, empty, 2 bars of count-in at 120 BPM in 4/4
        with the metronome on. */
    constructor (sinTurns: real -> real)
      ensures Valid() && this.sinTurns == sinTurns
      ensures Snapshot() == RecorderState(Idle, [], 0, 2, 120.0, true, 4)
    {
      state := Idle;
      recorded := [];
      counter := 0;
      countInBars := 2;
      tempo := 120.0;
      metronomeEnabled := true;
      timeSignature := 4;
      this.sinTurns := sinTurns;
    }

    /** `start_recording`: only from Idle; clears the buffer and the
        counter and enters the count-in, or recording directly when the
        count-in is 0 bars. */
    method StartRecording() returns (r: Result<(), string>)
      requires Valid()
      modifies this
      ensures Valid()
      ensures old(state) != Idle ==> r == Err(ALREADY_RECORDING) && Snapshot() == old(Snapshot())
      ensures old(state) == Idle ==>
        r.Ok? && Snapshot() ==
          old(Snapshot()).(state := if countInBars > 0 then CountingIn else Recording, recorded := [], counter := 0)
    {
      if state != Idle {
        return Err(ALREADY_RECORDING);
      }
      recorded := [];
      counter := 0;
      if countInBars > 0 {
        state := CountingIn;
      } else {
        state := Recording;
      }
      r := Ok(());
    }

    /** `stop_recording`: from Idle nothing happens and there is no clip;
        otherwise the recorder goes Idle and returns the captured audio
        as a clip, or nothing when no frame was captured. The buffer is
        copied, not cleared. */
    method StopRecording(nowSecs: nat) returns (clip: Option<AudioClip>)
      requires Valid()
      modifies this
      ensures Valid()
      ensures old(state) == Idle ==> clip == None && Snapshot() == old(Snapshot())
      ensures old(state) != Idle ==> Snapshot() == old(Snapshot()).(state := Idle)
      ensures old(state) != Idle ==>
        clip == if |recorded| == 0 then None else Some(RecordedClip(recorded, nowSecs))
    {
      if state == Idle {
        return None;
      }
      state := Idle;
      if |recorded| == 0 {
        return None;
      }
      clip := Some(RecordedClip(recorded, nowSecs));
    }

    method SetCountInBars(bars: nat)
      requires Valid() && bars <= U32_MAX
      modifies this
      ensures Valid() && Snapshot() == old(Snapshot()).(countInBars := bars)
    {
      countInBars := bars;
    }

    /** `set_tempo`: clamped to [20, 300] BPM. */
    method SetTempo(bpm: real)
      requires Valid()
      modifies this
      ensures Valid() && Snapshot() == old(Snapshot()).(tempo := Clamp(bpm, MIN_TEMPO, MAX_TEMPO))
    {
      tempo := Clamp(bpm, MIN_TEMPO, MAX_TEMPO);
    }

    method SetMetronomeEnabled(enabled: bool)
      requires Valid()
      modifies this
      ensures Valid() && Snapshot() == old(Snapshot()).(metronomeEnabled := enabled)
    {
      metronomeEnabled := enabled;
    }

    /** `get_recorded_duration`. */
    function RecordedDuration(): (d: real)
      reads this
      ensures d == StereoDuration(recorded)
    {
      (|recorded| / 2) as real / SAMPLE_RATE_HZ as real
    }

    /** `reset_metronome`: the counter goes back to 0. */
    method ResetMetronome()
      requires Valid()
      modifies this
      ensures Valid() && Snapshot() == old(Snapshot()).(counter := 0)
    {
      counter := 0;
    }

    /** The metronome part of `process_frame`: the click for counter
        value `idx`, from its position in the bar and in the beat. */
    method MetronomeSample(idx: nat) returns (m: real)
      requires Valid()
      ensures m == Metronome(sinTurns, Snapshot(), idx)
    {
      var spb := SamplesPerBeat(tempo);
      var spbBar := spb * timeSignature;
      m := 0.0;
      if metronomeEnabled {
        var posInBar := idx % spbBar;
        var beat := posInBar / spb;
        var posInBeat := posInBar % spb;
        assert beat == BeatInBar(Snapshot(), idx);
        if posInBeat < CLICK_SAMPLES {
          m := Click(sinTurns, if beat == 0 then 1200.0 else 800.0, posInBeat);
        }
      }
    }

    /** `process_frame`: one frame of metronome, count-in and capture. */
    method ProcessFrame(inL: real, inR: real, isPlaying: bool) returns (left: real, right: real)
      requires Valid()
      modifies this
      ensures Valid()
      ensures Snapshot() == Frame(sinTurns, old(Snapshot()), inL, inR, isPlaying).next
      ensures left == right == Metronome(sinTurns, old(Snapshot()), old(counter))
    {
      var shouldTick := isPlaying || state != Idle;
      var idx := counter;
      var m := MetronomeSample(idx);
      if shouldTick {
        counter := counter + 1;
      }
      match state {
        case CountingIn =>
          if idx >= SamplesPerBeat(tempo) * timeSignature * countInBars {
            state := Recording;
            counter := 0;
          }
        case Recording =>
          recorded := recorded + [inL, inR];
        case Idle =>
      }
      left, right := m, m;
    }
  }

  /** From a fresh start with the default 2-bar count-in at 120 BPM in
      4/4, recording begins on frame 192001 (two bars of 96000 samples). */
  lemma DefaultCountInLength(sinTurns: real -> real, s: RecorderState)
    requires s.state == CountingIn && s.counter == 0 && s.countInBars == 2
    requires s.tempo == 120.0 && s.timeSignature == 4
    ensures CountInSamples(s) == 192000
  {
    SamplesPerBeatAt120();
  }
}
