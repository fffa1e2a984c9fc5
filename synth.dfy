/** The legacy polyphonic synthesizer of engine/src/synth.rs (lines
    1-349): oscillator shapes, the `Voice` value, and `Synthesizer`, a
    class whose fixed array of 16 voices is updated in place. */
module Synth {
  import opened Common
  import opened Midi
  import opened Envelope
  import Env = Envelope
  import opened VoicePool

  /** The floating-point library functions the synthesizer calls, which
      this model does not define: `sinTurns(x)` stands for sin(2*pi*x) and
      `exp2(x)` for 2^x (`2.0_f32.powf(x)`). */
  datatype Libm = Libm(sinTurns: real -> real, exp2: real -> real)

  datatype OscillatorType = Sine | Saw | Square | Triangle

  /** `OscillatorType::from_str`: case-insensitive, Sine for anything
      unrecognised. */
  function OscillatorFromStr(s: string): (t: OscillatorType)
    ensures t == Saw <==> Lower(s) == "saw"
    ensures t == Square <==> Lower(s) == "square"
    ensures t == Triangle <==> Lower(s) == "triangle"
    ensures t == Sine <==> Lower(s) !in {"saw", "square", "triangle"}
  {
    match Lower(s)
    case "sine" => Sine
    case "saw" => Saw
    case "square" => Square
    case "triangle" => Triangle
    case _ => Sine
  }

  function OscillatorName(t: OscillatorType): string
  {
    match t
    case Sine => "sine"
    case Saw => "saw"
    case Square => "square"
    case Triangle => "triangle"
  }

  /** Every oscillator type is recognised under its name in any mix of
      upper and lower case. */
  lemma OscillatorFromStrRoundTrip(t: OscillatorType, s: string)
    requires Lower(s) == OscillatorName(t)
    ensures OscillatorFromStr(s) == t
  {
  }

  /** `midi_note_to_frequency`: equal temperament around A4 = 440 Hz. */
  function NoteToFrequency(libm: Libm, note: byte): real
  {
    440.0 * libm.exp2((note as real - 69.0) / 12.0)
  }

  /** One oscillator sample at `phase` (`Voice::process`, and
      `DualOscillator::generate_waveform`, which is the same). */
  function Waveform(libm: Libm, t: OscillatorType, phase: real): (r: real)
    ensures t != Sine && 0.0 <= phase < 1.0 ==> -1.0 <= r <= 1.0
  {
    match t
    case Sine => libm.sinTurns(phase)
    case Saw => 2.0 * phase - 1.0
    case Square => if phase < 0.5 then 1.0 else -1.0
    case Triangle => 4.0 * (if phase >= 0.5 then phase - 0.5 else 0.5 - phase) - 1.0
  }

  /** The phase after `while phase >= 1.0 { phase -= 1.0 }`: below 1, and
      in [0, 1) whenever whole cycles had to be removed. */
  function WrapPhase(p: real): (q: real)
    ensures q < 1.0
    ensures p < 1.0 ==> q == p
    ensures 1.0 <= p ==> 0.0 <= q && (p - q).Floor as real == p - q
  {
    if p < 1.0 then p else p - p.Floor as real
  }

  // -----------------------------------------------------------------------
  // Voice

  /** A voice of the legacy synthesizer: a `Copy` struct held by value in
      the voice array. */
  datatype Voice = Voice(note: byte, velocity: real, phase: real, frequency: real,
                         envelope: Envelope, isActive: bool)

  /** `Voice::new()`. */
  const NewVoice: Voice := Voice(0, 0.0, 0.0, 440.0, New(DefaultParams), false)

  /** `Voice::note_on`: a fresh envelope (level 0) in its attack stage. */
  function VoiceNoteOn(libm: Libm, note: byte, velocity: real, params: EnvelopeParams): (v: Voice)
    ensures v.isActive && v.note == note && v.velocity == velocity && v.phase == 0.0
    ensures v.envelope.state == Attack && v.envelope.level == 0.0 && v.envelope.params == params
  {
    Voice(note, velocity, 0.0, NoteToFrequency(libm, note), Env.NoteOn(New(params)), true)
  }

  /** `Voice::note_off`: only the envelope changes; the voice stays active
      through its release. */
  function VoiceNoteOff(v: Voice): (r: Voice)
    ensures r.isActive == v.isActive && r.note == v.note
    ensures r.envelope.state == Release
    ensures r == v.(envelope := r.envelope)
  {
    v.(envelope := Env.NoteOff(v.envelope))
  }

  datatype VoiceStep = VoiceStep(voice: Voice, out: real)

  /** What `Voice::process` does to a voice and returns. */
  function VoiceProcess(libm: Libm, t: OscillatorType, v: Voice): (s: VoiceStep)
    ensures !v.isActive ==> s == VoiceStep(v, 0.0)
    ensures v.isActive ==> s.voice.isActive == Process(v.envelope).env.IsActive()
    ensures s.voice.note == v.note && s.voice.velocity == v.velocity
    ensures s.voice.frequency == v.frequency
  {
    if !v.isActive then VoiceStep(v, 0.0)
    else
      var step := Process(v.envelope);
      var out := VoiceOut(libm, t, v, step.out);
      var next := v.(phase := WrapPhase(v.phase + v.frequency / SAMPLE_RATE), envelope := step.env);
      VoiceStep(next.(isActive := step.env.IsActive()), out)
  }

  /** A voice's sample: the waveform at its phase, scaled by the
      envelope level and the note velocity. */
  function VoiceOut(libm: Libm, t: OscillatorType, v: Voice, level: real): real
  {
    Waveform(libm, t, v.phase) * level * v.velocity
  }

  /** The phase-wrapping loop of `Voice::process`. */
  method WrapPhaseLoop(start: real) returns (phase: real)
    ensures phase == WrapPhase(start)
  {
    phase := start;
    ghost var cycles: int := 0;
    while phase >= 1.0
      invariant cycles >= 0 && phase == start - cycles as real
      invariant cycles > 0 ==> phase >= 0.0
      decreases phase.Floor
    {
      phase := phase - 1.0;
      cycles := cycles + 1;
    }
    assert cycles > 0 ==> start.Floor == cycles;
  }

  /** `Voice::process`. */
  method ProcessVoice(libm: Libm, t: OscillatorType, v: Voice) returns (r: Voice, out: real)
    ensures VoiceStep(r, out) == VoiceProcess(libm, t, v)
  {
    if !v.isActive {
      return v, 0.0;
    }
    var step := Process(v.envelope);
    out := VoiceOut(libm, t, v, step.out);
    var phase := WrapPhaseLoop(v.phase + v.frequency / SAMPLE_RATE);
    r := v.(phase := phase, envelope := step.env);
    if !step.env.IsActive() {
      r := r.(isActive := false);
    }
  }

  /** The `is_active` flags of a voice array. */
  function ActiveFlags(vs: seq<Voice>): (a: seq<bool>)
    ensures |a| == |vs| && forall i :: 0 <= i < |vs| ==> a[i] == vs[i].isActive
  {
    seq(|vs|, i requires 0 <= i < |vs| => vs[i].isActive)
  }

  /** Index of the first active voice sounding `note`, or `|vs|`. */
  function FirstPlaying(vs: seq<Voice>, note: byte, from: nat): (k: nat)
    requires from <= |vs|
    ensures from <= k <= |vs|
    ensures k < |vs| ==> vs[k].isActive && vs[k].note == note
    ensures forall j :: from <= j < k ==> !(vs[j].isActive && vs[j].note == note)
    decreases |vs| - from
  {
    if from == |vs| then from
    else if vs[from].isActive && vs[from].note == note then from
    else FirstPlaying(vs, note, from + 1)
  }

  /** `Synthesizer::note_off`: only the FIRST active voice sounding the
      note is released; every other voice, including later ones on the
      same note, is left as it was. No voice stops being active. */
  function ReleaseFirst(vs: seq<Voice>, note: byte): (r: seq<Voice>)
    ensures |r| == |vs| && ActiveFlags(r) == ActiveFlags(vs)
    ensures forall j :: 0 <= j < |vs| && j != FirstPlaying(vs, note, 0) ==> r[j] == vs[j]
    ensures FirstPlaying(vs, note, 0) < |vs| ==>
      r[FirstPlaying(vs, note, 0)] == VoiceNoteOff(vs[FirstPlaying(vs, note, 0)])
  {
    var k := FirstPlaying(vs, note, 0);
    if k < |vs| then vs[k := VoiceNoteOff(vs[k])] else vs
  }

  /** A voice still held down: sounding `note` and not yet released. */
  predicate Holds(v: Voice, note: byte)
  {
    v.isActive && v.note == note && v.envelope.state != Release
  }

  /** Index of the first voice holding `note`, or `|vs|`. */
  function FirstHeld(vs: seq<Voice>, note: byte, from: nat): (k: nat)
    requires from <= |vs|
    ensures from <= k <= |vs|
    ensures k < |vs| ==> Holds(vs[k], note)
    ensures forall j :: from <= j < k ==> !Holds(vs[j], note)
    decreases |vs| - from
  {
    if from == |vs| then from
    else if Holds(vs[from], note) then from
    else FirstHeld(vs, note, from + 1)
  }

  /** Note-off as evidently intended: the first voice still holding the
      note is released; voices already in their release are skipped. */
  function ReleaseFirstHeld(vs: seq<Voice>, note: byte): (r: seq<Voice>)
    ensures |r| == |vs| && ActiveFlags(r) == ActiveFlags(vs)
    ensures forall j :: 0 <= j < |vs| && j != FirstHeld(vs, note, 0) ==> r[j] == vs[j]
    ensures FirstHeld(vs, note, 0) < |vs| ==> !Holds(r[FirstHeld(vs, note, 0)], note)
  {
    var k := FirstHeld(vs, note, 0);
    if k < |vs| then vs[k := VoiceNoteOff(vs[k])] else vs
  }

  /** With the intended note-off, pressing and releasing a key that no
      voice was holding leaves no voice holding it, whatever voices are
      still releasing that note. */
  lemma PressReleaseLeavesNoneHeld(libm: Libm, vs: seq<Voice>, note: byte, velocity: real, params: EnvelopeParams)
    requires |vs| > 0
    requires forall j :: 0 <= j < |vs| ==> !Holds(vs[j], note)
    ensures var on := vs[FreeSlot(ActiveFlags(vs)) := VoiceNoteOn(libm, note, velocity, params)];
      forall j :: 0 <= j < |vs| ==> !Holds(ReleaseFirstHeld(on, note)[j], note)
  {
    var slot := FreeSlot(ActiveFlags(vs));
    var on := vs[slot := VoiceNoteOn(libm, note, velocity, params)];
    assert Holds(on[slot], note);
  }

  /** As written, `note_off` can release a voice that is already
      releasing: press, release and press again a note, and the second
      press lands in a new voice (the first is still sounding its
      release); the next note-off re-releases the old voice and the new
      one keeps holding. */
  lemma StuckNoteAsWritten(libm: Libm, velocity: real, params: EnvelopeParams)
    ensures var vs := [VoiceNoteOff(VoiceNoteOn(libm, 60, velocity, params))] + seq(15, i => NewVoice);
      var on := vs[FreeSlot(ActiveFlags(vs)) := VoiceNoteOn(libm, 60, velocity, params)];
      FreeSlot(ActiveFlags(vs)) == 1 && Holds(ReleaseFirst(on, 60)[1], 60) &&
      !Holds(ReleaseFirstHeld(on, 60)[1], 60)
  {
    var vs := [VoiceNoteOff(VoiceNoteOn(libm, 60, velocity, params))] + seq(15, i => NewVoice);
    var a := ActiveFlags(vs);
    assert a[0] && !a[1];
    assert FirstInactiveFrom(a, 0) == FirstInactiveFrom(a, 1) == 1;
    var on := vs[1 := VoiceNoteOn(libm, 60, velocity, params)];
    assert FirstPlaying(on, 60, 0) == 0;
    assert FirstHeld(on, 60, 0) == FirstHeld(on, 60, 1) == 1;
  }

  /** The voices after one `process_sample` call. */
  function StepAll(libm: Libm, t: OscillatorType, vs: seq<Voice>): (r: seq<Voice>)
    ensures |r| == |vs|
    ensures forall i :: 0 <= i < |vs| ==> r[i] == VoiceProcess(libm, t, vs[i]).voice
  {
    seq(|vs|, i requires 0 <= i < |vs| => VoiceProcess(libm, t, vs[i]).voice)
  }

  /** The sum of the active voices' outputs in one `process_sample` call,
      before the master volume. */
  function MixOut(libm: Libm, t: OscillatorType, vs: seq<Voice>): real
  {
    if |vs| == 0 then 0.0
    else
      var last := vs[|vs| - 1];
      MixOut(libm, t, vs[..|vs| - 1]) + (if last.isActive then VoiceProcess(libm, t, last).out else 0.0)
  }

  lemma MixOutStep(libm: Libm, t: OscillatorType, vs: seq<Voice>, k: nat)
    requires k < |vs|
    ensures MixOut(libm, t, vs[..k + 1]) == MixOut(libm, t, vs[..k]) + VoiceProcess(libm, t, vs[k]).out
  {
    assert vs[..k + 1][..k] == vs[..k];
  }

  /** Silent voices contribute nothing to the mix. */
  lemma {:induction false} MixOfSilentVoices(libm: Libm, t: OscillatorType, vs: seq<Voice>)
    requires forall i :: 0 <= i < |vs| ==> !vs[i].isActive
    ensures MixOut(libm, t, vs) == 0.0
  {
    if |vs| > 0 {
      MixOfSilentVoices(libm, t, vs[..|vs| - 1]);
    }
  }

  /** Processing never brings a voice back: the active count can only
      fall (a voice retires when its envelope reaches Idle). */
  lemma StepAllNeverActivates(libm: Libm, t: OscillatorType, vs: seq<Voice>)
    ensures CountActive(ActiveFlags(StepAll(libm, t, vs))) <= CountActive(ActiveFlags(vs))
  {
    CountPointwiseMonotone(ActiveFlags(vs), ActiveFlags(StepAll(libm, t, vs)));
  }

  /** The voices after `n` calls of `process_sample`. */
  function StepN(libm: Libm, t: OscillatorType, vs: seq<Voice>, n: nat): (r: seq<Voice>)
    ensures |r| == |vs|
  {
    if n == 0 then vs else StepAll(libm, t, StepN(libm, t, vs, n - 1))
  }

  /** What one `process_sample` call returns: the mix at the master volume. */
  function Output(libm: Libm, t: OscillatorType, vs: seq<Voice>, volume: real): real
  {
    MixOut(libm, t, vs) * volume
  }

  /** Sample `n` of a run of `process_sample` calls: the mix of the voices
      as the `n` earlier calls left them, at the master volume. */
  function SampleAt(libm: Libm, t: OscillatorType, vs: seq<Voice>, volume: real, n: nat): real
  {
    Output(libm, t, StepN(libm, t, vs, n), volume)
  }

  /** A silent voice stays silent and unchanged when processed. */
  lemma {:induction false} SilentStaysSilent(libm: Libm, t: OscillatorType, vs: seq<Voice>, n: nat)
    requires forall i :: 0 <= i < |vs| ==> !vs[i].isActive
    ensures StepN(libm, t, vs, n) == vs
  {
    if n > 0 {
      SilentStaysSilent(libm, t, vs, n - 1);
    }
  }

  /** With no voice sounding, every sample of every buffer is silence. */
  lemma SilentBuffer(libm: Libm, t: OscillatorType, vs: seq<Voice>, volume: real, n: nat)
    requires forall i :: 0 <= i < |vs| ==> !vs[i].isActive
    ensures SampleAt(libm, t, vs, volume, n) == 0.0
  {
    SilentStaysSilent(libm, t, vs, n);
    MixOfSilentVoices(libm, t, vs);
  }

  /** The first `n` samples of a run of `process_sample` calls. */
  function RunSamples(libm: Libm, t: OscillatorType, vs: seq<Voice>, volume: real, n: nat): (r: seq<real>)
    ensures |r| == n
  {
    if n == 0 then [] else RunSamples(libm, t, vs, volume, n - 1) + [SampleAt(libm, t, vs, volume, n - 1)]
  }

  /** Sample `k` of the run is the mix after `k` steps. */
  lemma {:induction false} RunSamplesAt(libm: Libm, t: OscillatorType, vs: seq<Voice>, volume: real, n: nat, k: nat)
    requires k < n
    ensures RunSamples(libm, t, vs, volume, n)[k] == SampleAt(libm, t, vs, volume, k)
  {
    if k < n - 1 {
      RunSamplesAt(libm, t, vs, volume, n - 1, k);
    }
  }

  /** `n` copies of one sample: a frame in which every channel is the same. */
  function Repeat(x: real, n: nat): (r: seq<real>)
    ensures |r| == n && forall k :: 0 <= k < n ==> r[k] == x
  {
    seq(n, _ => x)
  }

  /** An interleaved buffer holding `samples` frame after frame, each
      sample repeated on every channel. */
  function Frames(samples: seq<real>, channels: nat): seq<real>
  {
    if |samples| == 0 then []
    else
      Frames(samples[..|samples| - 1], channels) + Repeat(samples[|samples| - 1], channels)
  }

  /** A buffer of whole frames. */
  lemma {:induction false} FramesLength(samples: seq<real>, channels: nat)
    ensures |Frames(samples, channels)| == |samples| * channels
  {
    if |samples| > 0 {
      FramesLength(samples[..|samples| - 1], channels);
    }
  }

  /** Writing one more frame appends its sample on every channel. */
  lemma FramesSnoc(samples: seq<real>, x: real, channels: nat)
    ensures Frames(samples + [x], channels) == Frames(samples, channels) + Repeat(x, channels)
  {
    assert (samples + [x])[..|samples|] == samples;
  }

  /** Position `p` of the buffer belongs to frame `p / channels`. */
  lemma {:induction false} FramesAt(samples: seq<real>, channels: nat, p: nat)
    requires channels > 0 && p < |samples| * channels
    ensures |Frames(samples, channels)| == |samples| * channels
    ensures Frames(samples, channels)[p] == samples[p / channels]
  {
    var n := |samples|;
    assert n > 0;
    var init := samples[..n - 1];
    var head := Frames(init, channels);
    FramesLength(samples, channels);
    FramesLength(init, channels);
    assert Frames(samples, channels) == head + Repeat(samples[n - 1], channels);
    if p < |head| {
      DivBelow(p, channels, n - 1);
      FramesAt(init, channels, p);
      assert Frames(samples, channels)[p] == head[p];
    } else {
      var r := p - |head|;
      DivModUnique(p, channels, n - 1, r);
      assert Frames(samples, channels)[p] == Repeat(samples[n - 1], channels)[r];
    }
  }

  // -----------------------------------------------------------------------
  // Synthesizer

  class Synthesizer {
    var voices: array<Voice>
    var oscillatorType: OscillatorType
    var envelopeParams: EnvelopeParams
    var masterVolume: real
    /** The library functions the audio path calls. */
    const libm: Libm

    ghost predicate Valid()
      reads this
    {
      voices.Length == MAX_VOICES && 0.0 <= masterVolume <= 1.0
    }

    function Active(): seq<bool>
      reads this, voices
    {
      ActiveFlags(voices[..])
    }

    /** `Synthesizer::new()`: 16 silent voices, a saw oscillator, default
        envelope, master volume 0.3. */
    constructor (libm: Libm)
      ensures Valid() && fresh(voices) && this.libm == libm
      ensures forall i :: 0 <= i < voices.Length ==> voices[i] == NewVoice
      ensures oscillatorType == Saw && envelopeParams == DefaultParams && masterVolume == 0.3
    {
      voices := new Voice[MAX_VOICES](_ => NewVoice);
      oscillatorType := Saw;
      envelopeParams := DefaultParams;
      masterVolume := 0.3;
      this.libm := libm;
    }

    method SetOscillatorType(t: OscillatorType)
      requires Valid()
      modifies this
      ensures Valid() && oscillatorType == t && voices == old(voices)
      ensures envelopeParams == old(envelopeParams) && masterVolume == old(masterVolume)
    {
      oscillatorType := t;
    }

    /** New envelope parameters only reach voices at their next note-on. */
    method SetEnvelope(params: EnvelopeParams)
      requires Valid()
      modifies this
      ensures Valid() && envelopeParams == params && voices == old(voices)
      ensures oscillatorType == old(oscillatorType) && masterVolume == old(masterVolume)
    {
      envelopeParams := params;
    }

    /** `set_master_volume`: the volume is clamped to [0, 1]. */
    method SetMasterVolume(volume: real)
      requires Valid()
      modifies this
      ensures Valid() && masterVolume == Clamp(volume, 0.0, 1.0) && voices == old(voices)
      ensures oscillatorType == old(oscillatorType) && envelopeParams == old(envelopeParams)
    {
      masterVolume := Clamp(volume, 0.0, 1.0);
    }

    /** `find_free_voice`: the lowest-index inactive voice, else voice 0.
        (The source returns an `Option` that is never `None`.) */
    method FindFreeVoice() returns (i: nat)
      requires Valid()
      ensures i == FreeSlot(Active()) && i < voices.Length
    {
      var k := 0;
      while k < voices.Length && voices[k].isActive
        invariant 0 <= k <= voices.Length
        invariant forall j :: 0 <= j < k ==> voices[j].isActive
      {
        k := k + 1;
      }
      i := if k < voices.Length then k else 0;
    }

    /** `note_on`: the chosen voice restarts with the note, its velocity
        scaled to [0, 1] and a fresh envelope; no other voice changes. */
    method NoteOn(note: byte, velocity: byte)
      requires Valid()
      modifies voices
      ensures Valid()
      ensures voices[..] == old(voices[..])[FreeSlot(old(Active())) :=
                VoiceNoteOn(libm, note, velocity as real / 127.0, envelopeParams)]
    {
      var i := FindFreeVoice();
      voices[i] := VoiceNoteOn(libm, note, velocity as real / 127.0, envelopeParams);
    }

    /** `note_off`: release the first active voice playing the note. */
    method NoteOff(note: byte)
      requires Valid()
      modifies voices
      ensures Valid() && voices[..] == ReleaseFirst(old(voices[..]), note)
    {
      var k := 0;
      while k < voices.Length
        invariant 0 <= k <= voices.Length
        invariant forall j :: 0 <= j < k ==> !(voices[j].isActive && voices[j].note == note)
      {
        if voices[k].isActive && voices[k].note == note {
          break;
        }
        k := k + 1;
      }
      assert k == FirstPlaying(voices[..], note, 0);
      if k < voices.Length {
        voices[k] := VoiceNoteOff(voices[k]);
      }
    }

    /** `process_event`: note-on and note-off dispatch. */
    method ProcessEvent(event: MidiEvent)
      requires Valid()
      modifies voices
      ensures Valid()
      ensures event.eventType.NoteOn? ==>
        voices[..] == old(voices[..])[FreeSlot(old(Active())) :=
          VoiceNoteOn(libm, event.eventType.note, event.eventType.velocity as real / 127.0, envelopeParams)]
      ensures event.eventType.NoteOff? ==>
        voices[..] == ReleaseFirst(old(voices[..]), event.eventType.note)
    {
      match event.eventType
      case NoteOn(note, velocity) => NoteOn(note, velocity);
      case NoteOff(note, _) => NoteOff(note);
    }

    /** `process_sample`: every active voice advances one sample and the
        sum of their outputs is scaled by the master volume. */
    method ProcessSample() returns (out: real)
      requires Valid()
      modifies voices
      ensures Valid()
      ensures voices[..] == StepAll(libm, oscillatorType, old(voices[..]))
      ensures out == Output(libm, oscillatorType, old(voices[..]), masterVolume)
    {
      ghost var before := voices[..];
      var t := oscillatorType;
      var sum := 0.0;
      var k := 0;
      while k < voices.Length
        invariant 0 <= k <= voices.Length
        invariant forall j :: k <= j < voices.Length ==> voices[j] == before[j]
        invariant forall j :: 0 <= j < k ==> voices[j] == VoiceProcess(libm, t, before[j]).voice
        invariant sum == MixOut(libm, t, before[..k])
      {
        MixOutStep(libm, t, before, k);
        var v, o := ProcessVoice(libm, t, voices[k]);
        voices[k] := v;
        sum := sum + o;
        k := k + 1;
      }
      assert before[..voices.Length] == before;
      out := sum * masterVolume;
    }

    /** `process_buffer`: the buffer holds `output.Length / channels`
        whole frames of the run, each sample copied to every channel; the
        incomplete frame at the end is left as it was. */
    method ProcessBuffer(output: array<real>, channels: nat)
      requires Valid() && channels > 0
      modifies voices, output
      ensures Valid()
      ensures voices[..] == StepN(libm, oscillatorType, old(voices[..]), output.Length / channels)
      ensures output[..(output.Length / channels) * channels] ==
        Frames(RunSamples(libm, oscillatorType, old(voices[..]), masterVolume, output.Length / channels), channels)
      ensures output[(output.Length / channels) * channels..] == old(output[(output.Length / channels) * channels..])
    {
      ghost var before, initial := voices[..], output[..];
      var frames := output.Length / channels;
      assert frames * channels <= output.Length;
      RenderFrames(output, channels, frames, before, initial);
      FramesLength(RunSamples(libm, oscillatorType, before, masterVolume, frames), channels);
      assert output[..frames * channels] == Frames(RunSamples(libm, oscillatorType, before, masterVolume, frames), channels);
    }

    /** The frame loop of `process_buffer`: `frames` frames written from
        the start of the buffer, the rest of it as it was. */
    method RenderFrames(output: array<real>, channels: nat, frames: nat, ghost before: seq<Voice>, ghost initial: seq<real>)
      requires Valid() && frames * channels <= output.Length
      requires voices[..] == before && output[..] == initial
      modifies voices, output
      ensures Valid()
      ensures voices[..] == StepN(libm, oscillatorType, before, frames)
      ensures output[..] == Frames(RunSamples(libm, oscillatorType, before, masterVolume, frames), channels) + initial[frames * channels..]
    {
      var i := 0;
      assert output[..] == Frames(RunSamples(libm, oscillatorType, before, masterVolume, 0), channels) + initial[0 * channels..];
      while i < frames
        invariant 0 <= i <= frames && Valid()
        invariant voices[..] == StepN(libm, oscillatorType, before, i)
        invariant output[..] == Frames(RunSamples(libm, oscillatorType, before, masterVolume, i), channels) + initial[i * channels..]
      {
        FrameBounds(i, frames, channels, output.Length);
        RenderFrame(output, channels, i, before, initial);
        i := i + 1;
      }
    }

    /** One iteration of `process_buffer`: the next sample, written to
        every channel of frame `i`, after the `i` frames already written. */
    method RenderFrame(output: array<real>, channels: nat, i: nat, ghost before: seq<Voice>, ghost initial: seq<real>)
      requires Valid() && (i + 1) * channels <= output.Length == |initial|
      requires voices[..] == StepN(libm, oscillatorType, before, i)
      requires output[..] == Frames(RunSamples(libm, oscillatorType, before, masterVolume, i), channels) + initial[i * channels..]
      modifies voices, output
      ensures Valid()
      ensures voices[..] == StepN(libm, oscillatorType, before, i + 1)
      ensures output[..] ==
        Frames(RunSamples(libm, oscillatorType, before, masterVolume, i + 1), channels) + initial[(i + 1) * channels..]
    {
      var start := i * channels;
      assert start + channels == (i + 1) * channels;
      ghost var done := Frames(RunSamples(libm, oscillatorType, before, masterVolume, i), channels);
      FramesLength(RunSamples(libm, oscillatorType, before, masterVolume, i), channels);
      ghost var prev := output[..];
      var sample := ProcessSample();
      FillFrame(output, start, channels, sample);
      WriteFrame(prev, output[..], done, initial[start..], channels, sample);
      assert initial[start..][channels..] == initial[(i + 1) * channels..];
      FramesSnoc(RunSamples(libm, oscillatorType, before, masterVolume, i), sample, channels);
    }

    /** `active_voice_count`. */
    method ActiveVoiceCount() returns (n: nat)
      requires Valid()
      ensures n == CountActive(Active()) && n <= MAX_VOICES
    {
      n := 0;
      var k := 0;
      while k < voices.Length
        invariant 0 <= k <= voices.Length
        invariant n == CountActive(ActiveFlags(voices[..])[..k])
      {
        assert ActiveFlags(voices[..])[..k + 1][..k] == ActiveFlags(voices[..])[..k];
        if voices[k].isActive {
          n := n + 1;
        }
        k := k + 1;
      }
      assert ActiveFlags(voices[..])[..voices.Length] == ActiveFlags(voices[..]);
    }
  }

  /** Writing one frame over a buffer that holds `done` followed by
      `rest` appends the frame to `done` and drops one frame's worth
      of `rest`. */
  lemma WriteFrame(prev: seq<real>, next: seq<real>, done: seq<real>, rest: seq<real>, channels: nat, sample: real)
    requires prev == done + rest && |next| == |prev| && |done| + channels <= |prev|
    requires next[..|done|] == prev[..|done|]
    requires next[|done|..|done| + channels] == Repeat(sample, channels)
    requires next[|done| + channels..] == prev[|done| + channels..]
    ensures next == done + Repeat(sample, channels) + rest[channels..]
  {
    assert next == next[..|done|] + next[|done|..|done| + channels] + next[|done| + channels..];
    assert prev[..|done|] == done;
    assert prev[|done| + channels..] == rest[channels..];
  }

  /** The inner loop of `process_buffer`: one frame, every channel the
      same sample. */
  method FillFrame(output: array<real>, start: nat, channels: nat, sample: real)
    requires start + channels <= output.Length
    modifies output
    ensures output[..start] == old(output[..start])
    ensures output[start..start + channels] == Repeat(sample, channels)
    ensures output[start + channels..] == old(output[start + channels..])
  {
    var ch := 0;
    while ch < channels
      invariant 0 <= ch <= channels
      invariant forall p :: 0 <= p < output.Length ==>
        output[p] == if start <= p < start + ch then sample else old(output[p])
    {
      output[start + ch] := sample;
      ch := ch + 1;
    }
  }

  /** Frame `i` of `frames` whole frames lies inside the buffer. */
  lemma FrameBounds(i: nat, frames: nat, channels: nat, length: nat)
    requires i < frames && frames * channels <= length
    ensures (i + 1) * channels <= length
  {
    assert (i + 1) * channels <= frames * channels;
  }

  /** Starting from a silent synthesizer, each note-on adds exactly one
      sounding voice until all 16 are in use; past that, voices are
      stolen and the count stays at 16. */
  lemma NoteOnCount(libm: Libm, vs: seq<Voice>, note: byte, velocity: real, params: EnvelopeParams)
    requires |vs| == MAX_VOICES
    ensures var after := vs[FreeSlot(ActiveFlags(vs)) := VoiceNoteOn(libm, note, velocity, params)];
      CountActive(ActiveFlags(after)) <= MAX_VOICES &&
      CountActive(ActiveFlags(after)) ==
        if CountActive(ActiveFlags(vs)) < MAX_VOICES then CountActive(ActiveFlags(vs)) + 1
        else CountActive(ActiveFlags(vs))
  {
    var i := FreeSlot(ActiveFlags(vs));
    var after := vs[i := VoiceNoteOn(libm, note, velocity, params)];
    assert ActiveFlags(after) == ActiveFlags(vs)[i := true];
    AllocateSlot(ActiveFlags(vs));
  }
}
