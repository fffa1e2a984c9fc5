/** The per-track polyphonic synthesizer of engine/src/synth.rs (lines
    415-975): the biquad filter and dual oscillator values, `TrackVoice`,
    `TrackSynthesizer` (16 voices updated in place, with shared parameters
    copied into every voice) and `TrackSynthManager`, a map from track id
    to synthesizer. */
module TrackSynth {
  import opened Common
  import opened Midi
  import opened Envelope
  import Env = Envelope
  import opened VoicePool
  import opened Synth

  datatype FilterType = LowPass | HighPass | BandPass

  /** `FilterType::from_str`: case-insensitive, LowPass for anything
      unrecognised. */
  function FilterFromStr(s: string): (t: FilterType)
    ensures t == HighPass <==> Lower(s) == "highpass"
    ensures t == BandPass <==> Lower(s) == "bandpass"
    ensures t == LowPass <==> Lower(s) !in {"highpass", "bandpass"}
  {
    match Lower(s)
    case "lowpass" => LowPass
    case "highpass" => HighPass
    case "bandpass" => BandPass
    case _ => LowPass
  }

  function FilterName(t: FilterType): string
  {
    match t
    case LowPass => "lowpass"
    case HighPass => "highpass"
    case BandPass => "bandpass"
  }

  lemma FilterFromStrRoundTrip(t: FilterType, s: string)
    requires Lower(s) == FilterName(t)
    ensures FilterFromStr(s) == t
  {
  }

  /** The five normalised biquad coefficients (feed-forward a0..a2,
      feedback b1, b2). */
  datatype Coeffs = Coeffs(a0: real, a1: real, a2: real, b1: real, b2: real)

  /** The library code the per-track synthesizer calls and this model
      does not define: the oscillator kernels, the Audio EQ Cookbook
      coefficient design `update_coefficients` computes from (type,
      cutoff, resonance, sample rate), and `str::parse::<f32>`. */
  datatype Kernels = Kernels(libm: Libm,
                             design: (FilterType, real, real, real) -> Coeffs,
                             parseF32: string -> Option<real>)

  // -----------------------------------------------------------------------
  // BiquadFilter

  datatype BiquadFilter = BiquadFilter(filterType: FilterType, cutoff: real, resonance: real,
                                       sampleRate: real, coeffs: Coeffs,
                                       x1: real, x2: real, y1: real, y2: real)

  /** The coefficients are the ones designed for the current settings. */
  predicate Designed(k: Kernels, f: BiquadFilter)
  {
    f.coeffs == k.design(f.filterType, f.cutoff, f.resonance, f.sampleRate)
  }

  /** `BiquadFilter::new`: low-pass, cutoff 0.8, resonance 0.2, empty
      history. */
  function NewFilter(k: Kernels, sampleRate: real): (f: BiquadFilter)
    ensures Designed(k, f) && f.sampleRate == sampleRate
    ensures f.filterType == LowPass && f.cutoff == 0.8 && f.resonance == 0.2
    ensures f.x1 == f.x2 == f.y1 == f.y2 == 0.0
  {
    BiquadFilter(LowPass, 0.8, 0.2, sampleRate, k.design(LowPass, 0.8, 0.2, sampleRate), 0.0, 0.0, 0.0, 0.0)
  }

  /** The three setters change one setting and redesign the coefficients;
      the signal history is kept. */
  function SetFilterType(k: Kernels, f: BiquadFilter, t: FilterType): (r: BiquadFilter)
    ensures Designed(k, r) && r.filterType == t
    ensures r == f.(filterType := t, coeffs := r.coeffs)
  {
    f.(filterType := t, coeffs := k.design(t, f.cutoff, f.resonance, f.sampleRate))
  }

  function SetCutoff(k: Kernels, f: BiquadFilter, cutoff: real): (r: BiquadFilter)
    ensures Designed(k, r) && 0.0 <= r.cutoff <= 1.0 && r.cutoff == Clamp(cutoff, 0.0, 1.0)
    ensures r == f.(cutoff := r.cutoff, coeffs := r.coeffs)
  {
    var c := Clamp(cutoff, 0.0, 1.0);
    f.(cutoff := c, coeffs := k.design(f.filterType, c, f.resonance, f.sampleRate))
  }

  function SetResonance(k: Kernels, f: BiquadFilter, resonance: real): (r: BiquadFilter)
    ensures Designed(k, r) && 0.0 <= r.resonance <= 1.0 && r.resonance == Clamp(resonance, 0.0, 1.0)
    ensures r == f.(resonance := r.resonance, coeffs := r.coeffs)
  {
    var q := Clamp(resonance, 0.0, 1.0);
    f.(resonance := q, coeffs := k.design(f.filterType, f.cutoff, q, f.sampleRate))
  }

  datatype FilterStep = FilterStep(filter: BiquadFilter, out: real)

  /** `BiquadFilter::process`: the direct-form-I difference equation. */
  function FilterProcess(f: BiquadFilter, input: real): (s: FilterStep)
    ensures s.filter.x1 == input && s.filter.x2 == f.x1
    ensures s.filter.y1 == s.out && s.filter.y2 == f.y1
    ensures s.filter == f.(x1 := input, x2 := f.x1, y1 := s.out, y2 := f.y1)
  {
    var c := f.coeffs;
    var out := c.a0 * input + c.a1 * f.x1 + c.a2 * f.x2 - c.b1 * f.y1 - c.b2 * f.y2;
    FilterStep(f.(x2 := f.x1, x1 := input, y2 := f.y1, y1 := out), out)
  }

  /** A filter at rest stays at rest on silence, whatever its settings. */
  lemma FilterSilenceInSilenceOut(f: BiquadFilter)
    requires f.x1 == f.x2 == f.y1 == f.y2 == 0.0
    ensures FilterProcess(f, 0.0).out == 0.0
    ensures FilterProcess(f, 0.0).filter == f
  {
  }

  // -----------------------------------------------------------------------
  // DualOscillator

  datatype DualOscillator = DualOscillator(osc1Type: OscillatorType, osc2Type: OscillatorType,
                                           osc1Level: real, osc2Level: real,
                                           osc1Detune: real, osc2Detune: real,
                                           phase1: real, phase2: real,
                                           frequency: real, sampleRate: real)

  /** `DualOscillator::new`: saw at 0.8 and square at 0.4, the second
      detuned by 7 cents. */
  function NewOscillator(sampleRate: real): DualOscillator
  {
    DualOscillator(Saw, Square, 0.8, 0.4, 0.0, 7.0, 0.0, 0.0, 440.0, sampleRate)
  }

  /** One step of a phase accumulator with the single wrap `if phase >=
      1.0 { phase -= 1.0 }` of `DualOscillator::process`. */
  function Advance(phase: real, increment: real): (q: real)
    ensures 0.0 <= phase < 1.0 && 0.0 <= increment < 1.0 ==> 0.0 <= q < 1.0
  {
    var p := phase + increment;
    if p >= 1.0 then p - 1.0 else p
  }

  /** The frequency of one oscillator after detuning by `cents`. */
  function Detuned(libm: Libm, frequency: real, cents: real): real
  {
    frequency * libm.exp2(cents / 1200.0)
  }

  datatype OscStep = OscStep(osc: DualOscillator, out: real)

  /** `DualOscillator::process`: both waveforms at their current phases,
      mixed by level; then both phases advance. */
  function OscProcess(libm: Libm, o: DualOscillator): (s: OscStep)
    requires o.sampleRate > 0.0
    ensures s.osc == o.(phase1 := s.osc.phase1, phase2 := s.osc.phase2)
    ensures s.osc.phase1 == Advance(o.phase1, Detuned(libm, o.frequency, o.osc1Detune) / o.sampleRate)
    ensures s.osc.phase2 == Advance(o.phase2, Detuned(libm, o.frequency, o.osc2Detune) / o.sampleRate)
    ensures s.out == OscMix(libm, o)
  {
    var next := o.(phase1 := Advance(o.phase1, Detuned(libm, o.frequency, o.osc1Detune) / o.sampleRate),
                   phase2 := Advance(o.phase2, Detuned(libm, o.frequency, o.osc2Detune) / o.sampleRate));
    OscStep(next, OscMix(libm, o))
  }

  /** The two oscillators' current samples, each scaled by its level. */
  function OscMix(libm: Libm, o: DualOscillator): real
  {
    Waveform(libm, o.osc1Type, o.phase1) * o.osc1Level + Waveform(libm, o.osc2Type, o.phase2) * o.osc2Level
  }

  /** With non-sine shapes, levels in [0, 1] and phases in [0, 1), the
      mix never leaves [-(l1 + l2), l1 + l2]. */
  lemma OscOutputBounded(libm: Libm, o: DualOscillator)
    requires o.sampleRate > 0.0
    requires o.osc1Type != Sine && o.osc2Type != Sine
    requires 0.0 <= o.phase1 < 1.0 && 0.0 <= o.phase2 < 1.0
    requires 0.0 <= o.osc1Level <= 1.0 && 0.0 <= o.osc2Level <= 1.0
    ensures -(o.osc1Level + o.osc2Level) <= OscProcess(libm, o).out <= o.osc1Level + o.osc2Level
  {
    var s1 := Waveform(libm, o.osc1Type, o.phase1);
    var s2 := Waveform(libm, o.osc2Type, o.phase2);
    var m1, m2 := s1 * o.osc1Level, s2 * o.osc2Level;
    ScaledBound(s1, o.osc1Level, m1);
    ScaledBound(s2, o.osc2Level, m2);
    assert OscMix(libm, o) == m1 + m2;
  }

  lemma ScaledBound(s: real, l: real, m: real)
    requires -1.0 <= s <= 1.0 && 0.0 <= l && m == s * l
    ensures -l <= m <= l
  {
    MulNonNegative(1.0 - s, l);
    MulNonNegative(1.0 + s, l);
    assert (1.0 - s) * l == l - m;
    assert (1.0 + s) * l == l + m;
  }

  lemma MulNonNegative(a: real, b: real)
    requires 0.0 <= a && 0.0 <= b
    ensures 0.0 <= a * b
  {
  }

  // -----------------------------------------------------------------------
  // TrackVoice

  datatype TrackVoice = TrackVoice(osc: DualOscillator, envelope: Envelope, filter: BiquadFilter,
                                   note: byte, isActive: bool)

  function NewTrackVoice(k: Kernels, sampleRate: real): (v: TrackVoice)
    ensures !v.isActive && !v.envelope.IsActive()
  {
    TrackVoice(NewOscillator(sampleRate), Env.New(DefaultParams), NewFilter(k, sampleRate), 0, false)
  }

  /** `TrackVoice::note_on`: the velocity is ignored, the oscillator
      restarts at phase 0 on the note's frequency and the envelope
      re-enters Attack keeping its stored level (it is not replaced,
      unlike the legacy voice's), though the next sample restarts the
      attack ramp from 0. Filter history and settings are kept. */
  function TrackVoiceNoteOn(libm: Libm, v: TrackVoice, note: byte): (r: TrackVoice)
    ensures r.isActive && r.note == note && r.envelope.state == Attack
    ensures r.envelope.level == v.envelope.level && r.envelope.params == v.envelope.params
    ensures r.osc.phase1 == 0.0 && r.osc.phase2 == 0.0 && r.osc.frequency == NoteToFrequency(libm, note)
    ensures r.filter == v.filter
  {
    v.(osc := v.osc.(frequency := NoteToFrequency(libm, note), phase1 := 0.0, phase2 := 0.0),
       envelope := Env.NoteOn(v.envelope), note := note, isActive := true)
  }

  function TrackVoiceNoteOff(v: TrackVoice): (r: TrackVoice)
    ensures r.envelope.state == Release && r == v.(envelope := r.envelope)
  {
    v.(envelope := Env.NoteOff(v.envelope))
  }

  datatype TrackVoiceStep = TrackVoiceStep(voice: TrackVoice, out: real)

  /** `TrackVoice::process`: a voice whose envelope is already Idle is
      marked inactive and is silent; otherwise oscillator, envelope and
      filter each advance one sample, in that order. */
  function TrackVoiceProcess(libm: Libm, v: TrackVoice): (s: TrackVoiceStep)
    requires v.osc.sampleRate > 0.0
    ensures !v.envelope.IsActive() ==> s == TrackVoiceStep(v.(isActive := false), 0.0)
    ensures v.envelope.IsActive() ==> s.voice.isActive == v.isActive
    ensures SameSettings(v, s.voice) && s.voice.note == v.note
  {
    if !v.envelope.IsActive() then TrackVoiceStep(v.(isActive := false), 0.0)
    else
      var o := OscProcess(libm, v.osc);
      var e := Process(v.envelope);
      var f := FilterProcess(v.filter, o.out * e.out);
      TrackVoiceStep(v.(osc := o.osc, envelope := e.env, filter := f.filter), f.out)
  }

  /** The parts of a voice that the synthesizer's shared parameters set:
      every field except phases, frequency, envelope progress and filter
      history. */
  predicate SameSettings(v: TrackVoice, w: TrackVoice)
  {
    w.osc == v.osc.(phase1 := w.osc.phase1, phase2 := w.osc.phase2, frequency := w.osc.frequency)
    && w.envelope.params == v.envelope.params
    && w.filter == v.filter.(x1 := w.filter.x1, x2 := w.filter.x2, y1 := w.filter.y1, y2 := w.filter.y2)
  }

  // -----------------------------------------------------------------------
  // Shared parameters

  datatype SynthParams = SynthParams(osc1Type: OscillatorType, osc1Level: real, osc1Detune: real,
                                     osc2Type: OscillatorType, osc2Level: real, osc2Detune: real,
                                     filterType: FilterType, filterCutoff: real, filterResonance: real,
                                     envelopeParams: EnvelopeParams)

  const DefaultSynthParams: SynthParams :=
    SynthParams(Saw, 0.8, 0.0, Square, 0.4, 7.0, LowPass, 0.8, 0.2, DefaultParams)

  /** The ranges `set_parameter` keeps the stored values in. The filter
      cutoff and resonance are stored as given (only the voices' filters
      clamp them), so they have no range here. */
  predicate ParamsInRange(p: SynthParams)
  {
    0.0 <= p.osc1Level <= 1.0 && 0.0 <= p.osc2Level <= 1.0
    && -50.0 <= p.osc1Detune <= 50.0 && -50.0 <= p.osc2Detune <= 50.0
    && p.envelopeParams.attack >= 0.001 && p.envelopeParams.decay >= 0.001
    && p.envelopeParams.release >= 0.001 && 0.0 <= p.envelopeParams.sustain <= 1.0
  }

  /** A voice agrees with the synthesizer's parameters: oscillator
      shapes, levels and detunes, envelope parameters and filter settings
      are the shared ones (cutoff and resonance clamped), and its filter
      coefficients are designed for those settings. */
  predicate Coherent(k: Kernels, sampleRate: real, p: SynthParams, v: TrackVoice)
  {
    v.osc.osc1Type == p.osc1Type && v.osc.osc1Level == p.osc1Level && v.osc.osc1Detune == p.osc1Detune
    && v.osc.osc2Type == p.osc2Type && v.osc.osc2Level == p.osc2Level && v.osc.osc2Detune == p.osc2Detune
    && v.osc.sampleRate == sampleRate
    && v.envelope.params == p.envelopeParams
    && v.filter.filterType == p.filterType
    && v.filter.cutoff == Clamp(p.filterCutoff, 0.0, 1.0)
    && v.filter.resonance == Clamp(p.filterResonance, 0.0, 1.0)
    && v.filter.sampleRate == sampleRate
    && Designed(k, v.filter)
  }

  /** Keys whose value is a number. */
  const NumericKeys: set<string> :=
    {"osc1_level", "osc1_detune", "osc2_level", "osc2_detune", "filter_cutoff", "filter_resonance",
     "env_attack", "env_decay", "env_sustain", "env_release"}

  /** Keys whose value is a type name (never rejected). */
  const TypeKeys: set<string> := {"osc1_type", "osc2_type", "filter_type"}

  /** `set_parameter` acts on a known key whose value, for a numeric key,
      parses as a float; anything else changes nothing. */
  predicate Accepted(k: Kernels, key: string, value: string)
  {
    key in TypeKeys || (key in NumericKeys && k.parseF32(value).Some?)
  }

  /** The shared parameters after `set_parameter(key, value)`. */
  function ApplyParameter(k: Kernels, p: SynthParams, key: string, value: string): (q: SynthParams)
    ensures ParamsInRange(p) ==> ParamsInRange(q)
    ensures !Accepted(k, key, value) ==> q == p
  {
    if key == "osc1_type" then p.(osc1Type := OscillatorFromStr(value))
    else if key == "osc2_type" then p.(osc2Type := OscillatorFromStr(value))
    else if key == "filter_type" then p.(filterType := FilterFromStr(value))
    else match k.parseF32(value)
      case None => p
      case Some(x) =>
        if key == "osc1_level" then p.(osc1Level := Clamp(x, 0.0, 1.0))
        else if key == "osc1_detune" then p.(osc1Detune := Clamp(x, -50.0, 50.0))
        else if key == "osc2_level" then p.(osc2Level := Clamp(x, 0.0, 1.0))
        else if key == "osc2_detune" then p.(osc2Detune := Clamp(x, -50.0, 50.0))
        else if key == "filter_cutoff" then p.(filterCutoff := x)
        else if key == "filter_resonance" then p.(filterResonance := x)
        else if key == "env_attack" then p.(envelopeParams := p.envelopeParams.(attack := AtLeast(x, 0.001)))
        else if key == "env_decay" then p.(envelopeParams := p.envelopeParams.(decay := AtLeast(x, 0.001)))
        else if key == "env_sustain" then p.(envelopeParams := p.envelopeParams.(sustain := Clamp(x, 0.0, 1.0)))
        else if key == "env_release" then p.(envelopeParams := p.envelopeParams.(release := AtLeast(x, 0.001)))
        else p
  }

  /** What `set_parameter(key, value)` does to one voice, given the new
      shared parameters `q`: the one affected field is overwritten, and a
      filter setting goes through the filter's own setter (which clamps
      and redesigns). */
  function Retune(k: Kernels, key: string, q: SynthParams, v: TrackVoice): TrackVoice
  {
    if key == "osc1_type" then v.(osc := v.osc.(osc1Type := q.osc1Type))
    else if key == "osc1_level" then v.(osc := v.osc.(osc1Level := q.osc1Level))
    else if key == "osc1_detune" then v.(osc := v.osc.(osc1Detune := q.osc1Detune))
    else if key == "osc2_type" then v.(osc := v.osc.(osc2Type := q.osc2Type))
    else if key == "osc2_level" then v.(osc := v.osc.(osc2Level := q.osc2Level))
    else if key == "osc2_detune" then v.(osc := v.osc.(osc2Detune := q.osc2Detune))
    else if key == "filter_type" then v.(filter := SetFilterType(k, v.filter, q.filterType))
    else if key == "filter_cutoff" then v.(filter := SetCutoff(k, v.filter, q.filterCutoff))
    else if key == "filter_resonance" then v.(filter := SetResonance(k, v.filter, q.filterResonance))
    else if key == "env_attack" then v.(envelope := v.envelope.(params := v.envelope.params.(attack := q.envelopeParams.attack)))
    else if key == "env_decay" then v.(envelope := v.envelope.(params := v.envelope.params.(decay := q.envelopeParams.decay)))
    else if key == "env_sustain" then v.(envelope := v.envelope.(params := v.envelope.params.(sustain := q.envelopeParams.sustain)))
    else if key == "env_release" then v.(envelope := v.envelope.(params := v.envelope.params.(release := q.envelopeParams.release)))
    else v
  }

  /** A voice conformed to parameters `p`: every shared setting copied,
      the filter settings passed through the filter's setters. */
  function Conform(k: Kernels, p: SynthParams, v: TrackVoice): (r: TrackVoice)
    ensures Coherent(k, v.osc.sampleRate, p, r) || v.osc.sampleRate != v.filter.sampleRate
  {
    var f := SetResonance(k, SetCutoff(k, SetFilterType(k, v.filter, p.filterType), p.filterCutoff), p.filterResonance);
    v.(osc := v.osc.(osc1Type := p.osc1Type, osc1Level := p.osc1Level, osc1Detune := p.osc1Detune,
                     osc2Type := p.osc2Type, osc2Level := p.osc2Level, osc2Detune := p.osc2Detune),
       envelope := v.envelope.(params := p.envelopeParams),
       filter := f)
  }

  /** An accepted `set_parameter` call keeps every voice in agreement with
      the new shared parameters: the value reaches all voices. */
  lemma RetuneKeepsCoherent(k: Kernels, sampleRate: real, p: SynthParams, key: string, value: string, v: TrackVoice)
    requires Coherent(k, sampleRate, p, v) && Accepted(k, key, value)
    ensures Coherent(k, sampleRate, ApplyParameter(k, p, key, value), Retune(k, key, ApplyParameter(k, p, key, value), v))
  {
    var q := ApplyParameter(k, p, key, value);
    if key in TypeKeys {
      SetTypeParameter(k, p, key, value);
    } else {
      var x := k.parseF32(value).value;
      SetParameterStores(k, p, key, value, x);
      if key == "osc1_level" || key == "osc1_detune" || key == "osc2_level" || key == "osc2_detune" {
        assert Retune(k, key, q, v).filter == v.filter;
      } else if key == "filter_cutoff" || key == "filter_resonance" {
        assert Retune(k, key, q, v).osc == v.osc;
      } else {
        assert Retune(k, key, q, v).filter == v.filter && Retune(k, key, q, v).osc == v.osc;
      }
    }
  }

  /** Clamping rules of `set_parameter`, key by key: each accepted value
      is stored clamped (levels and sustain to [0, 1], detunes to
      [-50, 50], attack, decay and release floored at 0.001; cutoff and
      resonance as given) and no other parameter changes. */
  lemma SetParameterStores(k: Kernels, p: SynthParams, key: string, value: string, x: real)
    requires k.parseF32(value) == Some(x)
    ensures var q := ApplyParameter(k, p, key, value);
      (key == "osc1_level" ==> q == p.(osc1Level := Clamp(x, 0.0, 1.0))) &&
      (key == "osc2_level" ==> q == p.(osc2Level := Clamp(x, 0.0, 1.0))) &&
      (key == "osc1_detune" ==> q == p.(osc1Detune := Clamp(x, -50.0, 50.0))) &&
      (key == "osc2_detune" ==> q == p.(osc2Detune := Clamp(x, -50.0, 50.0))) &&
      (key == "filter_cutoff" ==> q == p.(filterCutoff := x)) &&
      (key == "filter_resonance" ==> q == p.(filterResonance := x)) &&
      (key == "env_attack" ==> q.envelopeParams == p.envelopeParams.(attack := AtLeast(x, 0.001))) &&
      (key == "env_decay" ==> q.envelopeParams == p.envelopeParams.(decay := AtLeast(x, 0.001))) &&
      (key == "env_sustain" ==> q.envelopeParams == p.envelopeParams.(sustain := Clamp(x, 0.0, 1.0))) &&
      (key == "env_release" ==> q.envelopeParams == p.envelopeParams.(release := AtLeast(x, 0.001))) &&
      (key in {"env_attack", "env_decay", "env_sustain", "env_release"} ==>
         q == p.(envelopeParams := q.envelopeParams))
  {
  }

  /** The type keys accept any text, case-insensitively. */
  lemma SetTypeParameter(k: Kernels, p: SynthParams, key: string, value: string)
    ensures key == "osc1_type" ==> ApplyParameter(k, p, key, value) == p.(osc1Type := OscillatorFromStr(value))
    ensures key == "osc2_type" ==> ApplyParameter(k, p, key, value) == p.(osc2Type := OscillatorFromStr(value))
    ensures key == "filter_type" ==> ApplyParameter(k, p, key, value) == p.(filterType := FilterFromStr(value))
  {
  }

  /** The voice a copied synthesizer starts with: a fresh voice
      conformed to the source's parameters. */
  function CopiedVoice(k: Kernels, sampleRate: real, p: SynthParams): (v: TrackVoice)
    ensures Coherent(k, sampleRate, p, v) && !v.isActive && !v.envelope.IsActive()
  {
    Conform(k, p, NewTrackVoice(k, sampleRate))
  }

  /** The voice `copy_synth` builds as written: the filter's type, cutoff
      and resonance fields are assigned directly, so the cutoff and
      resonance are not clamped and the coefficients stay those of a new
      filter. */
  function CopiedVoiceAsWritten(k: Kernels, sampleRate: real, p: SynthParams): (v: TrackVoice)
    ensures v.filter.coeffs == k.design(LowPass, 0.8, 0.2, sampleRate)
    ensures v.filter.filterType == p.filterType && v.filter.cutoff == p.filterCutoff
  {
    var v := NewTrackVoice(k, sampleRate);
    v.(osc := v.osc.(osc1Type := p.osc1Type, osc1Level := p.osc1Level, osc1Detune := p.osc1Detune,
                     osc2Type := p.osc2Type, osc2Level := p.osc2Level, osc2Detune := p.osc2Detune),
       envelope := v.envelope.(params := p.envelopeParams),
       filter := v.filter.(filterType := p.filterType, cutoff := p.filterCutoff, resonance := p.filterResonance))
  }

  /** `set_parameter("filter_cutoff", "2.0")` stores 2.0 in the shared
      parameters; `copy_synth` as written then gives every copied voice a
      filter cutoff of 2.0, outside the [0, 1] every other path keeps, so
      the copy's voices disagree with their parameters. */
  lemma CopyAsWrittenUnclampedCutoff(k: Kernels, sampleRate: real, p: SynthParams)
    requires k.parseF32("2.0") == Some(2.0)
    ensures var q := ApplyParameter(k, p, "filter_cutoff", "2.0");
      q.filterCutoff == 2.0 &&
      CopiedVoiceAsWritten(k, sampleRate, q).filter.cutoff == 2.0 &&
      !Coherent(k, sampleRate, q, CopiedVoiceAsWritten(k, sampleRate, q)) &&
      Coherent(k, sampleRate, q, CopiedVoice(k, sampleRate, q))
  {
  }

  /** A copied high-pass synthesizer filters as low-pass until its filter
      is next set: whenever the designs differ, the as-written copy's
      voices carry the wrong coefficients. */
  lemma CopyAsWrittenStaleCoefficients(k: Kernels, sampleRate: real, p: SynthParams)
    requires p.filterType == HighPass && p.filterCutoff == 0.8 && p.filterResonance == 0.2
    requires k.design(HighPass, 0.8, 0.2, sampleRate) != k.design(LowPass, 0.8, 0.2, sampleRate)
    ensures !Designed(k, CopiedVoiceAsWritten(k, sampleRate, p).filter)
    ensures Designed(k, CopiedVoice(k, sampleRate, p).filter)
  {
  }

  /** The `is_active` flags of a track voice array. */
  function TrackActiveFlags(vs: seq<TrackVoice>): (a: seq<bool>)
    ensures |a| == |vs| && forall i :: 0 <= i < |vs| ==> a[i] == vs[i].isActive
  {
    seq(|vs|, i requires 0 <= i < |vs| => vs[i].isActive)
  }

  /** One `process_sample` call: active voices advance, inactive voices
      are not touched. */
  function TrackStep(libm: Libm, v: TrackVoice): TrackVoiceStep
    requires v.osc.sampleRate > 0.0
  {
    if v.isActive then TrackVoiceProcess(libm, v) else TrackVoiceStep(v, 0.0)
  }

  predicate RatesPositive(vs: seq<TrackVoice>)
  {
    forall i :: 0 <= i < |vs| ==> vs[i].osc.sampleRate > 0.0
  }

  function TrackStepAll(libm: Libm, vs: seq<TrackVoice>): (r: seq<TrackVoice>)
    requires RatesPositive(vs)
    ensures |r| == |vs|
    ensures forall i :: 0 <= i < |vs| ==> r[i] == TrackStep(libm, vs[i]).voice
  {
    seq(|vs|, i requires 0 <= i < |vs| => TrackStep(libm, vs[i]).voice)
  }

  function TrackMix(libm: Libm, vs: seq<TrackVoice>): real
    requires RatesPositive(vs)
  {
    if |vs| == 0 then 0.0 else TrackMix(libm, vs[..|vs| - 1]) + TrackStep(libm, vs[|vs| - 1]).out
  }

  lemma TrackMixStep(libm: Libm, vs: seq<TrackVoice>, k: nat)
    requires RatesPositive(vs) && k < |vs|
    ensures TrackMix(libm, vs[..k + 1]) == TrackMix(libm, vs[..k]) + TrackStep(libm, vs[k]).out
  {
    assert vs[..k + 1][..k] == vs[..k];
  }

  /** The loop of `set_parameter`: every voice takes the new value. */
  method RetuneVoices(voices: array<TrackVoice>, k: Kernels, key: string, q: SynthParams)
    modifies voices
    ensures forall i :: 0 <= i < voices.Length ==> voices[i] == Retune(k, key, q, old(voices[i]))
  {
    var i := 0;
    while i < voices.Length
      invariant 0 <= i <= voices.Length
      invariant forall j :: 0 <= j < i ==> voices[j] == Retune(k, key, q, old(voices[j]))
      invariant forall j :: i <= j < voices.Length ==> voices[j] == old(voices[j])
    {
      voices[i] := Retune(k, key, q, voices[i]);
      i := i + 1;
    }
  }

  /** The loop of `process_sample`: each active voice advances one
      sample, and their outputs are summed. */
  method StepVoices(voices: array<TrackVoice>, libm: Libm) returns (sum: real)
    requires RatesPositive(voices[..])
    modifies voices
    ensures voices[..] == TrackStepAll(libm, old(voices[..]))
    ensures sum == TrackMix(libm, old(voices[..]))
  {
    ghost var before := voices[..];
    sum := 0.0;
    var i := 0;
    while i < voices.Length
      invariant 0 <= i <= voices.Length
      invariant forall j :: i <= j < voices.Length ==> voices[j] == before[j]
      invariant forall j :: 0 <= j < i ==> voices[j] == TrackStep(libm, before[j]).voice
      invariant sum == TrackMix(libm, before[..i])
    {
      TrackMixStep(libm, before, i);
      if voices[i].isActive {
        var s := TrackStep(libm, voices[i]);
        voices[i] := s.voice;
        sum := sum + s.out;
      }
      i := i + 1;
    }
    assert before[..voices.Length] == before;
  }

  /** Processing keeps every voice in agreement with the shared
      parameters: it only moves phases, envelopes and filter history. */
  lemma StepAllKeepsCoherent(k: Kernels, sampleRate: real, p: SynthParams, vs: seq<TrackVoice>)
    requires RatesPositive(vs) && forall i :: 0 <= i < |vs| ==> Coherent(k, sampleRate, p, vs[i])
    ensures forall i :: 0 <= i < |vs| ==> Coherent(k, sampleRate, p, TrackStepAll(k.libm, vs)[i])
  {
    forall i | 0 <= i < |vs|
      ensures Coherent(k, sampleRate, p, TrackStepAll(k.libm, vs)[i])
    {
      var v := vs[i];
      if v.isActive {
        assert SameSettings(v, TrackVoiceProcess(k.libm, v).voice);
      }
    }
  }

  /** A synthesizer with no sounding voice is silent. */
  lemma {:induction false} TrackMixOfSilentVoices(libm: Libm, vs: seq<TrackVoice>)
    requires RatesPositive(vs) && forall i :: 0 <= i < |vs| ==> !vs[i].isActive
    ensures TrackMix(libm, vs) == 0.0
  {
    if |vs| > 0 {
      TrackMixOfSilentVoices(libm, vs[..|vs| - 1]);
    }
  }

  /** After `note_off(n)` every sounding voice on note `n` is releasing. */
  function ReleaseAll(vs: seq<TrackVoice>, note: byte): (r: seq<TrackVoice>)
    ensures |r| == |vs| && TrackActiveFlags(r) == TrackActiveFlags(vs)
    ensures forall i :: 0 <= i < |vs| && vs[i].isActive && vs[i].note == note ==> r[i].envelope.state == Release
    ensures forall i :: 0 <= i < |vs| && !(vs[i].isActive && vs[i].note == note) ==> r[i] == vs[i]
  {
    seq(|vs|, i requires 0 <= i < |vs| =>
      if vs[i].isActive && vs[i].note == note then TrackVoiceNoteOff(vs[i]) else vs[i])
  }

  // -----------------------------------------------------------------------
  // TrackSynthesizer

  class TrackSynthesizer {
    var voices: array<TrackVoice>
    var params: SynthParams
    const kernels: Kernels
    const sampleRate: real

    ghost predicate Valid()
      reads this, voices
    {
      voices.Length == MAX_VOICES && sampleRate > 0.0 && ParamsInRange(params)
      && forall i :: 0 <= i < voices.Length ==> Coherent(kernels, sampleRate, params, voices[i])
    }

    function Active(): seq<bool>
      reads this, voices
    {
      TrackActiveFlags(voices[..])
    }

    /** `TrackSynthesizer::new`: 16 silent voices on the default
        parameters. */
    constructor (kernels: Kernels, sampleRate: real)
      requires sampleRate > 0.0
      ensures Valid() && fresh(voices) && this.kernels == kernels && this.sampleRate == sampleRate
      ensures params == DefaultSynthParams
      ensures forall i :: 0 <= i < voices.Length ==> voices[i] == NewTrackVoice(kernels, sampleRate)
    {
      this.kernels := kernels;
      this.sampleRate := sampleRate;
      params := DefaultSynthParams;
      voices := new TrackVoice[MAX_VOICES](_ => NewTrackVoice(kernels, sampleRate));
    }

    /** A new synthesizer carrying parameters `p`, every voice conformed
        to them (what `copy_synth` evidently intends). */
    constructor Copy(kernels: Kernels, sampleRate: real, p: SynthParams)
      requires sampleRate > 0.0 && ParamsInRange(p)
      ensures Valid() && fresh(voices) && this.kernels == kernels && this.sampleRate == sampleRate
      ensures params == p
      ensures forall i :: 0 <= i < voices.Length ==> voices[i] == CopiedVoice(kernels, sampleRate, p)
    {
      this.kernels := kernels;
      this.sampleRate := sampleRate;
      params := p;
      voices := new TrackVoice[MAX_VOICES](_ => CopiedVoice(kernels, sampleRate, p));
    }

    /** `set_parameter`: an accepted value is stored (clamped as
        `ApplyParameter` says) and written into all 16 voices; an unknown
        key or an unparsable number changes nothing. */
    method SetParameter(key: string, value: string)
      requires Valid()
      modifies this, voices
      ensures Valid() && voices == old(voices)
      ensures params == ApplyParameter(kernels, old(params), key, value)
      ensures forall i :: 0 <= i < voices.Length ==>
        voices[i] == if Accepted(kernels, key, value) then Retune(kernels, key, params, old(voices[i])) else old(voices[i])
    {
      if !Accepted(kernels, key, value) {
        return;
      }
      ghost var before := voices[..];
      forall j | 0 <= j < |before|
        ensures Coherent(kernels, sampleRate, ApplyParameter(kernels, params, key, value),
                         Retune(kernels, key, ApplyParameter(kernels, params, key, value), before[j]))
      {
        RetuneKeepsCoherent(kernels, sampleRate, params, key, value, before[j]);
      }
      params := ApplyParameter(kernels, params, key, value);
      RetuneVoices(voices, kernels, key, params);
    }

    /** `find_free_voice`: the lowest-index inactive voice, else voice 0. */
    method FindFreeVoice() returns (i: nat)
      requires Valid()
      ensures i == FreeSlot(Active()) && i < voices.Length
    {
      var k := 0;
      while k < voices.Length && voices[k].isActive
        invariant 0 <= k <= voices.Length
        invariant forall j :: 0 <= j < k ==> voices[j].isActive
      {
        k := k + 1;
      }
      i := if k < voices.Length then k else 0;
    }

    /** `note_on`: the chosen voice (possibly stolen) starts the note. */
    method NoteOn(note: byte, velocity: byte)
      requires Valid()
      modifies voices
      ensures Valid()
      ensures voices[..] == old(voices[..])[FreeSlot(old(Active())) :=
                TrackVoiceNoteOn(kernels.libm, old(voices[FreeSlot(Active())]), note)]
    {
      var i := FindFreeVoice();
      voices[i] := TrackVoiceNoteOn(kernels.libm, voices[i], note);
    }

    /** `note_off`: every active voice on the note is released. */
    method NoteOff(note: byte, velocity: byte)
      requires Valid()
      modifies voices
      ensures Valid() && voices[..] == ReleaseAll(old(voices[..]), note)
    {
      var i := 0;
      while i < voices.Length
        invariant 0 <= i <= voices.Length
        invariant forall j :: 0 <= j < i ==> voices[j] == ReleaseAll(old(voices[..]), note)[j]
        invariant forall j :: i <= j < voices.Length ==> voices[j] == old(voices[j])
        invariant forall j :: 0 <= j < voices.Length ==> Coherent(kernels, sampleRate, params, voices[j])
      {
        if voices[i].isActive && voices[i].note == note {
          voices[i] := TrackVoiceNoteOff(voices[i]);
        }
        i := i + 1;
      }
    }

    /** `process_sample`: the active voices advance and their outputs are
        summed at gain 0.5. */
    method ProcessSample() returns (out: real)
      requires Valid()
      modifies voices
      ensures Valid()
      ensures RatesPositive(old(voices[..]))
      ensures voices[..] == TrackStepAll(kernels.libm, old(voices[..]))
      ensures out == TrackMix(kernels.libm, old(voices[..])) * 0.5
    {
      ghost var before := voices[..];
      var sum := StepVoices(voices, kernels.libm);
      StepAllKeepsCoherent(kernels, sampleRate, params, before);
      out := sum * 0.5;
    }

    /** `is_active`: some voice is sounding. */
    function IsActive(): (b: bool)
      requires Valid()
      reads this, voices
      ensures b <==> CountActive(Active()) > 0
    {
      EmptyIffNoneActive(Active());
      exists i :: 0 <= i < voices.Length && voices[i].isActive
    }

    /** `active_voice_count`. */
    function ActiveVoiceCount(): (n: nat)
      requires Valid()
      reads this, voices
      ensures n <= MAX_VOICES && (n == 0 <==> !IsActive())
    {
      CountActive(Active())
    }
  }

  /** Allocation through `note_on` in terms of the count, as for the
      legacy pool: one more sounding voice while a slot is free, the
      count unchanged (voice 0 stolen) when all 16 sound. */
  lemma TrackNoteOnCount(libm: Libm, vs: seq<TrackVoice>, note: byte)
    requires |vs| == MAX_VOICES
    ensures var i := FreeSlot(TrackActiveFlags(vs));
      var after := vs[i := TrackVoiceNoteOn(libm, vs[i], note)];
      CountActive(TrackActiveFlags(after)) <= MAX_VOICES &&
      CountActive(TrackActiveFlags(after)) ==
        if CountActive(TrackActiveFlags(vs)) < MAX_VOICES then CountActive(TrackActiveFlags(vs)) + 1
        else CountActive(TrackActiveFlags(vs))
  {
    var i := FreeSlot(TrackActiveFlags(vs));
    var after := vs[i := TrackVoiceNoteOn(libm, vs[i], note)];
    assert TrackActiveFlags(after) == TrackActiveFlags(vs)[i := true];
    AllocateSlot(TrackActiveFlags(vs));
  }

  // -----------------------------------------------------------------------
  // TrackSynthManager

  class TrackSynthManager {
    var synths: map<nat, TrackSynthesizer>
    ghost var Repr: set<object>
    const kernels: Kernels
    const sampleRate: real

    /** Every synthesizer is valid, built with the manager's kernels and
        rate, and owns its voice array alone. */
    ghost predicate Valid()
      reads this, Repr
    {
      sampleRate > 0.0
      && (forall id :: id in synths ==>
            synths[id] in Repr && synths[id].voices in Repr && synths[id].Valid()
            && synths[id].kernels == kernels && synths[id].sampleRate == sampleRate)
      && (forall a, b :: a in synths && b in synths && a != b ==>
            synths[a] != synths[b] && synths[a].voices != synths[b].voices)
    }

    constructor (kernels: Kernels, sampleRate: real)
      requires sampleRate > 0.0
      ensures Valid() && synths == map[] && this.kernels == kernels && this.sampleRate == sampleRate
    {
      synths := map[];
      Repr := {};
      this.kernels := kernels;
      this.sampleRate := sampleRate;
    }

    /** `create_synth`: a new synthesizer on default parameters for the
        track, replacing any existing one; the track id is returned. */
    method CreateSynth(trackId: nat) returns (id: nat)
      requires Valid()
      modifies this
      ensures Valid() && id == trackId
      ensures synths.Keys == old(synths.Keys) + {trackId}
      ensures fresh(synths[trackId]) && synths[trackId].params == DefaultSynthParams
      ensures synths[trackId].voices.Length == MAX_VOICES
      ensures forall i :: 0 <= i < synths[trackId].voices.Length ==>
        synths[trackId].voices[i] == NewTrackVoice(kernels, sampleRate)
      ensures forall t :: t in old(synths) && t != trackId ==> synths[t] == old(synths[t])
    {
      var s := new TrackSynthesizer(kernels, sampleRate);
      synths := synths[trackId := s];
      Repr := Repr + {s, s.voices};
      id := trackId;
    }

    predicate HasSynth(trackId: nat)
      reads this
    {
      trackId in synths
    }

    /** `set_parameter` forwarded to the track's synthesizer; a no-op for a
        track without one. */
    method SetParameter(trackId: nat, key: string, value: string)
      requires Valid()
      modifies Repr
      ensures Valid() && synths == old(synths) && Repr == old(Repr)
      ensures trackId in synths ==>
        synths[trackId].params == ApplyParameter(kernels, old(synths[trackId].params), key, value)
      ensures trackId in synths ==> forall i :: 0 <= i < synths[trackId].voices.Length ==>
        synths[trackId].voices[i] ==
          if Accepted(kernels, key, value) then Retune(kernels, key, synths[trackId].params, old(synths[trackId].voices[i]))
          else old(synths[trackId].voices[i])
      ensures forall t :: t in synths && t != trackId ==>
        synths[t].params == old(synths[t].params) && synths[t].voices[..] == old(synths[t].voices[..])
      ensures trackId !in synths ==> forall t :: t in synths ==> synths[t].voices[..] == old(synths[t].voices[..])
    {
      if trackId in synths {
        synths[trackId].SetParameter(key, value);
      }
    }

    method NoteOn(trackId: nat, note: byte, velocity: byte)
      requires Valid()
      modifies Repr
      ensures Valid() && synths == old(synths) && Repr == old(Repr)
      ensures forall t :: t in synths ==> synths[t].params == old(synths[t].params)
      ensures forall t :: t in synths && t != trackId ==> synths[t].voices[..] == old(synths[t].voices[..])
      ensures trackId in synths ==>
        synths[trackId].voices[..] == old(synths[trackId].voices[..])[FreeSlot(old(synths[trackId].Active())) :=
          TrackVoiceNoteOn(kernels.libm, old(synths[trackId].voices[FreeSlot(synths[trackId].Active())]), note)]
      ensures trackId in synths ==>
        CountActive(synths[trackId].Active()) ==
          if CountActive(old(synths[trackId].Active())) < MAX_VOICES
          then CountActive(old(synths[trackId].Active())) + 1
          else MAX_VOICES
    {
      if trackId in synths {
        var s := synths[trackId];
        ghost var before := s.voices[..];
        s.NoteOn(note, velocity);
        TrackNoteOnCount(kernels.libm, before, note);
        FullIffAllActive(TrackActiveFlags(before));
      }
    }

    method NoteOff(trackId: nat, note: byte, velocity: byte)
      requires Valid()
      modifies Repr
      ensures Valid() && synths == old(synths) && Repr == old(Repr)
      ensures forall t :: t in synths ==> synths[t].params == old(synths[t].params)
      ensures forall t :: t in synths && t != trackId ==> synths[t].voices[..] == old(synths[t].voices[..])
      ensures trackId in synths ==> synths[trackId].voices[..] == ReleaseAll(old(synths[trackId].voices[..]), note)
    {
      if trackId in synths {
        synths[trackId].NoteOff(note, velocity);
      }
    }

    /** `process_sample` for one track; 0.0 when the track has no synth. */
    method ProcessSample(trackId: nat) returns (out: real)
      requires Valid()
      modifies Repr
      ensures Valid() && synths == old(synths) && Repr == old(Repr)
      ensures trackId !in synths ==> out == 0.0
      ensures forall t :: t in synths ==> synths[t].params == old(synths[t].params)
      ensures forall t :: t in synths && t != trackId ==> synths[t].voices[..] == old(synths[t].voices[..])
      ensures trackId in synths ==>
        synths[trackId].voices[..] == TrackStepAll(kernels.libm, old(synths[trackId].voices[..])) &&
        out == TrackMix(kernels.libm, old(synths[trackId].voices[..])) * 0.5
    {
      if trackId in synths {
        out := synths[trackId].ProcessSample();
      } else {
        out := 0.0;
      }
    }

    /** `copy_synth`: false when the source track has no synth; otherwise
        the destination gets a new synthesizer carrying the source's
        parameters, with every voice conformed to them. */
    method CopySynth(sourceId: nat, destId: nat) returns (copied: bool)
      requires Valid()
      modifies this
      ensures Valid()
      ensures copied <==> sourceId in old(synths)
      ensures !copied ==> synths == old(synths)
      ensures copied ==> synths.Keys == old(synths.Keys) + {destId} && fresh(synths[destId])
      ensures copied ==> synths[destId].params == old(synths[sourceId].params)
      ensures copied ==> forall i :: 0 <= i < synths[destId].voices.Length ==>
        synths[destId].voices[i] == CopiedVoice(kernels, sampleRate, synths[destId].params)
      ensures forall t :: t in old(synths) && t != destId ==> synths[t] == old(synths[t])
    {
      if sourceId !in synths {
        return false;
      }
      var p := synths[sourceId].params;
      var s := new TrackSynthesizer.Copy(kernels, sampleRate, p);
      synths := synths[destId := s];
      Repr := Repr + {s, s.voices};
      copied := true;
    }
  }
}
