/** The MIDI recorder of engine/src/midi_recorder.rs: Idle / Recording,
    events stored with timestamps relative to the playhead position at
    which recording started, and a quantize grid derived from the tempo.
    The shared playhead is read through a parameter, and the clip's own
    quantisation (`MidiClip::quantize`, in engine/src/midi.rs, which is
    not part of this model) is a function the recorder is given. */
module MidiRecorder {
  import opened Common
  import opened Timing
  import opened Midi

  datatype MidiRecordingState = Idle | Recording

  const ALREADY_RECORDING: string := "Already recording"
  const NOT_RECORDING: string := "Not recording"
  const RECORDING_STARTED: string := "Recording started"

  /** A timestamp relative to the recording start, 0 for an event stamped
      before it. */
  function RelativeTimestamp(ts: nat, start: nat): (r: nat)
    ensures ts >= start ==> r + start == ts
    ensures ts < start ==> r == 0
  {
    if ts >= start then ts - start else 0
  }

  /** Relative timestamps keep the order of the absolute ones, and an
      event `d` samples after the start is stored at `d`. */
  lemma RelativeTimestampOrder(a: nat, b: nat, start: nat)
    ensures a <= b ==> RelativeTimestamp(a, start) <= RelativeTimestamp(b, start)
    ensures RelativeTimestamp(start + a, start) == a
  {
  }

  function Relative(e: MidiEvent, start: nat): (r: MidiEvent)
    ensures r.eventType == e.eventType && r.timestampSamples == RelativeTimestamp(e.timestampSamples, start)
  {
    e.(timestampSamples := RelativeTimestamp(e.timestampSamples, start))
  }

  /** `update_quantize_grid`: a sixteenth note, a quarter of the beat. */
  function QuantizeGrid(tempo: real): (g: nat)
    requires ValidTempo(tempo)
    ensures 2400 <= g <= 36000
  {
    SamplesPerBeat(tempo) / 4
  }

  /** At 120 BPM the grid is 6000 samples. */
  lemma QuantizeGridAt120()
    ensures QuantizeGrid(120.0) == 6000
  {
    SamplesPerBeatAt120();
  }

  /** The grid the `note_division` argument names (0 = off, 4 = quarter
      notes, 16 = sixteenths, ...): a 1/division note, a beat being a
      quarter note, rounded down to whole samples. */
  function IntendedGrid(tempo: real, division: nat): (g: nat)
    requires ValidTempo(tempo)
    ensures division == 0 ==> g == 0
    ensures division > 0 ==> g * division <= 4 * SamplesPerBeat(tempo) < (g + 1) * division
  {
    if division == 0 then 0
    else
      var whole := 4 * SamplesPerBeat(tempo);
      var g := whole / division;
      assert g * division + whole % division == whole;
      assert (g + 1) * division == g * division + division;
      g
  }

  /** A finer division never gives a coarser grid, and the sixteenth-note
      division is the grid `update_quantize_grid` computes. */
  lemma IntendedGridProperties(tempo: real, d1: nat, d2: nat)
    requires ValidTempo(tempo) && 0 < d1 <= d2
    ensures IntendedGrid(tempo, d2) <= IntendedGrid(tempo, d1)
    ensures IntendedGrid(tempo, 16) == QuantizeGrid(tempo)
  {
    var whole := 4 * SamplesPerBeat(tempo);
    var g1, g2 := IntendedGrid(tempo, d1), IntendedGrid(tempo, d2);
    if g1 < g2 {
      MulMonotone(g1 + 1, g2, d1, d2);
    }
    var s := SamplesPerBeat(tempo);
    DivModUnique(whole, 16, s / 4, (s % 4) * 4);
  }

  /** The quantize settings as `set_quantize` and `set_tempo` evidently
      intend them: the recorder remembers the division it was given, and
      the grid is always the one that division names at the current
      tempo. */
  datatype QuantizeSettings = QuantizeSettings(tempo: real, division: nat)

  /** The grid the corrected settings give. */
  function SettingsGrid(q: QuantizeSettings): nat
    requires ValidTempo(q.tempo)
  {
    IntendedGrid(q.tempo, q.division)
  }

  /** Corrected `set_quantize`: the division is stored and the grid is
      the one it names (0 for off). */
  function IntendedSetQuantize(q: QuantizeSettings, division: nat): (r: QuantizeSettings)
    requires ValidTempo(q.tempo)
    ensures ValidTempo(r.tempo) && r.tempo == q.tempo && r.division == division
    ensures division == 0 ==> SettingsGrid(r) == 0
    ensures division > 0 ==> SettingsGrid(r) * division <= 4 * SamplesPerBeat(q.tempo) < (SettingsGrid(r) + 1) * division
  {
    q.(division := division)
  }

  /** Corrected `set_tempo`: the tempo is clamped to [20, 300] BPM as
      written, and the grid follows the stored division. */
  function IntendedSetTempo(q: QuantizeSettings, bpm: real): (r: QuantizeSettings)
    ensures ValidTempo(r.tempo) && r.tempo == Clamp(bpm, MIN_TEMPO, MAX_TEMPO) && r.division == q.division
  {
    QuantizeSettings(Clamp(bpm, MIN_TEMPO, MAX_TEMPO), q.division)
  }

  /** A run of `set_tempo` calls, in order. */
  function SetTempos(q: QuantizeSettings, bpms: seq<real>): (r: QuantizeSettings)
    decreases |bpms|
  {
    if |bpms| == 0 then q else SetTempos(IntendedSetTempo(q, bpms[0]), bpms[1..])
  }

  /** With the corrected settings, tempo changes never touch the division,
      so quantisation switched off by `set_quantize(0)` stays off through
      any number of `set_tempo` calls. */
  lemma {:induction false} QuantizeOffSurvivesTempo(q: QuantizeSettings, bpms: seq<real>)
    requires ValidTempo(q.tempo)
    ensures var r := SetTempos(IntendedSetQuantize(q, 0), bpms);
      ValidTempo(r.tempo) && r.division == 0 && SettingsGrid(r) == 0
    decreases |bpms|
  {
    if |bpms| > 0 {
      var q' := IntendedSetTempo(IntendedSetQuantize(q, 0), bpms[0]);
      assert IntendedSetQuantize(q', 0) == q';
      QuantizeOffSurvivesTempo(q', bpms[1..]);
    }
  }

  /** Where quantisation is on at sixteenth notes, the corrected settings
      and the recorder as written agree after any tempo change. */
  lemma SixteenthsAgree(q: QuantizeSettings, bpm: real)
    requires q.division == 16
    ensures SettingsGrid(IntendedSetTempo(q, bpm)) == QuantizeGrid(Clamp(bpm, MIN_TEMPO, MAX_TEMPO))
  {
    IntendedGridProperties(Clamp(bpm, MIN_TEMPO, MAX_TEMPO), 16, 16);
  }

  lemma MulMonotone(a: nat, b: nat, c: nat, d: nat)
    requires a <= b && c <= d
    ensures a * c <= b * d
  {
    assert a * c <= b * c;
    assert b * c <= b * d;
  }

  class MidiRecorder {
    var state: MidiRecordingState
    var events: seq<MidiEvent>
    var startTimestamp: nat
    var tempo: real
    var quantizeGridSamples: nat
    /** `MidiClip::quantize` with a grid in samples. */
    const quantize: (MidiClip, nat) -> MidiClip

    ghost predicate Valid()
      reads this
    {
      ValidTempo(tempo)
    }

    /** `MidiRecorder::new`: Idle, no events, 120 BPM, no quantisation. */
    constructor (quantize: (MidiClip, nat) -> MidiClip)
      ensures Valid() && this.quantize == quantize
      ensures state == Idle && events == [] && startTimestamp == 0 && tempo == 120.0 && quantizeGridSamples == 0
    {
      state := Idle;
      events := [];
      startTimestamp := 0;
      tempo := 120.0;
      quantizeGridSamples := 0;
      this.quantize := quantize;
    }

    /** `start_recording`: only from Idle; the playhead becomes the start
        and the event buffer is emptied. */
    method StartRecording(playhead: nat) returns (r: Result<string, string>)
      requires Valid()
      modifies this
      ensures Valid() && tempo == old(tempo) && quantizeGridSamples == old(quantizeGridSamples)
      ensures old(state) != Idle ==>
        r == Err(ALREADY_RECORDING) && state == old(state) && events == old(events) &&
        startTimestamp == old(startTimestamp)
      ensures old(state) == Idle ==>
        r == Ok(RECORDING_STARTED) && state == Recording && events == [] && startTimestamp == playhead
    {
      if state != Idle {
        return Err(ALREADY_RECORDING);
      }
      startTimestamp := playhead;
      events := [];
      state := Recording;
      r := Ok(RECORDING_STARTED);
    }

    /** `stop_recording`: only while Recording; goes Idle and hands back
        the events as a 48 kHz clip, quantised iff a grid is set, or
        nothing when no event came in. The buffer is kept. */
    method StopRecording() returns (r: Result<Option<MidiClip>, string>)
      requires Valid()
      modifies this
      ensures Valid()
      ensures events == old(events) && startTimestamp == old(startTimestamp)
      ensures tempo == old(tempo) && quantizeGridSamples == old(quantizeGridSamples)
      ensures old(state) != Recording ==> r == Err(NOT_RECORDING) && state == old(state)
      ensures old(state) == Recording ==> state == Idle && r.Ok?
      ensures old(state) == Recording && events == [] ==> r == Ok(None)
      ensures old(state) == Recording && events != [] ==>
        var clip := MidiClip(events, SAMPLE_RATE_HZ);
        r == Ok(Some(if quantizeGridSamples > 0 then quantize(clip, quantizeGridSamples) else clip))
    {
      if state != Recording {
        return Err(NOT_RECORDING);
      }
      state := Idle;
      if |events| == 0 {
        return Ok(None);
      }
      var clip := MidiClip(events, SAMPLE_RATE_HZ);
      if quantizeGridSamples > 0 {
        clip := quantize(clip, quantizeGridSamples);
      }
      r := Ok(Some(clip));
    }

    /** `record_event`: ignored unless Recording; otherwise appended with
        its timestamp made relative to the start. */
    method RecordEvent(event: MidiEvent)
      requires Valid()
      modifies this
      ensures Valid()
      ensures state == old(state) && startTimestamp == old(startTimestamp)
      ensures tempo == old(tempo) && quantizeGridSamples == old(quantizeGridSamples)
      ensures events == if state == Recording then old(events) + [Relative(event, startTimestamp)] else old(events)
    {
      if state != Recording {
        return;
      }
      var recorded := event.(timestampSamples := RelativeTimestamp(event.timestampSamples, startTimestamp));
      events := events + [recorded];
    }

    /** `update_quantize_grid`. */
    method UpdateQuantizeGrid()
      requires Valid()
      modifies this
      ensures Valid() && quantizeGridSamples == QuantizeGrid(tempo)
      ensures state == old(state) && events == old(events) && startTimestamp == old(startTimestamp)
      ensures tempo == old(tempo)
    {
      var secondsPerBeat := 60.0 / tempo;
      var samplesPerBeat := CastU64(secondsPerBeat * SAMPLE_RATE_HZ as real);
      quantizeGridSamples := samplesPerBeat / 4;
    }

    /** `set_tempo`: clamped to [20, 300] BPM, and the grid recomputed
        (switching quantisation on even when it was off). */
    method SetTempo(bpm: real)
      requires Valid()
      modifies this
      ensures Valid() && tempo == Clamp(bpm, MIN_TEMPO, MAX_TEMPO) && quantizeGridSamples == QuantizeGrid(tempo)
      ensures state == old(state) && events == old(events) && startTimestamp == old(startTimestamp)
    {
      tempo := AtLeast(bpm, MIN_TEMPO);
      tempo := if MAX_TEMPO < tempo then MAX_TEMPO else tempo;
      UpdateQuantizeGrid();
    }

    /** `set_quantize`: 0 switches quantisation off; any other value sets
        the sixteenth-note grid, whatever the division asked for. */
    method SetQuantize(division: nat)
      requires Valid()
      modifies this
      ensures Valid() && quantizeGridSamples == if division == 0 then 0 else QuantizeGrid(tempo)
      ensures state == old(state) && events == old(events) && startTimestamp == old(startTimestamp)
      ensures tempo == old(tempo)
    {
      if division == 0 {
        quantizeGridSamples := 0;
      } else {
        UpdateQuantizeGrid();
      }
    }

    /** `event_count`. */
    function EventCount(): nat
      reads this
    {
      |events|
    }
  }

  /** As written, asking for quarter notes at 120 BPM sets a 6000-sample
      grid (sixteenth notes) where a quarter note is 24000 samples. */
  method QuantizeIgnoresDivision(quantize: (MidiClip, nat) -> MidiClip) returns (grid: nat)
    ensures grid == 6000 && IntendedGrid(120.0, 4) == 24000
  {
    var m := new MidiRecorder(quantize);
    m.SetTempo(120.0);
    m.SetQuantize(4);
    grid := m.quantizeGridSamples;
    QuantizeGridAt120();
    SamplesPerBeatAt120();
  }

  /** As written, changing the tempo after switching quantisation off
      switches it back on; the corrected settings keep it off. */
  method TempoReenablesQuantize(quantize: (MidiClip, nat) -> MidiClip) returns (grid: nat)
    ensures grid == 6000
    ensures SettingsGrid(IntendedSetTempo(IntendedSetQuantize(QuantizeSettings(120.0, 0), 0), 120.0)) == 0
  {
    var m := new MidiRecorder(quantize);
    m.SetQuantize(0);
    m.SetTempo(120.0);
    grid := m.quantizeGridSamples;
    QuantizeGridAt120();
  }
}
