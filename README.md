# solar-audio engine core in Dafny

This project models the sequential core of the solar-audio engine, a Rust digital
audio workstation back end, and proves properties of it:

- the two polyphonic synthesizers of `engine/src/synth.rs`. The legacy
  `Synthesizer` and the per-track `TrackSynthesizer` both keep 16 voices in a
  fixed array updated in place. The file also holds the ADSR envelope, the voice
  allocation and release rules, the parameter setters and their clamps, and
  `TrackSynthManager`, which maps track ids to synthesizers;
- the audio recorder of `engine/src/recorder.rs`: states Idle, CountingIn and
  Recording, a sample counter that drives a metronome, the count-in, and a stereo
  capture buffer;
- the timeline and transport of `engine/src/audio_graph.rs`: the clip list with
  ids from a counter, play, pause, stop and seek on a sample-count playhead, and
  the per-buffer mix that the output callback runs;
- the MIDI recorder of `engine/src/midi_recorder.rs`: relative timestamps, the
  tempo clamp and the quantisation grid;
- the MIDI byte parser, device list and capture guards of `engine/src/midi_input.rs`;
- the FX-chain API of `engine/src/api/effects.rs`: adding, removing and listing
  effects on a track, and checking parameter names;
- the export progress record and the cancellation guard of `engine/src/export/progress.rs`.

Modelling choices:

- `Copy` structs held by value become datatypes: `Envelope`, `Voice`,
  `BiquadFilter`, `DualOscillator` and `TrackVoice`. Their `&mut self` methods
  become functions that return the new value.
- Objects whose fields are updated in place become classes with `modifies`
  clauses. These are `Synthesizer`, `TrackSynthesizer`, `TrackSynthManager`,
  `Recorder`, `AudioGraph`, `MidiRecorder`, `MidiInputManager`, the effect graph
  and `ExportProgressState`.
- Each loop of the source is a `while` loop whose method is proved against a
  specification function. Examples are `Run`, `Frame`, `MixAt`, `OutputFrame`,
  `StepAll`, `ReleaseFirst`, `ReleaseAll`, `SampleAt` and `Apply`.
- Samples are `real`.
- Library floating-point functions are parameters that the model leaves
  uninterpreted: sine, `powf`/`exp2`, the biquad coefficient design and
  `str::parse::<f32>`.
- Locks and atomics are plain fields.
- The outside world is a parameter of the operation that touches it:
  - whether the output device starts or pauses (`deviceOk`);
  - whether the MIDI driver connects (`connectOk`);
  - whether a VST3 plug-in accepts a value (`pluginAccepts`);
  - the frames the input device delivers (`inputs`);
  - the playhead read when MIDI recording starts;
  - the wall clock that names a recorded file (`nowSecs`).

Where the engine's own description and the code disagree, the model follows the code:

- `Recorder::stop_recording` from Idle returns `Ok(None)` and does not fail
  (recorder.rs:95-97).
- `AudioGraph::stop` does not reset the recorder's metronome counter.
- `AudioGraph::stop` returns a device error before the playhead is reset, so on
  that error the playhead keeps its value.
- audio_graph.rs calls `process_frame` with two arguments (lines 246 and 339),
  but recorder.rs:199-204 takes three. The model calls the recorder with
  `is_playing`: false in the not-playing branch, true in the playing branch.

## Model

| member | source | states |
|---|---|---|
| Envelope.New | engine/src/synth.rs:69-76 | A new envelope is Idle, at level 0 and time 0, and not active. |
| Envelope.NoteOn | engine/src/synth.rs:78-82 | Note-on enters Attack at time 0 and keeps the stored level. The next sample restarts the attack ramp from 0 (see `RetriggerRestartsRamp`). |
| Envelope.RetriggerRestartsRamp | engine/src/synth.rs:78-108 | A note retriggered while still sounding gives 0 on the next sample and ramps up again from 0, because the attack level is the stage time over the attack length and the stage time was reset: an audible click. |
| Envelope.NoteOff | engine/src/synth.rs:84-87 | Note-off enters Release at time 0 and keeps the level. |
| Envelope.Process | engine/src/synth.rs:89-144 | One sample: output is the level clamped to [0, 1]. Idle stays Idle at 0. Attack passes to Decay at level 1 once the ramp reaches 1 or the attack length is 0. Decay passes to Sustain once at or below the sustain level. Sustain holds the sustain level. Release passes to Idle at 0 once at or below 0.0001. Stage time grows by one sample. |
| Envelope.ProcessAdvancesOneStage | engine/src/synth.rs:89-144 | In the order Attack, Decay, Sustain, Release, Idle, a sample never moves the stage back and moves it at most one step. Sustain never ends by itself. |
| Envelope.RunNeverGoesBack | engine/src/synth.rs:89-144 | Without note events, the stage never goes back, over any number of samples. |
| Envelope.IdleStaysIdle | engine/src/synth.rs:91-93 | An idle envelope stays idle and silent. |
| Envelope.ReleaseEndsIdle | engine/src/synth.rs:126-139 | Once the release time has passed, a released envelope is Idle, so its voice retires. |
| Envelope.AttackEnds | engine/src/synth.rs:94-108 | Once the attack time has passed, the envelope has left Attack and does not come back. |
| VoicePool.FreeSlot | engine/src/synth.rs:301-309 | The slot a note-on takes is the lowest-index silent slot, or slot 0 when all slots sound. |
| VoicePool.FullIffAllActive | engine/src/synth.rs:301-309 | The active count equals the slot count exactly when every slot sounds. |
| VoicePool.EmptyIffNoneActive | engine/src/synth.rs:875-881 | The active count is 0 exactly when no slot sounds. |
| VoicePool.OccupySlot | engine/src/synth.rs:174-182 | Switching one slot on raises the count by one if the slot was silent, and by nothing otherwise. |
| VoicePool.CountPointwiseMonotone | engine/src/synth.rs:219-222 | If no slot is switched on, the count does not rise. |
| VoicePool.AllocateSlot | engine/src/synth.rs:301-309 | A note-on raises the count by exactly 1 while a slot is free and steals otherwise. The count never exceeds the slot count. |
| Synth.OscillatorFromStr | engine/src/synth.rs:18-26 | Each named shape is chosen exactly when the lower-cased text is its name. Any other text gives Sine. |
| Synth.OscillatorFromStrRoundTrip | engine/src/synth.rs:18-26 | A shape's name, in any mix of cases, parses back to that shape. |
| Synth.Waveform | engine/src/synth.rs:193-206 | For a phase in [0, 1), the saw, square and triangle samples lie in [-1, 1]. |
| Synth.WrapPhase | engine/src/synth.rs:211-215 | The wrapped phase is below 1. It is unchanged when already below 1. Otherwise it lies in [0, 1) and differs from the input by a whole number of cycles. |
| Synth.WrapPhaseLoop | engine/src/synth.rs:211-215 | The subtract-one loop computes `WrapPhase`. |
| Synth.VoiceNoteOn | engine/src/synth.rs:174-182 | The voice becomes active with the note, the velocity and phase 0. Its envelope is fresh (level 0), uses the given parameters, and is in Attack. |
| Synth.VoiceNoteOff | engine/src/synth.rs:184-186 | Only the envelope changes: it enters Release, and the voice stays active. |
| Synth.VoiceProcess | engine/src/synth.rs:188-226 | An inactive voice outputs 0 and is unchanged. An active voice stays active exactly while its envelope is active. Note, velocity and frequency are kept. |
| Synth.ProcessVoice | engine/src/synth.rs:188-226 | The voice's processing method computes `VoiceProcess`. |
| Synth.FirstPlaying | engine/src/synth.rs:289-298 | Finds the first active voice on the note, with no earlier match, or reports that there is none. |
| Synth.ReleaseFirst | engine/src/synth.rs:289-298 | As written: only the first active voice on the note is released, and every other voice is unchanged. No voice stops being active. |
| Synth.FirstHeld | engine/src/synth.rs:289-298 | Finds the first voice still holding the note (active and not releasing), with no earlier match. |
| Synth.ReleaseFirstHeld | engine/src/synth.rs:289-298 | Corrected note-off: the first voice still holding the note is released, and no other voice changes. |
| Synth.PressReleaseLeavesNoneHeld | engine/src/synth.rs:275-298 | With the corrected note-off, pressing and releasing a note that no voice held leaves no voice holding it. |
| Synth.StuckNoteAsWritten | engine/src/synth.rs:289-298 | As written, after press, release and press of note 60, the next note-off re-releases the old voice and the new voice keeps holding. |
| Synth.StepAll | engine/src/synth.rs:312-322 | `process_sample` advances every voice by `VoiceProcess`. |
| Synth.MixOfSilentVoices | engine/src/synth.rs:312-322 | Silent voices add nothing to the mix. |
| Synth.StepAllNeverActivates | engine/src/synth.rs:219-222 | Processing never raises the active count. |
| Synth.SilentStaysSilent | engine/src/synth.rs:188-191 | Voices that are all silent stay unchanged over any number of samples. |
| Synth.SilentBuffer | engine/src/synth.rs:325-337 | With no voice sounding, every sample of a buffer is 0. |
| Synth.FillFrame | engine/src/synth.rs:330-335 | The frame at `start` becomes `channels` copies of the sample. The samples before and after it are unchanged. |
| Synth.RunSamplesAt | engine/src/synth.rs:325-335 | Sample k of the run is the output of `process_sample` after k earlier calls. |
| Synth.FramesLength | engine/src/synth.rs:325-335 | Interleaving n samples over c channels gives n times c values. |
| Synth.FramesSnoc | engine/src/synth.rs:327-335 | Rendering one more sample appends one frame of c copies of it. |
| Synth.FramesAt | engine/src/synth.rs:330-333 | Position `i * channels + ch` holds sample i: buffer position p holds sample p / channels. |
| Synth.WriteFrame | engine/src/synth.rs:330-333 | Writing a frame after the written prefix extends the prefix by that frame. The unwritten rest loses one frame. |
| Synth.Synthesizer.constructor | engine/src/synth.rs:238-246 | 16 silent default voices, the saw shape, the default envelope, and master volume 0.3. |
| Synth.Synthesizer.SetOscillatorType | engine/src/synth.rs:248-251 | Stores the shape and changes nothing else. |
| Synth.Synthesizer.SetEnvelope | engine/src/synth.rs:253-256 | Stores the parameters. Voices are untouched until their next note-on. |
| Synth.Synthesizer.SetMasterVolume | engine/src/synth.rs:258-260 | The volume is clamped to [0, 1]. |
| Synth.Synthesizer.FindFreeVoice | engine/src/synth.rs:301-309 | Returns `FreeSlot` of the active flags. |
| Synth.Synthesizer.NoteOn | engine/src/synth.rs:275-287 | Only the free (or stolen) slot changes. It gets the note, the velocity over 127, and the current envelope parameters. |
| Synth.Synthesizer.NoteOff | engine/src/synth.rs:289-298 | The voices become `ReleaseFirst` of the old voices. |
| Synth.Synthesizer.ProcessEvent | engine/src/synth.rs:263-273 | A note-on event acts as `NoteOn` and a note-off event as `NoteOff`. |
| Synth.Synthesizer.ProcessSample | engine/src/synth.rs:312-322 | The voices become `StepAll` of the old voices. The output is the mix of the active voices times the master volume. |
| Synth.Synthesizer.ProcessBuffer | engine/src/synth.rs:325-335 | The whole frames hold the interleaved run of `output.Length / channels` samples: position p holds sample p / channels, by `FramesAt`. An incomplete last frame is untouched. The voices end `StepN` steps ahead, one step per frame. |
| Synth.Synthesizer.RenderFrames | engine/src/synth.rs:327-334 | The frame loop: after `frames` frames, the buffer is their interleaved run followed by the untouched rest, and the voices are `frames` steps ahead. |
| Synth.Synthesizer.RenderFrame | engine/src/synth.rs:328-333 | One iteration keeps the loop's invariant from i frames to i + 1. The voices advance one step. The new frame holds sample i on every channel, and the rest of the buffer keeps its old values. |
| Synth.Synthesizer.ActiveVoiceCount | engine/src/synth.rs:339-341 | The count of active voices, at most 16. |
| Synth.NoteOnCount | engine/src/synth.rs:275-309 | A note-on raises the active count by exactly 1 while fewer than 16 sound. Otherwise the count stays at 16. |
| TrackSynth.FilterFromStr | engine/src/synth.rs:429-436 | Case-insensitive match of the filter name. Any other text gives LowPass. |
| TrackSynth.FilterFromStrRoundTrip | engine/src/synth.rs:429-436 | A filter name, in any mix of cases, parses back to that type. |
| TrackSynth.NewFilter | engine/src/synth.rs:462-480 | Low-pass, cutoff 0.8, resonance 0.2, empty history, and coefficients designed for those settings. |
| TrackSynth.SetFilterType | engine/src/synth.rs:482-485 | Sets the type and redesigns the coefficients. Nothing else changes. |
| TrackSynth.SetCutoff | engine/src/synth.rs:487-490 | Clamps the cutoff to [0, 1] and redesigns. Nothing else changes. |
| TrackSynth.SetResonance | engine/src/synth.rs:492-495 | Clamps the resonance to [0, 1] and redesigns. Nothing else changes. |
| TrackSynth.FilterProcess | engine/src/synth.rs:556-567 | The input and output histories shift by one sample. |
| TrackSynth.FilterSilenceInSilenceOut | engine/src/synth.rs:556-567 | A filter at rest gives 0 for input 0 and stays at rest. |
| TrackSynth.Advance | engine/src/synth.rs:613-616 | One wrap keeps a phase in [0, 1) when the increment is below 1. |
| TrackSynth.OscProcess | engine/src/synth.rs:609-630 | Both phases advance by the detuned frequency over the rate. Nothing else changes. |
| TrackSynth.OscOutputBounded | engine/src/synth.rs:609-639 | With non-sine shapes, the output is bounded by the sum of the two levels. |
| TrackSynth.NewTrackVoice | engine/src/synth.rs:652-660 | A new voice is inactive, with an idle envelope. |
| TrackSynth.TrackVoiceNoteOn | engine/src/synth.rs:662-669 | Active, with the note, the note's frequency, phases 0 and the envelope in Attack with its stored level kept. Velocity is ignored and the filter is kept. |
| TrackSynth.TrackVoiceNoteOff | engine/src/synth.rs:671-673 | Only the envelope changes: it enters Release. |
| TrackSynth.TrackVoiceProcess | engine/src/synth.rs:675-688 | A voice with an idle envelope is marked inactive and outputs 0. Settings and the note are kept. |
| TrackSynth.ApplyParameter | engine/src/synth.rs:728-830 | An unknown key or an unparsable number changes nothing. Stored values stay in their ranges. |
| TrackSynth.SetParameterStores | engine/src/synth.rs:736-830 | Each numeric key stores its value clamped as the source does: levels and sustain to [0, 1], detunes to [-50, 50], and attack, decay and release at least 0.001. Cutoff and resonance are stored as given. |
| TrackSynth.SetTypeParameter | engine/src/synth.rs:730-777 | The three type keys accept any text through the case-insensitive parsers. |
| TrackSynth.RetuneKeepsCoherent | engine/src/synth.rs:728-830 | An accepted value reaches the voice, so each voice stays in agreement with the shared parameters. |
| TrackSynth.RetuneVoices | engine/src/synth.rs:728-830 | The per-voice loop of `set_parameter`: each voice is retuned by the key. |
| TrackSynth.CopiedVoiceAsWritten | engine/src/synth.rs:962-964 | As written: the copied voice's filter gets the type, cutoff and resonance raw, and keeps the coefficients designed for the defaults. |
| TrackSynth.CopiedVoice | engine/src/synth.rs:937-968 | Corrected copy: a fresh voice in agreement with the copied parameters. |
| TrackSynth.CopyAsWrittenUnclampedCutoff | engine/src/synth.rs:779-786 | After setting `filter_cutoff` to "2.0", the as-written copy gives the voice filter a cutoff of 2.0. The setter path would clamp it to 1.0. |
| TrackSynth.CopyAsWrittenStaleCoefficients | engine/src/synth.rs:962-964 | A copied high-pass synthesizer keeps low-pass coefficients as written. The corrected copy is designed for high-pass. |
| TrackSynth.TrackStepAll | engine/src/synth.rs:862-873 | `process_sample` advances each voice by one step. |
| TrackSynth.TrackMixOfSilentVoices | engine/src/synth.rs:862-873 | With no voice sounding, the synthesizer is silent. |
| TrackSynth.StepAllKeepsCoherent | engine/src/synth.rs:862-873 | Processing a sample keeps every voice in agreement with the shared parameters. |
| TrackSynth.StepVoices | engine/src/synth.rs:862-871 | The voice loop of `process_sample`: the voices become `TrackStepAll` of the old voices, and the returned sum is the mix of the active ones. |
| TrackSynth.ReleaseAll | engine/src/synth.rs:852-860 | Every active voice on the note is released. All other voices are unchanged, and no voice stops being active. |
| TrackSynth.TrackSynthesizer.constructor | engine/src/synth.rs:708-726 | 16 default voices and the default shared parameters. |
| TrackSynth.TrackSynthesizer.Copy | engine/src/synth.rs:937-968 | Corrected copy: carries the given parameters, and every voice is `CopiedVoice`. |
| TrackSynth.TrackSynthesizer.SetParameter | engine/src/synth.rs:728-830 | The shared parameters become `ApplyParameter`, and every voice is retuned by the accepted key. |
| TrackSynth.TrackSynthesizer.FindFreeVoice | engine/src/synth.rs:833-844 | The lowest silent voice, or voice 0. |
| TrackSynth.TrackSynthesizer.NoteOn | engine/src/synth.rs:846-850 | Only the free (or stolen) voice changes, by `TrackVoiceNoteOn`. |
| TrackSynth.TrackSynthesizer.NoteOff | engine/src/synth.rs:852-860 | The voices become `ReleaseAll` of the old voices. |
| TrackSynth.TrackSynthesizer.ProcessSample | engine/src/synth.rs:862-873 | The voices become `TrackStepAll` of the old voices. The output is half the sum of the active voices. |
| TrackSynth.TrackSynthesizer.IsActive | engine/src/synth.rs:875-877 | True exactly when the active count is positive. |
| TrackSynth.TrackSynthesizer.ActiveVoiceCount | engine/src/synth.rs:879-881 | At most 16, and 0 exactly when the synthesizer is not active. |
| TrackSynth.TrackNoteOnCount | engine/src/synth.rs:833-850 | A note-on raises the active count by exactly 1 while a voice is free. Otherwise the count stays at 16. |
| TrackSynth.TrackSynthManager.constructor | engine/src/synth.rs:891-896 | No synthesizers. |
| TrackSynth.TrackSynthManager.CreateSynth | engine/src/synth.rs:898-903 | Returns the track id. The track gets a new default synthesizer: default parameters and 16 silent `NewTrackVoice` voices. Other tracks keep theirs. |
| TrackSynth.TrackSynthManager.SetParameter | engine/src/synth.rs:905-909 | Forwarded to the track's synthesizer: its parameters become `ApplyParameter`, and each of its voices is retuned by the key when the value is accepted and unchanged otherwise. Other tracks are unchanged. A no-op for a track without one. |
| TrackSynth.TrackSynthManager.NoteOn | engine/src/synth.rs:911-915 | Forwarded to the track's synthesizer: its `FreeSlot` voice becomes `TrackVoiceNoteOn` and no other voice changes, so the active count rises by 1 up to 16. Parameters are kept. A no-op for a track without one. Other tracks are unchanged. |
| TrackSynth.TrackSynthManager.NoteOff | engine/src/synth.rs:917-921 | The track's voices become `ReleaseAll`. Other tracks are unchanged. |
| TrackSynth.TrackSynthManager.ProcessSample | engine/src/synth.rs:923-929 | Forwarded to the track's synthesizer: its voices become `TrackStepAll` and the output is half their mix. Returns 0.0 for a track without a synthesizer. Parameters are kept, and other tracks are unchanged. |
| TrackSynth.TrackSynthManager.CopySynth | engine/src/synth.rs:937-974 | Corrected `copy_synth`: returns true exactly when the source exists. The destination then gets a new synthesizer with the source's parameters, and every voice is `CopiedVoice`: clamped filter settings with coefficients designed for them, where the code as written leaves them raw (see Findings). Nothing else changes. |
| Timing.SamplesPerBeat | engine/src/recorder.rs:234 | Within the tempo clamp range a beat lasts 9600 to 144000 samples, so it is never 0. |
| Timing.BeatLengthBounds | engine/src/recorder.rs:234 | The truncating cast stays below the exact beat length and within [9600, 144000] for tempos in [20, 300]. |
| Timing.SamplesPerBeatAt120 | engine/src/recorder.rs:234 | At 120 BPM a beat is 24000 samples. |
| Recorder.SamplesPerBar | engine/src/recorder.rs:234-235 | A bar is a positive number of samples. |
| Recorder.PositionInBar | engine/src/recorder.rs:241 | The position lies inside the bar. |
| Recorder.BeatInBar | engine/src/recorder.rs:242 | The beat index is below the time signature. |
| Recorder.PositionInBeat | engine/src/recorder.rs:243 | The position lies inside the beat. |
| Recorder.Metronome | engine/src/recorder.rs:238-258 | 0 when the metronome is off or at least 4000 samples into the beat. Otherwise a click at 1200 Hz on beat 0 and 800 Hz on other beats. |
| Recorder.Frame | engine/src/recorder.rs:199-298 | Left equals right and both equal the metronome at the counter. The settings are kept. |
| Recorder.FrameCounter | engine/src/recorder.rs:213-227 | The counter moves by exactly one when playing or not Idle, and the state is unchanged otherwise. The count-in transition resets it. |
| Recorder.FrameCapture | engine/src/recorder.rs:276-288 | A recording frame appends left then right, so the buffer grows by 2. No other state captures. |
| Recorder.MetronomePeriodic | engine/src/recorder.rs:238-258 | The metronome repeats every bar. |
| Recorder.DownbeatClick | engine/src/recorder.rs:252-256 | The first sample of every bar is the 1200 Hz downbeat click. |
| Recorder.Interleave | engine/src/recorder.rs:279-280 | Interleaving k frames gives 2k samples. |
| Recorder.RecordingRun | engine/src/recorder.rs:276-288 | While recording, every frame is captured in order and the counter advances by the frame count. |
| Recorder.CountingInRun | engine/src/recorder.rs:261-275 | During the count-in nothing is captured, and the counter advances by the frame count. |
| Recorder.CountInEnds | engine/src/recorder.rs:261-275 | The count-in lasts exactly bars times bar length frames. On the next frame the recorder is Recording at counter 0. |
| Recorder.CapturedDuration | engine/src/recorder.rs:172-176 | Capturing k frames records k / 48000 seconds. |
| Recorder.RecordedClip | engine/src/recorder.rs:104-125 | The clip is stereo at 48 kHz with the captured samples, duration (len/2)/48000 and the name `recorded_<secs>.wav`. |
| Recorder.Recorder.constructor | engine/src/recorder.rs:35-46 | Idle, empty, counter 0, a 2-bar count-in, 120 BPM, the metronome on, and 4/4 time. |
| Recorder.Recorder.StartRecording | engine/src/recorder.rs:61-89 | Fails unless Idle and then changes nothing. On success: empty buffer, counter 0, and CountingIn if there are count-in bars, otherwise Recording. |
| Recorder.Recorder.StopRecording | engine/src/recorder.rs:92-129 | From Idle: no clip and no change. Otherwise Idle, with no clip for an empty buffer and `RecordedClip` for a non-empty one. |
| Recorder.Recorder.SetCountInBars | engine/src/recorder.rs:137-139 | Stores the bars and changes nothing else. |
| Recorder.Recorder.SetTempo | engine/src/recorder.rs:147-149 | Stores the tempo clamped to [20, 300]. |
| Recorder.Recorder.SetMetronomeEnabled | engine/src/recorder.rs:157-159 | Stores the flag and changes nothing else. |
| Recorder.Recorder.RecordedDuration | engine/src/recorder.rs:172-176 | (len/2)/48000 seconds. |
| Recorder.Recorder.ResetMetronome | engine/src/recorder.rs:179-182 | Only the counter changes, to 0. |
| Recorder.Recorder.MetronomeSample | engine/src/recorder.rs:238-258 | Computes `Metronome` with integer bar and beat arithmetic. |
| Recorder.Recorder.ProcessFrame | engine/src/recorder.rs:199-298 | The new state is `Frame` of the old one. Both outputs are the metronome sample at the old counter. |
| Recorder.DefaultCountInLength | engine/src/recorder.rs:35-46 | The default 2-bar count-in at 120 BPM in 4/4 lasts 192000 samples. |
| AudioGraph.IndexOfId | engine/src/audio_graph.rs:98 | Finds the first clip with the id, or reports absence exactly when the id is absent. |
| AudioGraph.RemoveAtKeepsIncreasing | engine/src/audio_graph.rs:96-104 | Removing a clip keeps ids strictly increasing. |
| AudioGraph.RemoveExactly | engine/src/audio_graph.rs:96-104 | Removing by id takes away exactly that id. |
| AudioGraph.RemoveAtDropsId | engine/src/audio_graph.rs:96-104 | With distinct ids, the removed clip's id is gone after the removal and no id appears that was not there. |
| AudioGraph.RemoveAtKeepsOthers | engine/src/audio_graph.rs:96-104 | Every other clip's id survives the removal. |
| AudioGraph.SeekThenRead | engine/src/audio_graph.rs:107-116 | Seeking then reading the position gives the time rounded down to the sample, within 1/48000 s. A negative time reads as 0. |
| AudioGraph.SeekFiveAndAHalf | engine/src/audio_graph.rs:113-116 | A seek to 5.5 s stores sample 264000 and reads back 5.5. |
| AudioGraph.Contribution | engine/src/audio_graph.rs:282-310 | A clip outside its window adds silence. Inside it adds channel 0 to the left, channel 1 to the right for stereo clips, and the left sample to both for mono clips. |
| AudioGraph.MixOfMonoClips | engine/src/audio_graph.rs:300-309 | With only mono clips, both mix channels are equal. |
| AudioGraph.MixOfInactiveClips | engine/src/audio_graph.rs:282-289 | With no clip active at t, the mix is silent. |
| AudioGraph.FreshClipWindow | engine/src/audio_graph.rs:282-292 | A newly added clip sounds from its start, at frame 0, and stops at start plus its natural length. |
| AudioGraph.MixFrame | engine/src/audio_graph.rs:278-311 | The clip loop computes `MixAt`. |
| AudioGraph.InputFrames | engine/src/audio_graph.rs:314-335 | Frame i of the input is the device's frame i, or silence when the device has none. |
| AudioGraph.OutputFrame | engine/src/audio_graph.rs:204-253 | While playing, both channels lie in [-1, 1]. While not playing, both channels are the metronome only. |
| AudioGraph.MonoPlaybackIsCentred | engine/src/audio_graph.rs:300-352 | Playing mono clips only, the two output channels are equal. |
| AudioGraph.SilentPlayback | engine/src/audio_graph.rs:341-352 | With the metronome off and no clip under the playhead, playback is silence. |
| AudioGraph.RunKeepsSettings | engine/src/recorder.rs:199-298 | The callback never changes the recorder's settings. |
| AudioGraph.AudioGraph.constructor | engine/src/audio_graph.rs:58-72 | No clips, next id 0, playhead 0, Stopped, no stream, and a new recorder. |
| AudioGraph.AudioGraph.AddClip | engine/src/audio_graph.rs:75-93 | The id is the counter's value, which no clip holds. The counter rises by 1, and the clip is appended with offset 0 and no set length. |
| AudioGraph.AudioGraph.RemoveClip | engine/src/audio_graph.rs:96-104 | Returns true exactly when the id is present, and then removes the first clip with it. Otherwise nothing changes. |
| AudioGraph.AudioGraph.Seek | engine/src/audio_graph.rs:113-116 | The playhead becomes the saturating cast of seconds times 48000. |
| AudioGraph.AudioGraph.Play | engine/src/audio_graph.rs:124-146 | Already Playing: Ok with no change. Otherwise Playing, and the result is Ok exactly when the device works. A stream is kept once created. |
| AudioGraph.AudioGraph.Pause | engine/src/audio_graph.rs:149-160 | Paused, with the playhead kept. Fails only when an existing stream fails to pause. |
| AudioGraph.AudioGraph.Stop | engine/src/audio_graph.rs:163-177 | Stopped. Playhead 0 on success. On a device error the playhead is kept. |
| AudioGraph.AudioGraph.RenderFrame | engine/src/audio_graph.rs:274-352 | One frame: the recorder advances by one input frame and the output is `OutputFrame`. |
| AudioGraph.AudioGraph.RenderFrames | engine/src/audio_graph.rs:274-352 | The frame loop: frame i is `OutputFrame` i, computed from the recorder state before the buffer. The recorder runs over the buffer's input frames. An odd trailing sample is untouched. |
| AudioGraph.AudioGraph.RenderBuffer | engine/src/audio_graph.rs:196-355 | Frame i of the buffer is `OutputFrame` i. The recorder runs over the buffer's input frames. The playhead advances by the frame count only while Playing. An odd trailing sample is untouched. |
| MidiRecorder.RelativeTimestamp | engine/src/midi_recorder.rs:93-98 | ts - start when ts >= start, and 0 otherwise. |
| MidiRecorder.RelativeTimestampOrder | engine/src/midi_recorder.rs:93-98 | Relative timestamps keep the order of the absolute ones, and start + a maps back to a. |
| MidiRecorder.Relative | engine/src/midi_recorder.rs:93-101 | Only the timestamp changes. |
| MidiRecorder.QuantizeGrid | engine/src/midi_recorder.rs:144-151 | As written: a sixteenth note, between 2400 and 36000 samples in the tempo range. |
| MidiRecorder.QuantizeGridAt120 | engine/src/midi_recorder.rs:144-151 | At 120 BPM the grid is 6000 samples. |
| MidiRecorder.IntendedGrid | engine/src/midi_recorder.rs:133-142 | Corrected grid: 0 for division 0. Otherwise a whole note (4 beats) divided by the division, rounded down. |
| MidiRecorder.IntendedGridProperties | engine/src/midi_recorder.rs:133-151 | A finer division never gives a coarser grid. Division 16 gives the as-written grid. |
| MidiRecorder.IntendedSetQuantize | engine/src/midi_recorder.rs:133-142 | Corrected `set_quantize`: the division is stored, and the grid is 0 for 0 and otherwise a whole note over the division, rounded down. |
| MidiRecorder.IntendedSetTempo | engine/src/midi_recorder.rs:122-125 | Corrected `set_tempo`: the tempo is clamped to [20, 300] as written, and the stored division is kept. |
| MidiRecorder.QuantizeOffSurvivesTempo | engine/src/midi_recorder.rs:122-142 | With the corrected settings, after `set_quantize(0)` the grid stays 0 through any sequence of `set_tempo` calls. |
| MidiRecorder.SixteenthsAgree | engine/src/midi_recorder.rs:122-151 | With sixteenth notes selected, the corrected grid after a tempo change is the grid the code as written computes. |
| MidiRecorder.MidiRecorder.constructor | engine/src/midi_recorder.rs:33-42 | Idle, no events, start 0, 120 BPM, and no grid. |
| MidiRecorder.MidiRecorder.StartRecording | engine/src/midi_recorder.rs:45-58 | Fails with "Already recording" unless Idle. Otherwise Recording, with no events and the playhead as start. |
| MidiRecorder.MidiRecorder.StopRecording | engine/src/midi_recorder.rs:61-85 | Fails with "Not recording" unless Recording. Otherwise Idle, with no clip when no events came, else the 48 kHz clip, quantised exactly when the grid is positive. |
| MidiRecorder.MidiRecorder.RecordEvent | engine/src/midi_recorder.rs:88-109 | Ignored unless Recording. Otherwise the event is appended with its relative timestamp. |
| MidiRecorder.MidiRecorder.UpdateQuantizeGrid | engine/src/midi_recorder.rs:144-151 | The grid becomes `QuantizeGrid` of the tempo. |
| MidiRecorder.MidiRecorder.SetTempo | engine/src/midi_recorder.rs:122-125 | The tempo is clamped to [20, 300] and the grid recomputed. |
| MidiRecorder.MidiRecorder.SetQuantize | engine/src/midi_recorder.rs:133-142 | Division 0 clears the grid. Any other division sets the sixteenth-note grid. |
| MidiRecorder.QuantizeIgnoresDivision | engine/src/midi_recorder.rs:133-142 | As written, quarter notes at 120 BPM give a 6000-sample grid, where the intended grid is 24000. |
| MidiRecorder.TempoReenablesQuantize | engine/src/midi_recorder.rs:122-142 | As written, setting the tempo after switching quantisation off turns it back on (6000). The corrected settings keep the grid at 0. |
| MidiInput.MessageType | engine/src/midi_input.rs:184 | The high nibble: a multiple of 16 within 16 below the status byte. |
| MidiInput.Channel | engine/src/midi_input.rs:183 | The low nibble: below 16, and the type plus the channel is the status byte. |
| MidiInput.ParseMidiMessage | engine/src/midi_input.rs:177-216 | An empty message gives None. An event comes exactly for a note-on or note-off type with at least 3 bytes, with the timestamp passed through. Note-on with velocity 0 is a note-off. |
| MidiInput.ParseEncode | engine/src/midi_input.rs:186-205 | A note message encoded on any channel parses back to the normalised event. |
| MidiInput.ChannelIgnored | engine/src/midi_input.rs:182-215 | Neither the channel nor the bytes after the third change the result. |
| MidiInput.GetDevices | engine/src/midi_input.rs:77-87 | One device per port name, in order. |
| MidiInput.DeviceIds | engine/src/midi_input.rs:77-87 | Ids are distinct and "midi_" plus the index, which parses back. Only device 0 is the default. |
| MidiInput.MidiInputManager.constructor | engine/src/midi_input.rs:36-48 | The scanned port names, no selection, not connected, and the driver handle held. |
| MidiInput.MidiInputManager.SelectDevice | engine/src/midi_input.rs:90-99 | An index past the ports fails and the selection is kept. Otherwise the index is selected. |
| MidiInput.MidiInputManager.StartCapture | engine/src/midi_input.rs:110-157 | Already connected: Ok. No port at the selection (or 0): "No MIDI device selected". Handle gone: "MIDI input not initialized". Otherwise the handle is consumed, and the result is Ok exactly when connecting succeeds. |
| MidiInput.MidiInputManager.IsCapturing | engine/src/midi_input.rs:171-173 | True when a connection is open. While capturing, the driver handle belongs to the connection, not the manager. |
| MidiInput.MidiInputManager.StopCapture | engine/src/midi_input.rs:160-168 | Never fails and ends disconnected. Closing a live connection gives the handle back. |
| MidiInput.FailedConnectThenRetry | engine/src/midi_input.rs:122-168 | After a failed connect and a stop, the next start fails with "not initialized". |
| Effects.ParseEffectType | engine/src/api/effects.rs:22-30 | Case-insensitive match of the six built-in names. Anything else is None. |
| Effects.EffectNameRoundTrip | engine/src/api/effects.rs:22-30 | Every built-in name parses back to its type, and case never matters. |
| Effects.Vst3Index | engine/src/api/effects.rs:267-268 | An index comes only from a "param_" name whose rest is a u32. |
| Effects.CheckParameter | engine/src/api/effects.rs:154-280 | A built-in effect accepts exactly its listed names. VST3 accepts exactly "param_" plus a u32. Each error has the source's text. |
| Effects.Vst3ParamNames | engine/src/api/effects.rs:265-279 | Every "param_N" with a 32-bit N is accepted as index N. A name without the prefix is refused. |
| Effects.SetParam | engine/src/api/effects.rs:155-262 | The value is stored. Coefficients are re-derived exactly for every EQ parameter, compressor attack and release, and limiter release, so an EQ stays coherent. |
| Effects.SplitJoin | engine/src/api/effects.rs:87-88 | Splitting a joined listing on "," gives the printed ids. |
| Effects.ParseJoin | engine/src/api/effects.rs:87-88 | The comma-joined listing reads back as the chain. |
| Effects.IndexOf | engine/src/api/effects.rs:59 | Finds the first occurrence of the id. |
| Effects.RemoveFirstOccurrence | engine/src/api/effects.rs:59-60 | Removing the first occurrence from a chain without duplicates removes the id, keeps the order of the rest, and keeps the chain free of duplicates. |
| Effects.EffectGraph.AddEffectToTrack | engine/src/api/effects.rs:13-47 | An unknown type errors before anything is created. Otherwise the effect is registered under the next id. The id is appended to the track's chain, or, for a missing track, an error is returned and the effect stays registered. |
| Effects.EffectGraph.RemoveEffectFromTrack | engine/src/api/effects.rs:50-77 | A missing track, or an effect not in its chain, errors and changes nothing. Otherwise the first occurrence is removed and the effect deregistered. |
| Effects.EffectGraph.GetTrackEffects | engine/src/api/effects.rs:80-92 | Missing track: "Track N not found". Otherwise a listing that reads back as the chain. |
| Effects.EffectGraph.SetEffectParameter | engine/src/api/effects.rs:144-289 | Missing effect or refused name: an error and no change. A refusing plug-in: the VST3 error. Otherwise the value is set by `SetParam`. |
| ExportProgress.Apply | engine/src/export/progress.rs:38-119 | Progress stays at most 100. Update stores the progress capped at 100. Cancel sets only the flag. Only start and reset change the flag otherwise. |
| ExportProgress.ProgressBounded | engine/src/export/progress.rs:51-52 | After any calls, progress is at most 100. |
| ExportProgress.CancelledIff | engine/src/export/progress.rs:38-41 | The flag is set exactly when a cancel came after the last start or reset, or when it was already set and neither came since. |
| ExportProgress.CancelPersists | engine/src/export/progress.rs:79-86 | Once cancelled, the flag stays set until a start or reset. |
| ExportProgress.ResetThenStart | engine/src/export/progress.rs:109-119 | Reset gives the initial record from anywhere. A start after it gives (0, running, not cancelled, status, no error). |
| ExportProgress.ExportProgressState.constructor | engine/src/export/progress.rs:27-35 | The initial record. |
| ExportProgress.ExportProgressState.Start | engine/src/export/progress.rs:38-48 | Progress 0, running, not cancelled, the status, and no error. |
| ExportProgress.ExportProgressState.Update | engine/src/export/progress.rs:51-56 | Progress min(p, 100) and the status. Flags and error are kept. |
| ExportProgress.ExportProgressState.Complete | engine/src/export/progress.rs:59-65 | 100, stopped, "Export complete", and the error kept. |
| ExportProgress.ExportProgressState.Fail | engine/src/export/progress.rs:68-76 | Stopped, "Export failed", the error set, and the progress kept. |
| ExportProgress.ExportProgressState.Cancel | engine/src/export/progress.rs:79-81 | Only the cancelled flag is set. |
| ExportProgress.ExportProgressState.Reset | engine/src/export/progress.rs:109-119 | The initial record. |
| ExportProgress.CheckCancelled | engine/src/export/progress.rs:165-172 | Returns Err("Export cancelled") exactly when cancelled, after failing the export with "Export cancelled by user". Otherwise no effect. |

## Left out

- Floating point:
  - samples are mathematical reals;
  - NaN, infinities and IEEE rounding are not modelled;
  - sine, `powf`, `exp`, the biquad coefficient formulas (synth.rs:497-554), `midi_note_to_frequency` and the metronome burst are uninterpreted parameters.
- Integer width: the u64 sample counters, the playhead (`fetch_add`), the clip and effect id counters and `usize` indices are unbounded naturals. Wrap-around after 2^64 is not modelled.
- Concurrency: locks, atomics and lock poisoning are plain fields. The `map_err(e.to_string())` and `unwrap` failure paths of poisoned locks are not modelled.
- Logging (`eprintln!`/`println!`) is left out.
- Device and driver I/O become parameters:
  - the cpal host, device and stream (audio_graph.rs:180-196, 357-363) are the `deviceOk` flag;
  - the midir connect (midi_input.rs:136-151) is `connectOk`;
  - the VST3 call (effects.rs:269-270) is `pluginAccepts`;
  - the input device is the `inputs` frames.
- `AudioGraph::new` creating the input manager is not modelled.
- `MidiInputManager::new` and `refresh_devices` (midi_input.rs:36-74) are left out: the constructor takes the scanned port names.
- `set_event_callback` and the per-message callback thread are left out.
- The audio callback's input reading (mono duplication, `read_samples`) is reduced to a per-frame input pair, with missing frames read as silence. The input manager is not part of this model.
- `get_audio_graph` errors and lock errors in api/effects.rs are left out.
- `get_effect_info` (effects.rs:95-141) is left out: it formats effect internals from engine/src/effects/, which is not part of this model.
- The success text of `set_effect_parameter` formats an `f32`. The model returns `Ok(())` instead.
- Effect DSP and default values (engine/src/effects/) are not part of this model. An effect is its kind, its parameter values and the values its coefficients came from. Effect ids are assumed to come from a counter.
- engine/src/audio_file.rs and engine/src/midi.rs are not part of this model:
  - `AudioClip`, `get_sample`, `MidiEvent` and `MidiClip` take the shape their users rely on;
  - `MidiClip::with_events` is assumed to keep the events;
  - `MidiClip::quantize` is a parameter;
  - `TARGET_SAMPLE_RATE` is 48000.
- Plain getters are read directly as fields: `get_state`, `get_tempo`, `get_count_in_bars`, `is_metronome_enabled`, `get_recorded_sample_count`, `is_recording`, `get_playhead_position` (as `PlayheadSeconds`), `clip_count`, `event_count`, `has_synth`, and the progress getters and `ExportProgressInfo::current`/`to_json`.
- Synth.NoteToFrequency: stated only through the uninterpreted `exp2`, so no numeric property of the frequency is claimed.
- TrackSynth.TrackVoiceNoteOn: the velocity argument is ignored, as in the source (synth.rs:662).
- TrackSynth.TrackSynthManager.CopySynth: states the corrected copy, in which every voice is `CopiedVoice`. The code as written (synth.rs:962-964) writes the filter type, cutoff and resonance into each voice without clamping and without redesigning the coefficients. That behaviour is `CopiedVoiceAsWritten`, and the Findings table records the difference.
- Synth.Synthesizer.ProcessBuffer: requires `channels > 0`. With 0 channels, `output.len() / channels` (synth.rs:326) panics on division by zero, and the model does not include that panic.
- Common.Lower folds ASCII letters only, where Rust's `to_lowercase` folds all of Unicode. For the names matched here (oscillator, filter and effect names) the results agree. The only non-ASCII character that lowercases to a single ASCII letter is the Kelvin sign (to 'k'), and no matched name contains 'k'.
- MidiInput.MidiInputManager.StartCapture: the connect error is the fixed text "Failed to connect MIDI input". The source appends the driver's error detail (`{:?}`, midi_input.rs:151).
- Effects.EffectGraph.SetEffectParameter: a refused VST3 value gives the fixed text "Failed to set VST3 parameter". The source appends the plug-in's error (`{}`, effects.rs:270).

## Findings

| source | as written | input that shows it | evidently intended | confidence | as-written member | corrected member |
|---|---|---|---|---|---|---|
| engine/src/synth.rs:962-964 | `copy_synth` writes the filter type, cutoff and resonance straight into each voice's filter, without the clamping setters and without `update_coefficients` | source synth set to high-pass (or `filter_cutoff` "2.0"), then `copy_synth` | the copy filters like the source, with clamped settings and coefficients designed for them | not executed | TrackSynth.CopyAsWrittenStaleCoefficients | TrackSynth.CopiedVoice |
| engine/src/midi_recorder.rs:133-142 | `set_quantize(n)` ignores `n` and always sets a sixteenth-note grid | `set_quantize(4)` at 120 BPM gives 6000 samples | a 1/n-note grid (24000 samples for quarter notes at 120 BPM) | not executed | MidiRecorder.QuantizeIgnoresDivision | MidiRecorder.IntendedGrid |
| engine/src/midi_recorder.rs:122-125 | `set_tempo` always recomputes the grid, so it turns quantisation back on after `set_quantize(0)` | `set_quantize(0)` then `set_tempo(120)` gives a 6000-sample grid | the grid stays 0 while quantisation is off | not executed | MidiRecorder.TempoReenablesQuantize | MidiRecorder.QuantizeOffSurvivesTempo |
| engine/src/synth.rs:289-298 | legacy `note_off` releases the first active voice on the note, even one already releasing | press, release and press note 60: the second note-off re-releases voice 0 and voice 1 keeps sounding | release the first voice still held on that note | not executed | Synth.StuckNoteAsWritten | Synth.ReleaseFirstHeld |
