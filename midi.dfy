/** The MIDI event record the engine passes between the input parser, the
    MIDI recorder and the synthesizers. Its definition lives in
    engine/src/midi.rs, which is not part of this model; the shape here is
    the one its users rely on: a note-on or note-off with a note number and
    a velocity (both bytes), and a timestamp in samples; and the clip
    `MidiClip::with_events` builds from a list of events and a rate. */
module Midi {

  newtype byte = x: int | 0 <= x < 256

  datatype MidiEventType = NoteOn(note: byte, velocity: byte) | NoteOff(note: byte, velocity: byte)

  datatype MidiEvent = MidiEvent(eventType: MidiEventType, timestampSamples: nat)

  datatype MidiClip = MidiClip(events: seq<MidiEvent>, sampleRate: nat)
}
