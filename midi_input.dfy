/** MIDI input of engine/src/midi_input.rs: the parser from raw MIDI bytes
    to note events, the device list, and the selection and capture
    guards of `MidiInputManager`. The MIDI driver is left out: the port
    names are given, and whether connecting to a port succeeds is a
    parameter. */
module MidiInput {
  import opened Common
  import opened Midi

  // ---------------------------------------------------------------------
  // Parsing

  /** The high nibble of a status byte (`status & 0xF0`). */
  function MessageType(status: byte): (t: byte)
    ensures t as int % 16 == 0 && t <= status && status as int < t as int + 16
  {
    status - status % 16
  }

  /** The low nibble (`status & 0x0F`), the MIDI channel. */
  function Channel(status: byte): (c: byte)
    ensures c < 16 && MessageType(status) + c == status
  {
    status % 16
  }

  const NOTE_OFF_STATUS: byte := 0x80
  const NOTE_ON_STATUS: byte := 0x90

  /** `parse_midi_message`: a note-on (9nH) or note-off (8nH) message of at
      least three bytes becomes an event carrying the timestamp; a
      note-on with velocity 0 is a note-off, as MIDI 1.0 prescribes.
      Anything else, including an empty or short message, is ignored. */
  function ParseMidiMessage(message: seq<byte>, timestamp: nat): (r: Option<MidiEvent>)
    ensures |message| == 0 ==> r == None
    ensures r.Some? <==>
      |message| >= 3 && MessageType(message[0]) in {NOTE_OFF_STATUS, NOTE_ON_STATUS}
    ensures r.Some? ==> r.value.timestampSamples == timestamp
    ensures r.Some? && MessageType(message[0]) == NOTE_ON_STATUS && message[2] > 0 ==>
      r.value.eventType == NoteOn(message[1], message[2])
    ensures r.Some? && (MessageType(message[0]) == NOTE_OFF_STATUS || message[2] == 0) ==>
      r.value.eventType == NoteOff(message[1], message[2])
  {
    if |message| == 0 then None
    else
      var messageType := MessageType(message[0]);
      if messageType == NOTE_ON_STATUS && |message| >= 3 then
        var note, velocity := message[1], message[2];
        if velocity == 0 then Some(MidiEvent(NoteOff(note, velocity), timestamp))
        else Some(MidiEvent(NoteOn(note, velocity), timestamp))
      else if messageType == NOTE_OFF_STATUS && |message| >= 3 then
        Some(MidiEvent(NoteOff(message[1], message[2]), timestamp))
      else None
  }

  /** The three bytes a sender puts on the wire for a note event on
      `channel`. */
  function Encode(e: MidiEventType, channel: byte): (m: seq<byte>)
    requires channel < 16
    ensures |m| == 3 && Channel(m[0]) == channel
  {
    match e
    case NoteOn(note, velocity) => [NOTE_ON_STATUS + channel, note, velocity]
    case NoteOff(note, velocity) => [NOTE_OFF_STATUS + channel, note, velocity]
  }

  /** The event a receiver must see: note-on at velocity 0 means note-off. */
  function Normalize(e: MidiEventType): MidiEventType
  {
    match e
    case NoteOn(note, velocity) => if velocity == 0 then NoteOff(note, 0) else e
    case NoteOff(_, _) => e
  }

  /** Parsing what was encoded, on any channel, gives back the event
      (normalised) and the timestamp. */
  lemma ParseEncode(e: MidiEventType, channel: byte, timestamp: nat)
    requires channel < 16
    ensures ParseMidiMessage(Encode(e, channel), timestamp) == Some(MidiEvent(Normalize(e), timestamp))
  {
    var m := Encode(e, channel);
    assert MessageType(m[0]) == if e.NoteOn? then NOTE_ON_STATUS else NOTE_OFF_STATUS;
  }

  /** Only the high nibble and the data bytes matter: the channel never
      changes the result, nor do bytes after the third. */
  lemma ChannelIgnored(a: seq<byte>, b: seq<byte>, timestamp: nat)
    requires |a| >= 3 && |b| >= 3
    requires MessageType(a[0]) == MessageType(b[0]) && a[1..3] == b[1..3]
    ensures ParseMidiMessage(a, timestamp) == ParseMidiMessage(b, timestamp)
  {
    assert a[1] == a[1..3][0] && a[2] == a[1..3][1];
    assert b[1] == b[1..3][0] && b[2] == b[1..3][1];
  }

  // ---------------------------------------------------------------------
  // Devices

  datatype MidiDevice = MidiDevice(id: string, name: string, isDefault: bool)

  const DEVICE_ID_PREFIX: string := "midi_"

  /** `get_devices`: one entry per port, in port order. */
  function GetDevices(portNames: seq<string>): (r: seq<MidiDevice>)
    ensures |r| == |portNames|
    ensures forall i :: 0 <= i < |r| ==> r[i].name == portNames[i]
  {
    seq(|portNames|, i requires 0 <= i < |portNames| =>
      MidiDevice(DEVICE_ID_PREFIX + NatToString(i), portNames[i], i == 0))
  }

  /** Device ids are distinct, the port index can be read back from the
      id, and only the first device is the default. */
  lemma DeviceIds(portNames: seq<string>, i: nat, j: nat)
    requires i < |portNames| && j < |portNames|
    ensures var d := GetDevices(portNames);
      (d[i].id == d[j].id <==> i == j) && (d[i].isDefault <==> i == 0)
    ensures |portNames| <= U32_MAX ==>
      var id := GetDevices(portNames)[i].id;
      id[..|DEVICE_ID_PREFIX|] == DEVICE_ID_PREFIX && ParseU32(id[|DEVICE_ID_PREFIX|..]) == Some(i)
  {
    var d := GetDevices(portNames);
    if d[i].id == d[j].id {
      assert NatToString(i) == d[i].id[|DEVICE_ID_PREFIX|..];
      assert NatToString(j) == d[j].id[|DEVICE_ID_PREFIX|..];
      NatToStringInjective(i, j);
    }
    if |portNames| <= U32_MAX {
      assert d[i].id[|DEVICE_ID_PREFIX|..] == NatToString(i);
      ParseU32OfNatToString(i);
    }
  }

  // ---------------------------------------------------------------------
  // The manager

  const NO_DEVICE_SELECTED: string := "No MIDI device selected"
  const NOT_INITIALIZED: string := "MIDI input not initialized"
  const CONNECT_FAILED: string := "Failed to connect MIDI input"

  function InvalidIndex(index: nat): string
  {
    "Invalid MIDI device index: " + NatToString(index)
  }

  /** The port a capture would open: the selection, or port 0. */
  function CapturePort(selected: Option<nat>): nat
  {
    match selected
    case Some(i) => i
    case None => 0
  }

  class MidiInputManager {
    var portNames: seq<string>
    var selectedPortIndex: Option<nat>
    /** An open connection exists (`connection.is_some()`). */
    var connected: bool
    /** The driver handle is held (`midi_input.is_some()`): connecting
        consumes it and closing the connection gives it back. */
    var hasMidiInput: bool

    ghost predicate Valid()
      reads this
    {
      !(connected && hasMidiInput)
    }

    /** `new` after a successful device scan. */
    constructor (portNames: seq<string>)
      ensures Valid()
      ensures this.portNames == portNames && selectedPortIndex == None && !connected && hasMidiInput
    {
      this.portNames := portNames;
      selectedPortIndex := None;
      connected := false;
      hasMidiInput := true;
    }

    /** `select_device`: an index past the port list is refused and the
        selection is kept. */
    method SelectDevice(index: nat) returns (r: Result<(), string>)
      requires Valid()
      modifies this
      ensures Valid()
      ensures index >= |portNames| ==> r == Err(InvalidIndex(index)) && selectedPortIndex == old(selectedPortIndex)
      ensures index < |portNames| ==> r == Ok(()) && selectedPortIndex == Some(index)
      ensures portNames == old(portNames) && connected == old(connected) && hasMidiInput == old(hasMidiInput)
    {
      if index >= |portNames| {
        return Err(InvalidIndex(index));
      }
      selectedPortIndex := Some(index);
      r := Ok(());
    }

    /** `start_capture`: nothing to do while connected; otherwise the
        selected port (or port 0) must exist and the driver handle must be
        held. Connecting consumes the handle even when it fails. */
    method StartCapture(connectOk: bool) returns (r: Result<(), string>)
      requires Valid()
      modifies this
      ensures Valid()
      ensures old(connected) ==> r == Ok(()) && connected && hasMidiInput == old(hasMidiInput)
      ensures !old(connected) && CapturePort(selectedPortIndex) >= |portNames| ==>
        r == Err(NO_DEVICE_SELECTED) && !connected && hasMidiInput == old(hasMidiInput)
      ensures !old(connected) && CapturePort(selectedPortIndex) < |portNames| && !old(hasMidiInput) ==>
        r == Err(NOT_INITIALIZED) && !connected && !hasMidiInput
      ensures !old(connected) && CapturePort(selectedPortIndex) < |portNames| && old(hasMidiInput) ==>
        !hasMidiInput && (r.Ok? <==> connectOk) && (connected <==> connectOk) &&
        (r.Err? ==> r.error == CONNECT_FAILED)
      ensures portNames == old(portNames) && selectedPortIndex == old(selectedPortIndex)
    {
      if connected {
        return Ok(());
      }
      var portIndex := CapturePort(selectedPortIndex);
      if portIndex >= |portNames| {
        return Err(NO_DEVICE_SELECTED);
      }
      if !hasMidiInput {
        return Err(NOT_INITIALIZED);
      }
      hasMidiInput := false;
      if !connectOk {
        return Err(CONNECT_FAILED);
      }
      connected := true;
      r := Ok(());
    }

    /** `stop_capture`: closes an open connection, taking the driver
        handle back; never fails. */
    method StopCapture() returns (r: Result<(), string>)
      requires Valid()
      modifies this
      ensures Valid()
      ensures r == Ok(()) && !connected
      ensures hasMidiInput == (old(hasMidiInput) || old(connected))
      ensures portNames == old(portNames) && selectedPortIndex == old(selectedPortIndex)
    {
      if connected {
        connected := false;
        hasMidiInput := true;
      }
      r := Ok(());
    }

    /** `is_capturing`: a connection is open, and then the driver handle
        is the connection's, not the manager's. */
    function IsCapturing(): (b: bool)
      requires Valid()
      reads this
      ensures b ==> !hasMidiInput
    {
      connected
    }
  }

  /** A failed connect loses the driver handle, which only closing a live
      connection gives back: stopping does not help, and every later start
      fails with "not initialized" until the devices are scanned again. */
  method FailedConnectThenRetry(names: seq<string>) returns (first: Result<(), string>, second: Result<(), string>)
    requires |names| > 0
    ensures first == Err(CONNECT_FAILED) && second == Err(NOT_INITIALIZED)
  {
    var m := new MidiInputManager(names);
    first := m.StartCapture(false);
    var stopped := m.StopCapture();
    second := m.StartCapture(true);
  }
}
