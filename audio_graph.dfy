/** The timeline and transport of engine/src/audio_graph.rs: a list of
    clips placed on the timeline, a playhead counted in samples, the
    play / pause / stop state machine, and the body of the output
    callback, which mixes the active clips with the recorder's metronome
    into an interleaved stereo buffer. The output device is left out:
    whether the device calls succeed is a parameter, and the samples the
    input device delivers are given as a sequence of frames. */
module AudioGraph {
  import opened Common
  import opened Timing
  import opened AudioFile
  import opened Recorder

  datatype TransportState = Stopped | Playing | Paused

  /** A clip placed on the timeline: its start and trim offset in
      seconds, and an optional play length (None plays the whole clip). */
  datatype TimelineClip = TimelineClip(id: nat, clip: AudioClip, startTime: real, offset: real,
                                       duration: Option<real>)

  /** Stands for whatever error the output device reports. */
  const DEVICE_ERROR: string := "audio device error"

  // ---------------------------------------------------------------------
  // Clip list

  function Ids(clips: seq<TimelineClip>): set<nat>
  {
    set i | 0 <= i < |clips| :: clips[i].id
  }

  /** Clip ids are strictly increasing along the list (they are handed out
      by a counter and clips are only appended). */
  predicate IdsIncreasing(clips: seq<TimelineClip>)
  {
    forall i, j :: 0 <= i < j < |clips| ==> clips[i].id < clips[j].id
  }

  /** Position of the first clip with the given id, or `|clips|`
      (`iter().position`). */
  function IndexOfId(clips: seq<TimelineClip>, id: nat): (k: nat)
    ensures k <= |clips|
    ensures k < |clips| ==> clips[k].id == id
    ensures forall j :: 0 <= j < k ==> clips[j].id != id
    ensures k == |clips| <==> id !in Ids(clips)
  {
    if |clips| == 0 then 0
    else if clips[0].id == id then 0
    else 1 + IndexOfId(clips[1..], id)
  }

  function RemoveAt(clips: seq<TimelineClip>, k: nat): (r: seq<TimelineClip>)
    requires k < |clips|
    ensures |r| == |clips| - 1
  {
    clips[..k] + clips[k + 1..]
  }

  /** Removing one clip keeps the others in order, so the ids stay
      increasing. */
  lemma RemoveAtKeepsIncreasing(clips: seq<TimelineClip>, k: nat)
    requires k < |clips| && IdsIncreasing(clips)
    ensures IdsIncreasing(RemoveAt(clips, k))
  {
    var r := RemoveAt(clips, k);
    forall i, j | 0 <= i < j < |r|
      ensures r[i].id < r[j].id
    {
      var i' := if i < k then i else i + 1;
      var j' := if j < k then j else j + 1;
      assert r[i] == clips[i'] && r[j] == clips[j'];
    }
  }

  /** Removing one clip keeps every id below the counter. */
  lemma RemoveAtKeepsBound(clips: seq<TimelineClip>, k: nat, bound: nat)
    requires k < |clips| && forall i :: 0 <= i < |clips| ==> clips[i].id < bound
    ensures forall i :: 0 <= i < |RemoveAt(clips, k)| ==> RemoveAt(clips, k)[i].id < bound
  {
    var r := RemoveAt(clips, k);
    forall i | 0 <= i < |r|
      ensures r[i].id < bound
    {
      assert r[i] == clips[if i < k then i else i + 1];
    }
  }

  /** With distinct ids, `remove_clip` takes away exactly the clip with
      that id: the ids left are the old ones minus that one. */
  lemma RemoveExactly(clips: seq<TimelineClip>, id: nat)
    requires IdsIncreasing(clips) && id in Ids(clips)
    ensures Ids(RemoveAt(clips, IndexOfId(clips, id))) == Ids(clips) - {id}
  {
    var k := IndexOfId(clips, id);
    RemoveAtDropsId(clips, k);
    RemoveAtKeepsOthers(clips, k);
  }

  /** With distinct ids, the removed clip's id is gone from the list. */
  lemma RemoveAtDropsId(clips: seq<TimelineClip>, k: nat)
    requires IdsIncreasing(clips) && k < |clips|
    ensures Ids(RemoveAt(clips, k)) <= Ids(clips) - {clips[k].id}
  {
    var r := RemoveAt(clips, k);
    forall x | x in Ids(r)
      ensures x in Ids(clips) - {clips[k].id}
    {
      var i :| 0 <= i < |r| && r[i].id == x;
      var i' := RemoveAtIndex(clips, k, i);
      if i' < k {
        assert clips[i'].id < clips[k].id;
      } else {
        assert clips[k].id < clips[i'].id;
      }
      assert x == clips[i'].id;
    }
  }

  /** Every other clip's id is still in the list. */
  lemma RemoveAtKeepsOthers(clips: seq<TimelineClip>, k: nat)
    requires k < |clips|
    ensures Ids(clips) - {clips[k].id} <= Ids(RemoveAt(clips, k))
  {
    var r := RemoveAt(clips, k);
    forall x | x in Ids(clips) - {clips[k].id}
      ensures x in Ids(r)
    {
      var i :| 0 <= i < |clips| && clips[i].id == x;
      var j := if i < k then i else i - 1;
      var i' := RemoveAtIndex(clips, k, j);
      assert r[j].id == x;
    }
  }

  /** Position `i` of the shortened list is position `i'` of the old one:
      the same below `k`, one further on from `k`. */
  lemma RemoveAtIndex(clips: seq<TimelineClip>, k: nat, i: nat) returns (i': nat)
    requires k < |clips| && i < |clips| - 1
    ensures i' == (if i < k then i else i + 1) && RemoveAt(clips, k)[i] == clips[i']
  {
    i' := if i < k then i else i + 1;
  }

  // ---------------------------------------------------------------------
  // Playhead

  /** `get_playhead_position`: samples over the 48 kHz rate. */
  function PlayheadSeconds(samples: nat): real
  {
    samples as real / SAMPLE_RATE_HZ as real
  }

  /** `seek`: the saturating cast of seconds times the rate. */
  function SeekSamples(seconds: real): nat
  {
    CastU64(seconds * SAMPLE_RATE_HZ as real)
  }

  /** Seeking then reading the position gives the requested time, rounded
      down to the sample grid: less than one sample period below it. A
      negative time seeks to 0. */
  lemma SeekThenRead(seconds: real)
    ensures 0.0 <= seconds && seconds * SAMPLE_RATE_HZ as real < U64_MAX as real ==>
      seconds - 1.0 / SAMPLE_RATE_HZ as real < PlayheadSeconds(SeekSamples(seconds)) <= seconds
    ensures seconds <= 0.0 ==> PlayheadSeconds(SeekSamples(seconds)) == 0.0
  {
    var x := seconds * SAMPLE_RATE_HZ as real;
    var n := SeekSamples(seconds);
    if 0.0 <= seconds && x < U64_MAX as real {
      assert n as real <= x < n as real + 1.0;
      assert n as real / 48000.0 <= seconds;
      assert seconds < (n as real + 1.0) / 48000.0;
    }
  }

  /** The round value of the engine's own example: 5.5 s is sample 264000
      and reads back exactly. */
  lemma SeekFiveAndAHalf()
    ensures SeekSamples(5.5) == 264000 && PlayheadSeconds(SeekSamples(5.5)) == 5.5
  {
    assert 5.5 * SAMPLE_RATE_HZ as real == 264000.0;
  }

  // ---------------------------------------------------------------------
  // Mixing

  /** How long the clip plays: its own duration unless one is set. */
  function PlayLength(c: TimelineClip): real
  {
    match c.duration
    case Some(d) => d
    case None => c.clip.durationSeconds
  }

  /** The clip sounds at time `t` on the half-open window
      [start, start + length). */
  predicate ActiveAt(c: TimelineClip, t: real)
  {
    c.startTime <= t < c.startTime + PlayLength(c)
  }

  /** The frame of the clip heard at timeline time `t`. */
  function FrameInClip(c: TimelineClip, t: real): nat
  {
    CastU64((t - c.startTime + c.offset) * SAMPLE_RATE_HZ as real)
  }

  function SampleOrSilence(c: AudioClip, frame: nat, channel: nat): real
  {
    match GetSample(c, frame, channel)
    case Some(x) => x
    case None => 0.0
  }

  /** What one clip adds to the left and right channels at time `t`. */
  function Contribution(c: TimelineClip, t: real): (r: (real, real))
    ensures !ActiveAt(c, t) ==> r == (0.0, 0.0)
    ensures ActiveAt(c, t) ==> r.0 == SampleOrSilence(c.clip, FrameInClip(c, t), 0)
    ensures c.clip.channels <= 1 ==> r.1 == r.0
    ensures c.clip.channels > 1 && ActiveAt(c, t) ==> r.1 == SampleOrSilence(c.clip, FrameInClip(c, t), 1)
  {
    if !ActiveAt(c, t) then (0.0, 0.0)
    else
      var f := FrameInClip(c, t);
      var left := SampleOrSilence(c.clip, f, 0);
      (left, if c.clip.channels > 1 then SampleOrSilence(c.clip, f, 1) else left)
  }

  /** The sum of the contributions of all clips, in list order. */
  function MixAt(clips: seq<TimelineClip>, t: real): (real, real)
  {
    if |clips| == 0 then (0.0, 0.0)
    else
      var rest := MixAt(clips[..|clips| - 1], t);
      var c := Contribution(clips[|clips| - 1], t);
      (rest.0 + c.0, rest.1 + c.1)
  }

  /** Mono clips only: the two channels of the mix are equal. */
  lemma {:induction false} MixOfMonoClips(clips: seq<TimelineClip>, t: real)
    requires forall i :: 0 <= i < |clips| ==> clips[i].clip.channels <= 1
    ensures MixAt(clips, t).0 == MixAt(clips, t).1
  {
    if |clips| > 0 {
      MixOfMonoClips(clips[..|clips| - 1], t);
    }
  }

  /** No clip sounding at `t`: the mix is silent. */
  lemma {:induction false} MixOfInactiveClips(clips: seq<TimelineClip>, t: real)
    requires forall i :: 0 <= i < |clips| ==> !ActiveAt(clips[i], t)
    ensures MixAt(clips, t) == (0.0, 0.0)
  {
    if |clips| > 0 {
      MixOfInactiveClips(clips[..|clips| - 1], t);
    }
  }

  /** A clip just added (offset 0, no length set) starts at its first
      frame at its start time and is silent from its natural end on. */
  lemma FreshClipWindow(c: TimelineClip)
    requires c.offset == 0.0 && c.duration == None && c.clip.durationSeconds > 0.0
    ensures ActiveAt(c, c.startTime) && FrameInClip(c, c.startTime) == 0
    ensures !ActiveAt(c, c.startTime + c.clip.durationSeconds)
  {
  }

  /** The inner loop of the callback over the clip snapshot. */
  method MixFrame(clips: seq<TimelineClip>, t: real) returns (left: real, right: real)
    ensures (left, right) == MixAt(clips, t)
  {
    left, right := 0.0, 0.0;
    var k := 0;
    while k < |clips|
      invariant 0 <= k <= |clips|
      invariant (left, right) == MixAt(clips[..k], t)
    {
      var c := clips[k];
      if c.startTime <= t && t < c.startTime + PlayLength(c) {
        var frame := FrameInClip(c, t);
        var l := GetSample(c.clip, frame, 0);
        if l.Some? {
          left := left + l.value;
        }
        if c.clip.channels > 1 {
          var r := GetSample(c.clip, frame, 1);
          if r.Some? {
            right := right + r.value;
          }
        } else {
          if l.Some? {
            right := right + l.value;
          }
        }
      }
      assert clips[..k + 1][..k] == clips[..k];
      k := k + 1;
    }
    assert clips[..|clips|] == clips;
  }

  // ---------------------------------------------------------------------
  // The output callback, as a function of the state before the buffer

  /** Input frame `i` of the buffer; frames the input device did not
      deliver read as silence. */
  function InputAt(inputs: seq<(real, real)>, i: nat): (real, real)
  {
    if i < |inputs| then inputs[i] else (0.0, 0.0)
  }

  function InputFrames(inputs: seq<(real, real)>, n: nat): (r: seq<(real, real)>)
    ensures |r| == n && forall i :: 0 <= i < n ==> r[i] == InputAt(inputs, i)
  {
    seq(n, i requires 0 <= i => InputAt(inputs, i))
  }

  /** The metronome sample of frame `i` of the buffer: the recorder has
      already processed the `i` frames before it. */
  function MetronomeAt(sinTurns: real -> real, s0: RecorderState, inputs: seq<(real, real)>, i: nat,
                       isPlaying: bool): real
    requires Settled(s0)
  {
    var s := Run(sinTurns, s0, InputFrames(inputs, i), isPlaying);
    Metronome(sinTurns, s, s.counter)
  }

  /** Output frame `i` of a buffer. Playing: mix plus metronome, each
      channel clamped to [-1, 1]; otherwise the metronome alone. */
  function OutputFrame(sinTurns: real -> real, clips: seq<TimelineClip>, playhead: nat, s0: RecorderState,
                       inputs: seq<(real, real)>, i: nat, isPlaying: bool): (r: (real, real))
    requires Settled(s0)
    ensures isPlaying ==> -1.0 <= r.0 <= 1.0 && -1.0 <= r.1 <= 1.0
    ensures !isPlaying ==> r.0 == r.1 == MetronomeAt(sinTurns, s0, inputs, i, isPlaying)
  {
    var m := MetronomeAt(sinTurns, s0, inputs, i, isPlaying);
    if !isPlaying then (m, m)
    else
      var mix := MixAt(clips, PlayheadSeconds(playhead + i));
      (Clamp(mix.0 + m, -1.0, 1.0), Clamp(mix.1 + m, -1.0, 1.0))
  }

  /** Playing mono clips only, the two output channels are equal. */
  lemma MonoPlaybackIsCentred(sinTurns: real -> real, clips: seq<TimelineClip>, playhead: nat, s0: RecorderState,
                              inputs: seq<(real, real)>, i: nat)
    requires Settled(s0)
    requires forall k :: 0 <= k < |clips| ==> clips[k].clip.channels <= 1
    ensures OutputFrame(sinTurns, clips, playhead, s0, inputs, i, true).0 ==
            OutputFrame(sinTurns, clips, playhead, s0, inputs, i, true).1
  {
    MixOfMonoClips(clips, PlayheadSeconds(playhead + i));
  }

  /** With the metronome off and no clip under the playhead, playback is
      silent. */
  lemma SilentPlayback(sinTurns: real -> real, clips: seq<TimelineClip>, playhead: nat, s0: RecorderState,
                       inputs: seq<(real, real)>, i: nat)
    requires Settled(s0) && !s0.metronomeEnabled
    requires forall k :: 0 <= k < |clips| ==> !ActiveAt(clips[k], PlayheadSeconds(playhead + i))
    ensures OutputFrame(sinTurns, clips, playhead, s0, inputs, i, true) == (0.0, 0.0)
  {
    MixOfInactiveClips(clips, PlayheadSeconds(playhead + i));
    var s := Run(sinTurns, s0, InputFrames(inputs, i), true);
    assert !s.metronomeEnabled by {
      RunKeepsSettings(sinTurns, s0, InputFrames(inputs, i), true);
    }
  }

  /** The recorder's settings are not changed by running frames. */
  lemma {:induction false} RunKeepsSettings(sinTurns: real -> real, s: RecorderState, frames: seq<(real, real)>,
                                            isPlaying: bool)
    requires Settled(s)
    ensures var r := Run(sinTurns, s, frames, isPlaying);
      r.metronomeEnabled == s.metronomeEnabled && r.tempo == s.tempo && r.countInBars == s.countInBars
    decreases |frames|
  {
    if |frames| > 0 {
      RunKeepsSettings(sinTurns, Frame(sinTurns, s, frames[0].0, frames[0].1, isPlaying).next, frames[1..], isPlaying);
    }
  }

  // ---------------------------------------------------------------------
  // The graph

  class AudioGraph {
    var clips: seq<TimelineClip>
    var nextClipId: nat
    var playhead: nat
    var state: TransportState
    /** Whether an output stream has been created and kept. */
    var hasStream: bool
    const recorder: Recorder

    ghost predicate Valid()
      reads this, recorder
    {
      recorder.Valid() && IdsIncreasing(clips) && forall i :: 0 <= i < |clips| ==> clips[i].id < nextClipId
    }

    /** `AudioGraph::new`: no clips, playhead 0, Stopped, no stream, a
        fresh recorder. */
    constructor (sinTurns: real -> real)
      ensures Valid() && fresh(recorder)
      ensures clips == [] && nextClipId == 0 && playhead == 0 && state == Stopped && !hasStream
      ensures recorder.Snapshot() == RecorderState(Idle, [], 0, 2, 120.0, true, 4)
      ensures recorder.sinTurns == sinTurns
    {
      clips := [];
      nextClipId := 0;
      playhead := 0;
      state := Stopped;
      hasStream := false;
      recorder := new Recorder(sinTurns);
    }

    /** `add_clip`: the next id from the counter; the clip is appended
        untrimmed and with no length set. The id is new. */
    method AddClip(clip: AudioClip, startTime: real) returns (id: nat)
      requires Valid()
      modifies this
      ensures Valid()
      ensures id == old(nextClipId) && nextClipId == id + 1 && id !in Ids(old(clips))
      ensures clips == old(clips) + [TimelineClip(id, clip, startTime, 0.0, None)]
      ensures playhead == old(playhead) && state == old(state) && hasStream == old(hasStream)
    {
      id := nextClipId;
      nextClipId := nextClipId + 1;
      clips := clips + [TimelineClip(id, clip, startTime, 0.0, None)];
    }

    /** `remove_clip`: drops the first clip with that id and answers
        whether there was one. */
    method RemoveClip(id: nat) returns (removed: bool)
      requires Valid()
      modifies this
      ensures Valid()
      ensures removed <==> id in Ids(old(clips))
      ensures clips == if removed then RemoveAt(old(clips), IndexOfId(old(clips), id)) else old(clips)
      ensures nextClipId == old(nextClipId) && playhead == old(playhead)
      ensures state == old(state) && hasStream == old(hasStream)
    {
      var cs := clips;
      var pos := 0;
      while pos < |cs| && cs[pos].id != id
        invariant 0 <= pos <= |cs|
        invariant forall j :: 0 <= j < pos ==> cs[j].id != id
      {
        pos := pos + 1;
      }
      if pos < |cs| {
        assert pos == IndexOfId(cs, id);
        RemoveAtKeepsIncreasing(cs, pos);
        RemoveAtKeepsBound(cs, pos, nextClipId);
        clips := RemoveAt(cs, pos);
        removed := true;
      } else {
        assert id !in Ids(cs);
        removed := false;
      }
    }

    /** `seek`. */
    method Seek(seconds: real)
      requires Valid()
      modifies this
      ensures Valid()
      ensures playhead == SeekSamples(seconds)
      ensures clips == old(clips) && nextClipId == old(nextClipId)
      ensures state == old(state) && hasStream == old(hasStream)
    {
      playhead := CastU64(seconds * SAMPLE_RATE_HZ as real);
    }

    /** `play`: nothing happens while already Playing. Otherwise the state
        becomes Playing before the device is touched, so it stays Playing
        even when creating or starting the stream fails; a stream is kept
        once one has been created and started. */
    method Play(deviceOk: bool) returns (r: Result<(), string>)
      requires Valid()
      modifies this
      ensures Valid()
      ensures old(state) == Playing ==> r == Ok(()) && hasStream == old(hasStream)
      ensures old(state) != Playing ==> (r.Ok? <==> deviceOk) && hasStream == (old(hasStream) || deviceOk)
      ensures r.Err? ==> r.error == DEVICE_ERROR
      ensures state == Playing
      ensures playhead == old(playhead) && clips == old(clips) && nextClipId == old(nextClipId)
    {
      if state == Playing {
        return Ok(());
      }
      state := Playing;
      if !hasStream {
        if !deviceOk {
          return Err(DEVICE_ERROR);
        }
        hasStream := true;
      } else {
        if !deviceOk {
          return Err(DEVICE_ERROR);
        }
      }
      r := Ok(());
    }

    /** `pause`: Paused, the playhead kept; fails only when an existing
        stream refuses to pause. */
    method Pause(deviceOk: bool) returns (r: Result<(), string>)
      requires Valid()
      modifies this
      ensures Valid()
      ensures state == Paused
      ensures r.Err? <==> hasStream && !deviceOk
      ensures r.Err? ==> r.error == DEVICE_ERROR
      ensures playhead == old(playhead) && clips == old(clips) && nextClipId == old(nextClipId)
      ensures hasStream == old(hasStream)
    {
      state := Paused;
      if hasStream && !deviceOk {
        return Err(DEVICE_ERROR);
      }
      r := Ok(());
    }

    /** `stop`: Stopped and the playhead back at 0. When an existing
        stream refuses to pause the error returns before the playhead is
        reset. The recorder's metronome counter is not reset. */
    method Stop(deviceOk: bool) returns (r: Result<(), string>)
      requires Valid()
      modifies this
      ensures Valid()
      ensures state == Stopped
      ensures r.Err? <==> hasStream && !deviceOk
      ensures r.Err? ==> r.error == DEVICE_ERROR && playhead == old(playhead)
      ensures r.Ok? ==> playhead == 0
      ensures clips == old(clips) && nextClipId == old(nextClipId) && hasStream == old(hasStream)
    {
      state := Stopped;
      if hasStream && !deviceOk {
        return Err(DEVICE_ERROR);
      }
      playhead := 0;
      r := Ok(());
    }

    /** Frame `i` of the callback: the clip mix (when playing), one
        recorder step on input frame `i`, and the clamped sum. */
    method RenderFrame(snapshot: seq<TimelineClip>, current: nat, ghost s0: RecorderState,
                       inputs: seq<(real, real)>, i: nat, isPlaying: bool) returns (left: real, right: real)
      requires recorder.Valid() && Settled(s0)
      requires recorder.Snapshot() == Run(recorder.sinTurns, s0, InputFrames(inputs, i), isPlaying)
      modifies recorder
      ensures recorder.Valid()
      ensures recorder.Snapshot() == Run(recorder.sinTurns, s0, InputFrames(inputs, i + 1), isPlaying)
      ensures (left, right) == OutputFrame(recorder.sinTurns, snapshot, current, s0, inputs, i, isPlaying)
    {
      var input := InputAt(inputs, i);
      left, right := 0.0, 0.0;
      if isPlaying {
        left, right := MixFrame(snapshot, PlayheadSeconds(current + i));
      }
      var metLeft, metRight := recorder.ProcessFrame(input.0, input.1, isPlaying);
      if isPlaying {
        left := Clamp(left + metLeft, -1.0, 1.0);
        right := Clamp(right + metRight, -1.0, 1.0);
      } else {
        left, right := metLeft, metRight;
      }
      assert InputFrames(inputs, i + 1) == InputFrames(inputs, i) + [input];
      RunSnoc(recorder.sinTurns, s0, InputFrames(inputs, i), input, isPlaying);
    }

    /** One call of the output callback on an interleaved stereo buffer of
        `data.Length / 2` frames. Each frame reads one input frame and
        runs the recorder for it (with the playing flag of the transport);
        the output is `OutputFrame`. A trailing odd sample is not written.
        While playing, the playhead advances by the frame count after the
        loop; otherwise it stays. */
    method RenderBuffer(data: array<real>, inputs: seq<(real, real)>)
      requires Valid()
      modifies this, recorder, data
      ensures Valid()
      ensures clips == old(clips) && nextClipId == old(nextClipId)
      ensures state == old(state) && hasStream == old(hasStream)
      ensures playhead == old(playhead) + if old(state) == Playing then data.Length / 2 else 0
      ensures recorder.Snapshot() ==
        Run(recorder.sinTurns, old(recorder.Snapshot()), InputFrames(inputs, data.Length / 2), old(state) == Playing)
      ensures forall i :: 0 <= i < data.Length / 2 ==>
        (data[2 * i], data[2 * i + 1]) ==
          OutputFrame(recorder.sinTurns, clips, old(playhead), old(recorder.Snapshot()), inputs, i, old(state) == Playing)
      ensures data.Length % 2 == 1 ==> data[data.Length - 1] == old(data[data.Length - 1])
    {
      var isPlaying := state == Playing;
      RenderFrames(data, clips, playhead, inputs, isPlaying);
      if isPlaying {
        playhead := playhead + data.Length / 2;
      }
    }

    /** The frame loop of the output callback: frame `i` of the buffer is
        `OutputFrame` `i`, and the recorder runs over the input frames. */
    method RenderFrames(data: array<real>, snapshot: seq<TimelineClip>, current: nat,
                        inputs: seq<(real, real)>, isPlaying: bool)
      requires recorder.Valid()
      modifies recorder, data
      ensures recorder.Valid()
      ensures recorder.Snapshot() ==
        Run(recorder.sinTurns, old(recorder.Snapshot()), InputFrames(inputs, data.Length / 2), isPlaying)
      ensures forall i :: 0 <= i < data.Length / 2 ==>
        (data[2 * i], data[2 * i + 1]) ==
          OutputFrame(recorder.sinTurns, snapshot, current, old(recorder.Snapshot()), inputs, i, isPlaying)
      ensures data.Length % 2 == 1 ==> data[data.Length - 1] == old(data[data.Length - 1])
    {
      var frames := data.Length / 2;
      ghost var s0 := recorder.Snapshot();
      var i := 0;
      while i < frames
        invariant 0 <= i <= frames
        invariant recorder.Valid()
        invariant recorder.Snapshot() == Run(recorder.sinTurns, s0, InputFrames(inputs, i), isPlaying)
        invariant forall j :: 0 <= j < i ==>
          (data[2 * j], data[2 * j + 1]) == OutputFrame(recorder.sinTurns, snapshot, current, s0, inputs, j, isPlaying)
        invariant forall k :: 2 * i <= k < data.Length ==> data[k] == old(data[k])
      {
        var left, right := RenderFrame(snapshot, current, s0, inputs, i, isPlaying);
        data[2 * i] := left;
        data[2 * i + 1] := right;
        i := i + 1;
      }
    }
  }
}
