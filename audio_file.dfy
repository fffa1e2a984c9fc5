/** The decoded audio clip the recorder produces and the timeline plays.
    Its definition lives in engine/src/audio_file.rs, which is not part
    of this model; the shape here is the one recorder.rs and
    audio_graph.rs rely on: interleaved samples, a channel count, a rate,
    a duration in seconds and a file path. */
module AudioFile {
  import opened Common

  datatype AudioClip = AudioClip(samples: seq<real>, channels: nat, sampleRate: nat,
                                 durationSeconds: real, filePath: string)

  /** `AudioClip::get_sample(frame, channel)`: the interleaved sample, or
      None past the end of the data or for a channel the clip lacks. */
  function GetSample(c: AudioClip, frame: nat, channel: nat): (r: Option<real>)
    ensures r.Some? <==> channel < c.channels && frame * c.channels + channel < |c.samples|
    ensures r.Some? ==> r.value == c.samples[frame * c.channels + channel]
  {
    if channel < c.channels && frame * c.channels + channel < |c.samples|
    then Some(c.samples[frame * c.channels + channel])
    else None
  }
}
