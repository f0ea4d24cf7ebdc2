/** The older sounddevice player: each output callback consumes one whole
    chunk from the front of the buffer, or writes silence when the buffer is
    empty. There is no offset state. */
module LegacyAudioPlayer {

  import opened Py
  import opened Pcm
  import BaseSink

  /** What one callback does with `frames` output rows. */
  datatype Outcome =
    | Played              // the front chunk was written to the output
    | Silenced            // the buffer was empty; the output is zeros
    | Raised(e: Error)    // the front chunk could not be assigned; it is lost

  class SoundDevicePlayer {
    const base: BaseSink.BaseAudioSink

    constructor (base: BaseSink.BaseAudioSink)
      ensures this.base == base
    {
      this.base := base;
    }

    /** `SoundDevicePlayer.__init__`: the base performs the dtype check. */
    static method Create(sampleRate: int, channels: nat, dtype: string, blocksize: Option<int>)
      returns (r: Result<SoundDevicePlayer>)
      ensures r.Err? <==> dtype != "int16"
      ensures r.Err? ==> r.error == ValueError
      ensures r.Ok? ==> fresh(r.value) && fresh(r.value.base)
      ensures r.Ok? ==> r.value.base.buffer == [] && !r.value.base.closed
      ensures r.Ok? ==> r.value.base.channels == channels && r.value.base.sampleRate == sampleRate
      ensures r.Ok? ==> r.value.base.dtype == dtype && r.value.base.blocksize == blocksize
    {
      var b := BaseSink.BaseAudioSink.Create(sampleRate, channels, dtype, blocksize);
      if b.Err? {
        return Err(b.error);
      }
      var p := new SoundDevicePlayer(b.value);
      r := Ok(p);
    }

    /** `_audio_callback`. `outdata[:] = rows` broadcasts: `rows` must have
        `frames` rows, or a single row that is repeated. Any other shape makes
        numpy raise ValueError after the chunk was already popped; only
        IndexError (the empty buffer) is caught. */
    method AudioCallback(outdata: array<Frame>, frames: nat) returns (outcome: Outcome)
      requires outdata.Length == frames
      modifies outdata, base`buffer
      ensures old(base.buffer) == [] ==> outcome == Silenced && base.buffer == []
      ensures outcome == Silenced ==> forall j :: 0 <= j < frames ==> outdata[j] == Silence(base.channels)
      ensures old(base.buffer) != [] ==> base.buffer == old(base.buffer)[1..]
      ensures old(base.buffer) != [] ==>
        var r := Reshape(old(base.buffer)[0], base.channels);
        if r.Some? && |r.value| == frames then outcome == Played && outdata[..] == r.value
        else if r.Some? && |r.value| == 1 then outcome == Played && forall j :: 0 <= j < frames ==> outdata[j] == r.value[0]
        else outcome == Raised(ValueError) && outdata[..] == old(outdata[..])
    {
      if base.buffer == [] {
        forall j | 0 <= j < frames {
          outdata[j] := Silence(base.channels);
        }
        return Silenced;
      }
      var data := base.buffer[0];
      base.buffer := base.buffer[1..];
      var rows := Reshape(data, base.channels);
      if rows.None? {
        return Raised(ValueError);
      }
      var v := rows.value;
      if |v| == frames {
        forall j | 0 <= j < frames {
          outdata[j] := v[j];
        }
        return Played;
      } else if |v| == 1 {
        forall j | 0 <= j < frames {
          outdata[j] := v[0];
        }
        return Played;
      }
      return Raised(ValueError);
    }

    /** `close`: the base's closed flag; the stream itself is not modelled. */
    method Close()
      modifies base`closed
      ensures base.closed && base.buffer == old(base.buffer)
    {
      base.Close();
    }
  }
}
