/** The TCP server source: reads fixed-size frames of int16 samples from one
    client connection, optionally amplifies them, and calls the sink once per
    frame. */
module NetworkSource {

  import opened Py
  import opened Pcm
  import opened BaseSource

  /** The consecutive `k`-byte frames of a byte stream; a short tail is not
      a frame. */
  function FullFrames(stream: seq<Byte>, k: nat): (frames: seq<seq<Byte>>)
    requires k > 0
    ensures forall i :: 0 <= i < |frames| ==> |frames[i]| == k
    decreases |stream|
  {
    if |stream| < k then [] else [stream[..k]] + FullFrames(stream[k..], k)
  }

  /** The bytes after the last full frame. */
  function Tail(stream: seq<Byte>, k: nat): (t: seq<Byte>)
    requires k > 0
    ensures |t| < k
    decreases |stream|
  {
    if |stream| < k then stream else Tail(stream[k..], k)
  }

  function Concat(frames: seq<seq<Byte>>): seq<Byte>
  {
    if frames == [] then [] else frames[0] + Concat(frames[1..])
  }

  /** The full frames followed by the short tail give the stream back: no
      byte is reordered, and only a tail shorter than one frame is dropped. */
  lemma {:induction false} FramesCoverStream(stream: seq<Byte>, k: nat)
    requires k > 0
    ensures Concat(FullFrames(stream, k)) + Tail(stream, k) == stream
    decreases |stream|
  {
    if |stream| >= k {
      var rest := stream[k..];
      FramesCoverStream(rest, k);
      var fs := FullFrames(stream, k);
      assert fs == [stream[..k]] + FullFrames(rest, k);
      assert fs[1..] == FullFrames(rest, k);
      assert Concat(fs) == stream[..k] + Concat(FullFrames(rest, k));
      assert Tail(stream, k) == Tail(rest, k);
      assert stream[..k] + rest == stream;
    }
  }

  function Clip(x: real): (y: real)
    ensures -32768.0 <= y <= 32767.0
    ensures -32768.0 <= x <= 32767.0 ==> y == x
  {
    if x < -32768.0 then -32768.0 else if x > 32767.0 then 32767.0 else x
  }

  /** `np.clip(x * gain, -32768, 32767).astype(np.int16)` for one sample. */
  function AmplifySample(x: Sample, gain: real): (y: Sample)
    ensures gain == 1.0 ==> y == x
    ensures x as real * gain >= 32767.0 ==> y == 32767
    ensures x as real * gain <= -32768.0 ==> y == -32768
    ensures -32768.0 <= x as real * gain <= 32767.0 ==> y == Trunc(x as real * gain)
  {
    Trunc(Clip(x as real * gain))
  }

  /** The gain stage: a gain of exactly 1.0 leaves the samples alone; any
      other gain scales, clips to the int16 range and truncates. */
  function ApplyGain(samples: seq<Sample>, gain: real): (r: seq<Sample>)
    ensures |r| == |samples|
    ensures gain == 1.0 ==> r == samples
    ensures gain != 1.0 ==> forall i :: 0 <= i < |r| ==> r[i] == AmplifySample(samples[i], gain)
    ensures forall i :: 0 <= i < |r| ==> -32768 <= r[i] <= 32767
  {
    if gain == 1.0 then samples
    else seq(|samples|, i requires 0 <= i < |samples| => AmplifySample(samples[i], gain))
  }

  /** The samples of one frame; frames have an even length. */
  function DecodeFrame(frame: seq<Byte>): (xs: seq<Sample>)
    requires |frame| % 2 == 0
    ensures 2 * |xs| == |frame| && EncodeSamples(xs) == frame
  {
    DecodeSamplesDefined(frame);
    EncodeDecode(frame);
    DecodeSamples(frame).value
  }

  /** The sink call made for one frame: its samples after the gain stage. */
  function FrameCall(frame: seq<Byte>, gain: real): (c: Call)
    requires |frame| % 2 == 0
  {
    SinkCall(ApplyGain(DecodeFrame(frame), gain))
  }

  /** The call for a frame carries half as many samples as the frame has
      bytes; under unit gain they encode back to the frame. */
  lemma FrameCallSamples(frame: seq<Byte>, gain: real)
    requires |frame| % 2 == 0
    ensures FrameCall(frame, gain).SinkCall?
    ensures 2 * |FrameCall(frame, gain).samples| == |frame|
    ensures gain == 1.0 ==> EncodeSamples(FrameCall(frame, gain).samples) == frame
  {
  }

  /** One sink call per full `k`-byte frame of the stream from byte `pos`
      on, in arrival order. */
  function CallsFrom(stream: seq<Byte>, pos: nat, k: nat, gain: real): (calls: seq<Call>)
    requires k > 0 && k % 2 == 0 && pos <= |stream|
    decreases |stream| - pos
  {
    if pos + k > |stream| then []
    else [FrameCall(stream[pos..pos + k], gain)] + CallsFrom(stream, pos + k, k, gain)
  }

  /** The calls are those of the full frames: one per frame, carrying that
      frame's samples after the gain stage. */
  lemma {:induction false} CallsFromFrames(stream: seq<Byte>, pos: nat, k: nat, gain: real)
    requires k > 0 && k % 2 == 0 && pos <= |stream|
    ensures var frames := FullFrames(stream[pos..], k);
            var calls := CallsFrom(stream, pos, k, gain);
            |calls| == |frames| &&
            forall i :: 0 <= i < |frames| ==> calls[i] == FrameCall(frames[i], gain)
    decreases |stream| - pos
  {
    if pos + k <= |stream| {
      CallsFromFrames(stream, pos + k, k, gain);
      var rest := stream[pos..];
      assert rest[..k] == stream[pos..pos + k];
      assert rest[k..] == stream[pos + k..];
      var frames := FullFrames(rest, k);
      var later := FullFrames(stream[pos + k..], k);
      assert frames == [stream[pos..pos + k]] + later;
      var calls := CallsFrom(stream, pos, k, gain);
      var laterCalls := CallsFrom(stream, pos + k, k, gain);
      assert calls == [FrameCall(stream[pos..pos + k], gain)] + laterCalls;
      forall i | 0 <= i < |frames|
        ensures calls[i] == FrameCall(frames[i], gain)
      {
        if i > 0 {
          assert calls[i] == laterCalls[i - 1] && frames[i] == later[i - 1];
        }
      }
    }
  }

  /** Every chunk has `blocksize` samples. With unit gain the sink receives
      exactly the full frames' samples, and those frames followed by the
      dropped tail are the stream. */
  lemma UnitGainForwardsStream(stream: seq<Byte>, blocksize: nat, gain: real)
    requires blocksize > 0
    ensures var frames := FullFrames(stream, 2 * blocksize);
            var calls := CallsFrom(stream, 0, 2 * blocksize, gain);
            |calls| == |frames| &&
            (forall i :: 0 <= i < |calls| ==> calls[i].SinkCall? && |calls[i].samples| == blocksize) &&
            (gain == 1.0 ==> forall i :: 0 <= i < |calls| ==> EncodeSamples(calls[i].samples) == frames[i]) &&
            Concat(frames) + Tail(stream, 2 * blocksize) == stream
  {
    CallsFromFrames(stream, 0, 2 * blocksize, gain);
    assert stream[0..] == stream;
    var frames := FullFrames(stream, 2 * blocksize);
    forall i | 0 <= i < |frames| {
      FrameCallSamples(frames[i], gain);
    }
    FramesCoverStream(stream, 2 * blocksize);
  }

  /** One more frame read keeps "calls made so far, then the calls of the
      unread bytes" equal to the calls of the whole stream. */
  lemma CallsFromStep(done: seq<Call>, stream: seq<Byte>, pos: nat, k: nat, gain: real)
    requires k > 0 && k % 2 == 0 && pos + k <= |stream|
    requires done + CallsFrom(stream, pos, k, gain) == CallsFrom(stream, 0, k, gain)
    ensures (done + [FrameCall(stream[pos..pos + k], gain)]) + CallsFrom(stream, pos + k, k, gain)
         == CallsFrom(stream, 0, k, gain)
  {
    var c := FrameCall(stream[pos..pos + k], gain);
    var tail := CallsFrom(stream, pos + k, k, gain);
    assert (done + [c]) + tail == done + ([c] + tail);
  }

  /** The `readexactly` loop of `_handle_client`: one sink call per full
      frame, until the stream ends inside a frame. */
  method ReadFrames(stream: seq<Byte>, k: nat, gain: real) returns (calls: seq<Call>)
    requires k > 0 && k % 2 == 0
    ensures calls == CallsFrom(stream, 0, k, gain)
  {
    calls := [];
    var pos := 0;
    while pos + k <= |stream|
      invariant 0 <= pos <= |stream|
      invariant calls + CallsFrom(stream, pos, k, gain) == CallsFrom(stream, 0, k, gain)
      decreases |stream| - pos
    {
      var data := stream[pos..pos + k];
      CallsFromStep(calls, stream, pos, k, gain);
      calls := calls + [FrameCall(data, gain)];
      pos := pos + k;
    }
    // IncompleteReadError: the partial frame is dropped.
    assert calls + [] == calls;
  }

  class TCPServerAudioSource {
    const base: BaseAudioSource
    const host: string
    const port: int
    const gainFactor: real
    /** Whether `self.server` holds a server. */
    var hasServer: bool

    constructor (base: BaseAudioSource, host: string, port: int, gainFactor: real)
      ensures this.base == base && this.host == host && this.port == port
      ensures this.gainFactor == gainFactor && !hasServer
    {
      this.base := base;
      this.host := host;
      this.port := port;
      this.gainFactor := gainFactor;
      hasServer := false;
    }

    /** `TCPServerAudioSource.__init__`. The disconnect callback is passed as
        the second positional argument of the base constructor, which is
        `sample_rate`: it becomes the native rate, and the stored disconnect
        callback is None. */
    static method Create(sink: Value, disconnectCallback: Value, host: string, port: int,
                         gainFactor: real, blocksize: Option<int>)
      returns (r: Result<TCPServerAudioSource>)
      ensures r.Err? <==> !Callable(sink)
      ensures r.Err? ==> r.error == TypeError
      ensures r.Ok? ==> fresh(r.value) && fresh(r.value.base) && r.value.base.Valid() && !r.value.hasServer
      ensures r.Ok? ==> r.value.base.disconnectCallback == NoneV
      ensures r.Ok? ==> r.value.base.native == Format(disconnectCallback, 1, Int16)
      ensures r.Ok? ==> r.value.base.blocksize == blocksize && r.value.gainFactor == gainFactor
      ensures r.Ok? ==> r.value.base.State() == OutputState(Original, r.value.base.native, false)
    {
      var b := BaseAudioSource.Create(sink, disconnectCallback, 1, Int16, NoneV, blocksize);
      if b.Err? {
        return Err(b.error);
      }
      var s := new TCPServerAudioSource(b.value, host, port, gainFactor);
      r := Ok(s);
    }

    /** `_handle_client` on a connection that delivers `stream` and then ends.
        `chunk_bytes = self.blocksize * 2` is computed outside the `try`, so a
        blocksize of None raises TypeError with no cleanup. A negative size
        makes `readexactly` raise ValueError, and a zero size reads nothing;
        both end the loop before any chunk. */
    method HandleClient(stream: seq<Byte>) returns (calls: seq<Call>, escaped: Option<Error>)
      ensures base.blocksize.None? ==> calls == [] && escaped == Some(TypeError)
      ensures base.blocksize.Some? ==> escaped.None?
      ensures base.blocksize.Some? && base.blocksize.value > 0 ==>
                calls == CallsFrom(stream, 0, 2 * base.blocksize.value, gainFactor)
                         + DisconnectCalls(base.disconnectCallback) + [CloseWriter]
      ensures base.blocksize.Some? && base.blocksize.value <= 0 ==>
                calls == DisconnectCalls(base.disconnectCallback) + [CloseWriter]
      ensures Delivered(base.sink, calls) == if base.sink.Original? then Int16Chunks(SinkPayloads(calls)) else []
    {
      if base.blocksize.None? {
        assert Delivered(base.sink, []) == [] && Int16Chunks([]) == [];
        return [], Some(TypeError);
      }
      var chunkBytes := base.blocksize.value * 2;
      calls := [];
      escaped := None;
      if chunkBytes > 0 {
        calls := ReadFrames(stream, chunkBytes, gainFactor);
      }
      calls := calls + DisconnectCalls(base.disconnectCallback) + [CloseWriter];
      // The sink calls are not awaited.
      UnawaitedCallsArrive(base.sink, calls);
    }

    /** `start`: does nothing while a server exists; a failure to bind
        propagates and leaves no server. Serving itself is not modelled. */
    method Start(bindFails: bool) returns (raised: Option<Error>)
      modifies this`hasServer
      ensures old(hasServer) ==> hasServer && raised.None?
      ensures !old(hasServer) && bindFails ==> !hasServer && raised == Some(OSError)
      ensures !old(hasServer) && !bindFails ==> hasServer && raised.None?
    {
      if hasServer {
        return None;
      }
      if bindFails {
        return Some(OSError);
      }
      hasServer := true;
      raised := None;
    }

    /** `stop`: closes and forgets the server; nothing happens without one. */
    method Stop()
      modifies this`hasServer
      ensures !hasServer
    {
      if hasServer {
        hasServer := false;
      }
    }
  }
}
