/** The sounddevice player's buffer logic: the output callback fills exactly
    `frames` output rows from the front of the buffer, starting at a retained
    offset inside the front chunk, and pads with silence on underrun. */
module AudioPlayer {

  import opened Py
  import opened Pcm
  import BaseSink

  /** What a callback asked for `frames` rows writes, given the frames still
      pending in the buffer: those frames first, then silence. */
  function Played(pending: seq<Frame>, frames: nat, channels: nat): (out: seq<Frame>)
    ensures |out| == frames
    ensures forall j :: 0 <= j < frames ==> out[j] == if j < |pending| then pending[j] else Silence(channels)
  {
    if frames <= |pending| then pending[..frames]
    else pending + seq(frames - |pending|, _ => Silence(channels))
  }

  /** The frames still pending after a callback of `frames` rows. */
  function Left(pending: seq<Frame>, frames: nat): (r: seq<Frame>)
    ensures frames <= |pending| ==> |r| == |pending| - frames
    ensures frames >= |pending| ==> r == []
    ensures pending == Played(pending, frames, 0)[..|pending| - |r|] + r
  {
    if frames <= |pending| then pending[frames..] else []
  }

  /** Two callbacks in a row write what one callback of the combined size
      writes: no frame is lost or repeated across callback boundaries. */
  lemma ConsecutiveCallbacks(pending: seq<Frame>, f1: nat, f2: nat, channels: nat)
    ensures Left(Left(pending, f1), f2) == Left(pending, f1 + f2)
    ensures Played(pending, f1, channels) + Played(Left(pending, f1), f2, channels)
         == Played(pending, f1 + f2, channels)
  {
    var a := Played(pending, f1, channels);
    var b := Played(Left(pending, f1), f2, channels);
    var c := Played(pending, f1 + f2, channels);
    assert |a + b| == |c|;
    forall j | 0 <= j < f1 + f2
      ensures (a + b)[j] == c[j]
    {
      if j >= f1 {
        assert (a + b)[j] == b[j - f1];
      }
    }
  }

  /** The frames of a non-empty buffer after an offset into its front chunk. */
  lemma PendingUnfold(buffer: seq<Chunk>, offset: nat)
    requires buffer != [] && offset <= |buffer[0]|
    ensures offset <= |Flatten(buffer)|
    ensures Flatten(buffer)[offset..] == buffer[0][offset..] + Flatten(buffer[1..])
  {
  }

  /** Copying `t` frames from the front chunk, starting at `offset`: they are
      the next `t` pending frames, and what stays pending afterwards. */
  lemma FrontStep(p: seq<Frame>, buffer: seq<Chunk>, offset: nat, t: nat)
    requires buffer != [] && offset + t <= |buffer[0]|
    requires offset <= |Flatten(buffer)| && p == Flatten(buffer)[offset..]
    ensures t <= |p|
    ensures forall j :: 0 <= j < t ==> p[j] == buffer[0][offset + j]
    ensures offset + t == |buffer[0]| ==> p[t..] == Flatten(buffer[1..])
    ensures offset + t < |buffer[0]| ==> p[t..] == Flatten(buffer)[offset + t..]
  {
  }

  /** `outdata[at:at+count, :] = src[from:from+count]`. */
  method CopyRows(outdata: array<Frame>, at: nat, src: seq<Frame>, from: nat, count: nat)
    requires at + count <= outdata.Length && from + count <= |src|
    modifies outdata
    ensures forall j :: 0 <= j < at ==> outdata[j] == old(outdata[j])
    ensures forall j :: at <= j < at + count ==> outdata[j] == src[from + (j - at)]
  {
    forall j | at <= j < at + count {
      outdata[j] := src[from + (j - at)];
    }
  }

  /** `outdata[at:, :] = 0`. */
  method FillSilence(outdata: array<Frame>, at: nat, channels: nat)
    requires at <= outdata.Length
    modifies outdata
    ensures forall j :: 0 <= j < at ==> outdata[j] == old(outdata[j])
    ensures forall j :: at <= j < outdata.Length ==> outdata[j] == Silence(channels)
  {
    forall j | at <= j < outdata.Length {
      outdata[j] := Silence(channels);
    }
  }

  /** `outdata[at:at+t, :] = block`: numpy assigns a block of `t` rows, or
      broadcasts a single row to all `t`; None where it raises ValueError. */
  function Assigned(block: Option<seq<Frame>>, t: nat): (r: Option<seq<Frame>>)
    ensures r.Some? <==> block.Some? && (|block.value| == t || |block.value| == 1)
    ensures r.Some? ==> |r.value| == t
    ensures r.Some? ==> forall j :: 0 <= j < t ==> r.value[j] == if |block.value| == t then block.value[j] else block.value[0]
  {
    if block.None? then None
    else if |block.value| == t then block
    else if |block.value| == 1 then Some(seq(t, _ => block.value[0]))
    else None
  }

  /** Every buffered frame has `channels` samples: the layout the output
      stream is opened with. */
  predicate Shaped(buffer: seq<Chunk>, channels: nat)
  {
    channels > 0 && forall k, r :: 0 <= k < |buffer| && 0 <= r < |buffer[k]| ==> |buffer[k][r]| == channels
  }

  /** A piece of a shaped front chunk reshapes to itself and is assigned as
      it is. */
  lemma ShapedPiece(buffer: seq<Chunk>, channels: nat, from: nat, t: nat)
    requires Shaped(buffer, channels) && buffer != [] && from + t <= |buffer[0]|
    ensures Assigned(Reshape(buffer[0][from..from + t], channels), t) == Some(buffer[0][from..from + t])
  {
    var piece := buffer[0][from..from + t];
    assert forall i :: 0 <= i < |piece| ==> |piece[i]| == channels by {
      forall i | 0 <= i < |piece| ensures |piece[i]| == channels {
        assert piece[i] == buffer[0][from + i];
      }
    }
    ReshapeKeepsChunk(piece, channels);
  }

  /** Dropping chunks from the front keeps the buffer shaped. */
  lemma ShapedSuffix(buffer: seq<Chunk>, channels: nat, d: nat)
    requires Shaped(buffer, channels) && d <= |buffer|
    ensures Shaped(buffer[d..], channels)
  {
    forall k, r | 0 <= k < |buffer[d..]| && 0 <= r < |buffer[d..][k]|
      ensures |buffer[d..][k][r]| == channels
    {
      assert buffer[d..][k] == buffer[d + k];
    }
  }

  /** Rows that are the first `k` pending frames and silence after them are
      what Played describes, when the pending frames ran out at `k` or `k`
      is the whole request. */
  lemma RowsArePlayed(out: seq<Frame>, pending: seq<Frame>, frames: nat, channels: nat, k: nat)
    requires |out| == frames && k <= frames && k <= |pending|
    requires k < frames ==> k == |pending|
    requires forall j :: 0 <= j < k ==> out[j] == pending[j]
    requires forall j :: k <= j < frames ==> out[j] == Silence(channels)
    ensures out == Played(pending, frames, channels)
  {
  }

  class SoundDevicePlayer {
    const base: BaseSink.BaseAudioSink
    /** `_frame_offset`: read position inside the front chunk. */
    var frameOffset: nat

    /** The offset is zero on an empty buffer and lies inside the front chunk
        otherwise. */
    predicate Valid()
      reads this, base
    {
      (base.buffer == [] ==> frameOffset == 0) &&
      (base.buffer != [] ==> frameOffset <= |base.buffer[0]|)
    }

    /** Every buffered frame not yet played, in play order. */
    function Pending(): (p: seq<Frame>)
      requires Valid()
      reads this, base
    {
      PendingUnfoldIfAny(base.buffer, frameOffset);
      Flatten(base.buffer)[frameOffset..]
    }

    constructor (base: BaseSink.BaseAudioSink)
      requires base.buffer == []
      ensures this.base == base && frameOffset == 0
      ensures Valid() && Pending() == []
    {
      this.base := base;
      frameOffset := 0;
    }

    /** `SoundDevicePlayer.__init__`: the base checks the dtype; the device is
        only used by the stream and is not part of the model. */
    static method Create(sampleRate: int, channels: nat, dtype: string, blocksize: Option<int>)
      returns (r: Result<SoundDevicePlayer>)
      ensures r.Err? <==> dtype != "int16"
      ensures r.Err? ==> r.error == ValueError
      ensures r.Ok? ==> fresh(r.value) && fresh(r.value.base) && r.value.Valid()
      ensures r.Ok? ==> r.value.Pending() == [] && !r.value.base.closed
      ensures r.Ok? ==> r.value.base.buffer == [] && r.value.frameOffset == 0
      ensures r.Ok? ==> r.value.base.channels == channels && r.value.base.sampleRate == sampleRate
      ensures r.Ok? ==> r.value.base.dtype == dtype && r.value.base.blocksize == blocksize
    {
      var b := BaseSink.BaseAudioSink.Create(sampleRate, channels, dtype, blocksize);
      if b.Err? {
        return Err(b.error);
      }
      var p := new SoundDevicePlayer(b.value);
      r := Ok(p);
    }

    /** The inherited `push_chunk`: the chunk's frames join the end of the
        pending frames unless the sink is closed. */
    method PushChunk(c: Chunk)
      requires Valid()
      modifies base`buffer
      ensures Valid()
      ensures base.buffer == if base.closed then old(base.buffer) else old(base.buffer) + [c]
      ensures Pending() == if base.closed then old(Pending()) else old(Pending()) + c
    {
      ghost var p0 := Pending();
      base.PushChunk(c);
      if !base.closed {
        FlattenAppend(old(base.buffer), [c]);
        assert Flatten([c]) == c + Flatten([]);
        if old(base.buffer) == [] {
          assert Flatten(base.buffer) == c;
        }
      }
    }

    /** One pass of the callback's loop: takes as many frames as the front
        chunk still holds, up to `want`, reshapes them to `channels` columns
        and assigns them to `outdata[at..]`, then pops the front chunk once it
        is fully consumed. `ok` is false where the assignment raises
        ValueError; nothing has changed then. */
    method CopyFromFront(outdata: array<Frame>, at: nat, want: nat) returns (copied: nat, ok: bool)
      requires Valid() && base.buffer != [] && at + want <= outdata.Length
      modifies outdata, base`buffer, this`frameOffset
      ensures Valid()
      ensures var left := |old(base.buffer)[0]| - old(frameOffset);
              copied == if want < left then want else left
      ensures copied <= |old(Pending())|
      ensures var piece := old(base.buffer)[0][old(frameOffset)..old(frameOffset) + copied];
              ok <==> Assigned(Reshape(piece, base.channels), copied).Some?
      ensures !ok ==> outdata[..] == old(outdata[..]) && base.buffer == old(base.buffer) && frameOffset == old(frameOffset)
      ensures forall j :: 0 <= j < at ==> outdata[j] == old(outdata[j])
      ensures ok ==> var piece := old(base.buffer)[0][old(frameOffset)..old(frameOffset) + copied];
                     forall j :: at <= j < at + copied ==>
                       outdata[j] == Assigned(Reshape(piece, base.channels), copied).value[j - at]
      ensures Shaped(old(base.buffer), base.channels) ==>
                ok && forall j :: at <= j < at + copied ==> outdata[j] == old(Pending())[j - at]
      ensures ok ==> Pending() == old(Pending())[copied..]
      ensures ok ==> copied == want || base.buffer == old(base.buffer)[1..]
      ensures base.buffer == old(base.buffer) || base.buffer == old(base.buffer)[1..]
    {
      var current := base.buffer[0];
      var framesInChunk := |current| - frameOffset;
      copied := if want < framesInChunk then want else framesInChunk;
      var start := frameOffset;
      ghost var shaped := Shaped(base.buffer, base.channels);
      if shaped {
        ShapedPiece(base.buffer, base.channels, start, copied);
      }
      var block := Assigned(Reshape(current[start..start + copied], base.channels), copied);
      if block.None? {
        return copied, false;
      }
      ok := true;
      ghost var p := Pending();
      FrontStep(p, base.buffer, start, copied);
      CopyRows(outdata, at, block.value, 0, copied);
      if shaped {
        forall j | at <= j < at + copied
          ensures outdata[j] == p[j - at]
        {
          assert outdata[j] == block.value[j - at] == current[start + (j - at)];
        }
      }
      Advance(copied);
    }

    /** Moves the offset past `t` frames of the front chunk and pops the
        chunk once it is used up. */
    method Advance(t: nat)
      requires Valid() && base.buffer != [] && frameOffset + t <= |base.buffer[0]|
      modifies base`buffer, this`frameOffset
      ensures Valid()
      ensures Pending() == old(Pending())[t..]
      ensures old(frameOffset) + t < |old(base.buffer)[0]| ==> base.buffer == old(base.buffer)
      ensures old(frameOffset) + t == |old(base.buffer)[0]| ==> base.buffer == old(base.buffer)[1..]
    {
      FrontStep(Pending(), base.buffer, frameOffset, t);
      frameOffset := frameOffset + t;
      if frameOffset >= |base.buffer[0]| {
        base.buffer := base.buffer[1..];
        frameOffset := 0;
      }
    }

    /** Where the callback's loop stands after `at` rows: the rows written
        so far are the first pending frames when the buffer is shaped, the
        buffer has lost `popped` chunks from the front, and what is pending
        is the rest of `p0`. */
    ghost predicate Progress(outdata: array<Frame>, p0: seq<Frame>, buf0: seq<Chunk>, shaped: bool, at: nat, popped: nat)
      reads this, base, outdata
    {
      Valid() && at <= |p0| && at <= outdata.Length && Pending() == p0[at..] &&
      popped <= |buf0| && base.buffer == buf0[popped..] &&
      (shaped ==> Shaped(buf0, base.channels) && forall j :: 0 <= j < at ==> outdata[j] == p0[j])
    }

    /** One iteration of the callback's loop on a non-empty buffer. */
    method Pass(outdata: array<Frame>, at: nat, remaining: nat, ghost p0: seq<Frame>, ghost buf0: seq<Chunk>,
                ghost shaped: bool, ghost popped: nat)
      returns (copied: nat, ok: bool, ghost popped': nat)
      requires Progress(outdata, p0, buf0, shaped, at, popped)
      requires base.buffer != [] && remaining > 0 && at + remaining <= outdata.Length
      modifies outdata, base`buffer, this`frameOffset
      ensures shaped ==> ok
      ensures ok ==> copied <= remaining && Progress(outdata, p0, buf0, shaped, at + copied, popped')
      ensures ok ==> copied == remaining || popped' == popped + 1
      ensures !ok ==> Valid() && Pending() == p0[at..] && base.buffer == buf0[popped..]
    {
      if shaped {
        ShapedSuffix(buf0, base.channels, popped);
      }
      ghost var before := base.buffer;
      ghost var pend := Pending();
      copied, ok := CopyFromFront(outdata, at, remaining);
      popped' := popped;
      if ok {
        if base.buffer != before {
          assert base.buffer == buf0[popped + 1..];
          popped' := popped + 1;
        }
        assert Pending() == p0[at + copied..] by {
          assert Pending() == pend[copied..];
        }
      }
    }

    /** `_audio_callback`: writes exactly `frames` rows of `outdata` and
        advances through the buffer by the frames it copied. With every
        buffered frame `channels` wide, the rows are the pending frames and
        then silence. Otherwise a piece that neither reshapes to its own row
        count nor to one row makes the callback raise ValueError part way. */
    method AudioCallback(outdata: array<Frame>, frames: nat) returns (raised: Option<Error>)
      requires Valid() && outdata.Length == frames
      modifies outdata, base`buffer, this`frameOffset
      ensures Valid()
      ensures raised.None? || raised == Some(ValueError)
      ensures Shaped(old(base.buffer), base.channels) ==>
                raised.None? && outdata[..] == Played(old(Pending()), frames, base.channels)
      ensures raised.None? ==> Pending() == Left(old(Pending()), frames)
      ensures raised.Some? ==> exists n :: 0 <= n < frames && n <= |old(Pending())| && Pending() == old(Pending())[n..]
      ensures exists d :: 0 <= d <= |old(base.buffer)| && base.buffer == old(base.buffer)[d..]
    {
      ghost var p0 := Pending();
      ghost var buf0 := base.buffer;
      ghost var shaped := Shaped(buf0, base.channels);
      var remaining := frames;
      var outOffset := 0;
      ghost var popped := 0;
      while remaining > 0
        invariant outOffset + remaining == frames
        invariant Progress(outdata, p0, buf0, shaped, outOffset, popped)
        decreases remaining, |buf0| - popped
      {
        if base.buffer == [] {
          // Underrun: everything pending has been written; pad with silence.
          FillSilence(outdata, outOffset, base.channels);
          if shaped {
            RowsArePlayed(outdata[..], p0, frames, base.channels, outOffset);
          }
          return None;
        }
        var copied, ok;
        copied, ok, popped := Pass(outdata, outOffset, remaining, p0, buf0, shaped, popped);
        if !ok {
          // ValueError from the assignment propagates out of the callback.
          return Some(ValueError);
        }
        outOffset := outOffset + copied;
        remaining := remaining - copied;
      }
      if shaped {
        RowsArePlayed(outdata[..], p0, frames, base.channels, outOffset);
      }
      raised := None;
    }

    /** `clear`: empties the buffer and rewinds the offset. */
    method Clear()
      modifies base`buffer, this`frameOffset
      ensures Valid() && Pending() == [] && frameOffset == 0
      ensures base.buffer == [] && base.closed == old(base.closed)
    {
      base.Clear();
      frameOffset := 0;
    }

    /** `close`: sets the closed flag; the buffer and offset are kept. */
    method Close()
      requires Valid()
      modifies base`closed
      ensures Valid() && base.closed
      ensures base.buffer == old(base.buffer) && Pending() == old(Pending())
    {
      base.Close();
    }
  }

  /** Pending() is well defined whenever Valid() holds. */
  lemma PendingUnfoldIfAny(buffer: seq<Chunk>, offset: nat)
    requires buffer == [] ==> offset == 0
    requires buffer != [] ==> offset <= |buffer[0]|
    ensures offset <= |Flatten(buffer)|
  {
    if buffer != [] {
      PendingUnfold(buffer, offset);
    }
  }
}
