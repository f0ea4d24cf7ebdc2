/** The WebSocket sink over a connection someone else owns: a send task
    drains the buffer from the front and sends each chunk's bytes as one
    binary message. When a send fails the sink marks itself closed, so
    later pushes are ignored and what is left in the buffer is never sent. */
module WebSocketSink {

  import opened Py
  import opened Pcm
  import opened Transport
  import BaseSink

  /** The messages that carry a run of chunks, one binary message per
      chunk, in the same order. */
  function Messages(cs: seq<Chunk>): (ms: seq<WireMessage>)
    ensures |ms| == |cs|
    ensures forall i :: 0 <= i < |cs| ==> ms[i] == Binary(ChunkBytes(cs[i]))
  {
    seq(|cs|, i requires 0 <= i < |cs| => Binary(ChunkBytes(cs[i])))
  }

  /** Sending two runs one after the other sends their messages in that
      order. */
  lemma MessagesAppend(a: seq<Chunk>, b: seq<Chunk>)
    ensures Messages(a + b) == Messages(a) + Messages(b)
  {
    assert |Messages(a + b)| == |Messages(a) + Messages(b)|;
    forall i | 0 <= i < |a| + |b|
      ensures Messages(a + b)[i] == (Messages(a) + Messages(b))[i]
    {
      if i >= |a| {
        assert (a + b)[i] == b[i - |a|];
      }
    }
  }

  /** Every message carries the chunk's samples: decoding a message's bytes
      as int16 gives the chunk's samples back. */
  lemma MessagesCarrySamples(cs: seq<Chunk>)
    ensures forall i :: 0 <= i < |cs| ==>
              Messages(cs)[i].Binary? && DecodeSamples(Messages(cs)[i].data) == Some(Samples(cs[i]))
  {
    forall i | 0 <= i < |cs|
      ensures DecodeSamples(Messages(cs)[i].data) == Some(Samples(cs[i]))
    {
      DecodeEncode(Samples(cs[i]));
    }
  }

  /** The state of `self._send_task`. */
  datatype Task = NoTask | Running | Done

  /** Where one run of the send loop stops. */
  datatype LoopExit =
    | Waiting   // the buffer ran dry; the loop sleeps and will look again
    | Finished  // the loop ended; its `finally` clause closed the sink

  class WebSocketAudioSink {
    const base: BaseSink.BaseAudioSink
    const websocket: Connection
    var sendTask: Task

    constructor (base: BaseSink.BaseAudioSink, websocket: Connection)
      ensures this.base == base && this.websocket == websocket && sendTask == NoTask
    {
      this.base := base;
      this.websocket := websocket;
      sendTask := NoTask;
    }

    /** `WebSocketAudioSink.__init__`: the base's dtype check comes first,
        then ValueError for a missing websocket (null here). */
    static method Create(websocket: Connection?, sampleRate: int, channels: nat, dtype: string,
                         blocksize: Option<int>)
      returns (r: Result<WebSocketAudioSink>)
      ensures r.Err? <==> dtype != "int16" || websocket == null
      ensures r.Err? ==> r.error == ValueError
      ensures r.Ok? ==> fresh(r.value) && fresh(r.value.base) && r.value.base.State() == BaseSink.Initial()
      ensures r.Ok? ==> r.value.websocket == websocket && r.value.sendTask == NoTask
    {
      var b := BaseSink.BaseAudioSink.Create(sampleRate, channels, dtype, blocksize);
      if b.Err? {
        return Err(b.error);
      }
      if websocket == null {
        return Err(ValueError);
      }
      var s := new WebSocketAudioSink(b.value, websocket);
      r := Ok(s);
    }

    /** `start`: creates the send task unless one exists. */
    method Start()
      modifies this`sendTask
      ensures old(sendTask) == NoTask ==> sendTask == Running
      ensures old(sendTask) != NoTask ==> sendTask == old(sendTask)
    {
      if sendTask != NoTask {
        return;
      }
      sendTask := Running;
    }

    /** The inherited `push_chunk`. */
    method PushChunk(c: Chunk)
      modifies base`buffer
      ensures base.State() == BaseSink.AfterPush(old(base.State()), c)
    {
      base.PushChunk(c);
    }

    /** One pass of the send loop on a non-empty buffer: pops the front
        chunk and sends its bytes; a ConnectionClosed (`interrupted`, or a
        connection that is no longer open) breaks out of the loop, modelled
        by setting the closed flag the `finally` clause sets anyway. */
    method SendFront(interrupted: bool) returns (ok: bool)
      requires base.buffer != [] && !base.closed
      modifies base`buffer, base`closed, websocket
      ensures base.buffer == old(base.buffer)[1..]
      ensures base.closed == !ok
      ensures ok == (old(websocket.open) && !interrupted)
      ensures websocket.sent == if ok then old(websocket.sent) + [Binary(ChunkBytes(old(base.buffer)[0]))]
                                else old(websocket.sent)
    {
      var chunk := base.buffer[0];
      base.buffer := base.buffer[1..];
      ok := websocket.Send(Binary(ChunkBytes(chunk)), interrupted);
      if !ok {
        base.closed := true;
      }
    }

    /** `_send_loop_async` from where it last stopped until it waits on an
        empty buffer or ends. The send numbered `interruptAt` (counting from
        zero in this run), if any, meets a ConnectionClosed. A failed send
        ends the loop: the chunk it had popped is lost and the sink closed. */
    method RunSendLoop(interruptAt: Option<nat>) returns (exit: LoopExit, sentCount: nat)
      requires sendTask == Running
      modifies base`buffer, base`closed, websocket, this`sendTask
      ensures sentCount <= |old(base.buffer)|
      ensures websocket.sent == old(websocket.sent) + Messages(old(base.buffer)[..sentCount])
      ensures old(base.closed) ==> exit == Finished && sentCount == 0 && base.buffer == old(base.buffer)
      ensures exit == Waiting <==> sendTask == Running
      ensures exit == Waiting ==> !base.closed && base.buffer == [] && sentCount == |old(base.buffer)|
      ensures exit == Finished ==> base.closed && sendTask == Done
      ensures exit == Finished && !old(base.closed) ==>
                sentCount < |old(base.buffer)| && base.buffer == old(base.buffer)[sentCount + 1..]
    {
      ghost var buf0 := base.buffer;
      ghost var sent0 := websocket.sent;
      sentCount := 0;
      exit := if base.closed then Finished else Waiting;
      while !base.closed
        invariant sentCount <= |buf0|
        invariant !base.closed ==> base.buffer == buf0[sentCount..]
        invariant websocket.sent == sent0 + Messages(buf0[..sentCount])
        invariant base.closed ==> exit == Finished
        invariant base.closed && !old(base.closed) ==>
                    sentCount < |buf0| && base.buffer == buf0[sentCount + 1..]
        invariant old(base.closed) ==> sentCount == 0 && base.buffer == buf0
        invariant sendTask == Running
        decreases |base.buffer|, if base.closed then 0 else 1
      {
        if base.buffer == [] {
          // IndexError: sleep and look again; this run stops here.
          return Waiting, sentCount;
        }
        var ok := SendFront(interruptAt == Some(sentCount));
        if !ok {
          exit := Finished;
        } else {
          MessagesAppend(buf0[..sentCount], [buf0[sentCount]]);
          assert buf0[..sentCount + 1] == buf0[..sentCount] + [buf0[sentCount]];
          sentCount := sentCount + 1;
        }
      }
      // The `finally` clause.
      base.closed := true;
      sendTask := Done;
      exit := Finished;
    }

    /** `close`: acts only while the sink is open; sets the closed flag and
        cancels a running send task, whose `finally` clause only sets the
        (already set) flag again. The websocket is not touched. */
    method Close()
      modifies base`closed, this`sendTask
      ensures base.closed && base.buffer == old(base.buffer)
      ensures old(base.closed) ==> sendTask == old(sendTask)
      ensures !old(base.closed) ==> sendTask == if old(sendTask) == Running then Done else old(sendTask)
    {
      if !base.closed {
        base.Close();
        if sendTask == Running {
          sendTask := Done;
        }
      }
    }
  }
}
