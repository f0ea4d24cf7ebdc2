/** The raw WebSocket server source: every binary message is one int16 chunk
    for the sink; text messages are skipped; an error while handling a
    message ends the whole connection handler. */
module RawWebSocketSource {

  import opened Py
  import opened Pcm
  import opened Transport
  import opened BaseSource

  /** The calls the handler makes for the messages from index `i` on. A
      binary message of odd length makes `np.frombuffer` raise ValueError,
      which ends the loop: no later message is handled. */
  function RawCalls(ms: seq<Received>, i: nat): (calls: seq<Call>)
    requires i <= |ms|
    decreases |ms| - i
  {
    if i == |ms| then []
    else match ms[i]
      case StrMsg(_) => RawCalls(ms, i + 1)
      case BytesMsg(data) =>
        match DecodeSamples(data)
        case None => []
        case Some(xs) => [SinkCall(xs)] + RawCalls(ms, i + 1)
  }

  /** Whether every binary message from index `i` on decodes. */
  predicate AllDecode(ms: seq<Received>, i: nat)
    requires i <= |ms|
  {
    forall j :: i <= j < |ms| && ms[j].BytesMsg? ==> |ms[j].data| % 2 == 0
  }

  /** The binary messages from index `i` on, in order. */
  function BinaryPayloads(ms: seq<Received>, i: nat): seq<seq<Byte>>
    requires i <= |ms|
    decreases |ms| - i
  {
    if i == |ms| then []
    else if ms[i].BytesMsg? then [ms[i].data] + BinaryPayloads(ms, i + 1)
    else BinaryPayloads(ms, i + 1)
  }

  /** When every binary message decodes, the sink is called once per binary
      message, in arrival order, with exactly that message's samples; text
      messages leave no trace. */
  lemma {:induction false} EachBinaryMessageOnce(ms: seq<Received>, i: nat)
    requires i <= |ms| && AllDecode(ms, i)
    ensures var calls := RawCalls(ms, i);
            var payloads := BinaryPayloads(ms, i);
            |calls| == |payloads| &&
            forall k :: 0 <= k < |calls| ==> calls[k].SinkCall? && EncodeSamples(calls[k].samples) == payloads[k]
    decreases |ms| - i
  {
    if i < |ms| {
      EachBinaryMessageOnce(ms, i + 1);
      if ms[i].BytesMsg? {
        DecodeSamplesDefined(ms[i].data);
        EncodeDecode(ms[i].data);
        var calls := RawCalls(ms, i);
        var later := RawCalls(ms, i + 1);
        assert calls == [SinkCall(DecodeSamples(ms[i].data).value)] + later;
        var payloads := BinaryPayloads(ms, i);
        assert payloads == [ms[i].data] + BinaryPayloads(ms, i + 1);
        forall k | 0 <= k < |calls|
          ensures calls[k].SinkCall? && EncodeSamples(calls[k].samples) == payloads[k]
        {
          if k > 0 {
            assert calls[k] == later[k - 1];
          }
        }
      }
    }
  }

  /** A binary message that does not decode ends the handler: nothing from
      it on is forwarded. */
  lemma {:induction false} UndecodableMessageEndsHandler(ms: seq<Received>, i: nat, j: nat)
    requires i <= j < |ms| && ms[j].BytesMsg? && |ms[j].data| % 2 != 0
    ensures RawCalls(ms, i) == RawCalls(ms[..j], i)
    decreases j - i
  {
    var pre := ms[..j];
    if i < j {
      assert pre[i] == ms[i];
      UndecodableMessageEndsHandler(ms, i + 1, j);
    } else {
      DecodeSamplesDefined(ms[j].data);
    }
  }

  /** The step the handler loop takes at index `i`, for its invariant. */
  lemma RawCallsStep(done: seq<Call>, ms: seq<Received>, i: nat, xs: seq<Sample>)
    requires i < |ms| && ms[i].BytesMsg? && DecodeSamples(ms[i].data) == Some(xs)
    requires done + RawCalls(ms, i) == RawCalls(ms, 0)
    ensures (done + [SinkCall(xs)]) + RawCalls(ms, i + 1) == RawCalls(ms, 0)
  {
    assert RawCalls(ms, i) == [SinkCall(xs)] + RawCalls(ms, i + 1);
    assert (done + [SinkCall(xs)]) + RawCalls(ms, i + 1) == done + ([SinkCall(xs)] + RawCalls(ms, i + 1));
  }

  class RawWebSocketServerAudioSource {
    const base: BaseAudioSource
    const host: string
    const port: int
    /** Whether `self.server` holds a server. */
    var hasServer: bool
    /** Whether `self.server_task` holds a task. */
    var hasServerTask: bool

    constructor (base: BaseAudioSource, host: string, port: int)
      ensures this.base == base && this.host == host && this.port == port
      ensures !hasServer && !hasServerTask
    {
      this.base := base;
      this.host := host;
      this.port := port;
      hasServer := false;
      hasServerTask := false;
    }

    /** `RawWebSocketServerAudioSource.__init__`. The disconnect callback
        lands in the base's `sample_rate`; the stored one is None. */
    static method Create(sink: Value, disconnectCallback: Value, host: string, port: int,
                         blocksize: Option<int>)
      returns (r: Result<RawWebSocketServerAudioSource>)
      ensures r.Err? <==> !Callable(sink)
      ensures r.Err? ==> r.error == TypeError
      ensures r.Ok? ==> fresh(r.value) && fresh(r.value.base) && r.value.base.Valid()
      ensures r.Ok? ==> !r.value.hasServer && !r.value.hasServerTask
      ensures r.Ok? ==> r.value.base.disconnectCallback == NoneV
      ensures r.Ok? ==> r.value.base.native == Format(disconnectCallback, 1, Int16)
      ensures r.Ok? ==> r.value.base.blocksize == blocksize
    {
      var b := BaseAudioSource.Create(sink, disconnectCallback, 1, Int16, NoneV, blocksize);
      if b.Err? {
        return Err(b.error);
      }
      var s := new RawWebSocketServerAudioSource(b.value, host, port);
      r := Ok(s);
    }

    /** `_handler` on a connection that delivers `messages` and then closes. */
    method Handler(messages: seq<Received>) returns (calls: seq<Call>)
      ensures calls == RawCalls(messages, 0) + DisconnectCalls(base.disconnectCallback)
      ensures Delivered(base.sink, calls) == if base.sink.Original? then Int16Chunks(SinkPayloads(calls)) else []
    {
      calls := [];
      var i := 0;
      var failed := false;
      while i < |messages| && !failed
        invariant 0 <= i <= |messages|
        invariant !failed ==> calls + RawCalls(messages, i) == RawCalls(messages, 0)
        invariant failed ==> calls == RawCalls(messages, 0)
        decreases |messages| - i, if failed then 0 else 1
      {
        match messages[i]
        case StrMsg(_) =>
          // A warning is logged and the message skipped.
          i := i + 1;
        case BytesMsg(data) =>
          var chunk := DecodeSamples(data);
          if chunk.None? {
            // ValueError from np.frombuffer: the handler's `except` ends it.
            assert RawCalls(messages, i) == [];
            assert calls + [] == calls;
            failed := true;
          } else {
            RawCallsStep(calls, messages, i, chunk.value);
            calls := calls + [SinkCall(chunk.value)];
            i := i + 1;
          }
      }
      if !failed {
        assert calls + [] == calls;
      }
      calls := calls + DisconnectCalls(base.disconnectCallback);
      // The sink calls are not awaited.
      UnawaitedCallsArrive(base.sink, calls);
    }

    /** `start`: does nothing while a server task exists. Every failure is
        caught and leaves both fields None. */
    method Start(bindFails: bool)
      modifies this`hasServer, this`hasServerTask
      ensures old(hasServerTask) ==> hasServer == old(hasServer) && hasServerTask
      ensures !old(hasServerTask) && bindFails ==> !hasServer && !hasServerTask
      ensures !old(hasServerTask) && !bindFails ==> hasServer && hasServerTask
    {
      if hasServerTask {
        return;
      }
      if bindFails {
        hasServer := false;
        hasServerTask := false;
        return;
      }
      hasServer := true;
      hasServerTask := true;
    }

    /** `stop`: with a server, closes it and resets both fields; without
        one, nothing happens. */
    method Stop()
      modifies this`hasServer, this`hasServerTask
      ensures !hasServer
      ensures old(hasServer) ==> !hasServerTask
      ensures !old(hasServer) ==> hasServerTask == old(hasServerTask)
    {
      if hasServer {
        hasServer := false;
        hasServerTask := false;
      }
    }
  }
}
