/** The typed WebSocket client sink: audio chunks are not buffered but sent as
    `{"type": "audio", "payload": <base64 of the chunk's bytes>}` messages,
    and any other typed message can be sent the same way. Sending is guarded
    by the closed flag and by the state of the connection. */
module TypedWebSocketSink {

  import opened Py
  import opened Pcm
  import Base64
  import opened Transport
  import BaseSink
  import BaseSource
  import TypedWebSocketSource

  /** The message `send_message(t, payload)` builds: exactly the keys "type"
      and "payload". */
  function Envelope(t: string, payload: Json): (doc: Json)
    ensures doc.JObj? && doc.fields.Keys == {"type", "payload"}
    ensures doc.fields["type"] == JStr(t) && doc.fields["payload"] == payload
  {
    JObj(map["type" := JStr(t), "payload" := payload])
  }

  /** The payload `push_chunk` sends for a chunk: the base64 text of its bytes. */
  function AudioPayload(c: Chunk): (p: Json)
    ensures p.JStr? && |p.s| == 4 * ((2 * |Samples(c)| + 2) / 3)
  {
    JStr(Base64.Encode(ChunkBytes(c)))
  }

  /** Round trip: the typed source's audio branch turns the message this sink
      sends for a chunk into exactly one sink call carrying the chunk's
      samples, whatever its message callback. */
  lemma AudioRoundTrip(c: Chunk, onMessage: Value)
    ensures TypedWebSocketSource.Dispatch(TypedWebSocketSource.Parsed(Envelope("audio", AudioPayload(c))), onMessage)
         == [BaseSource.SinkCall(Samples(c))]
  {
    var bytes := ChunkBytes(c);
    Base64.DecodeEncode(bytes);
    DecodeEncode(Samples(c));
    var doc := Envelope("audio", AudioPayload(c));
    assert Get(doc.fields, "type") == Some(JStr("audio"));
    assert Get(doc.fields, "payload") == Some(AudioPayload(c));
    assert TypedWebSocketSource.AudioSamples(Some(AudioPayload(c))) == Some(Samples(c));
  }

  /** A message other than audio reaches the typed source's callback with
      the type and payload it was sent with (None for a null payload). */
  lemma MessageRoundTrip(t: string, payload: Json, onMessage: Value)
    requires t != "audio" && Callable(onMessage)
    ensures TypedWebSocketSource.Dispatch(TypedWebSocketSource.Parsed(Envelope(t, payload)), onMessage)
         == [BaseSource.MessageCallback(Some(JStr(t)), if payload == JNull then None else Some(payload))]
  {
    var doc := Envelope(t, payload);
    assert Get(doc.fields, "type") == Some(JStr(t));
    assert Get(doc.fields, "payload") == if payload == JNull then None else Some(payload);
  }

  /** What `websockets.connect(uri)` does in `start`: it returns a
      connection or raises an error (ConnectionRefusedError, another
      OSError, InvalidURI, InvalidHandshake, ...). */
  datatype ConnectOutcome =
    | Connected(conn: Connection)
    | Raised(error: Error)

  class TypedWebSocketClientAudioSink {
    const base: BaseSink.BaseAudioSink
    const uri: string
    /** `self._websocket`; null for None. */
    var websocket: Connection?
    /** Whether `self._loop` holds the running event loop. */
    var hasLoop: bool
    /** The `send_message` coroutines handed to the loop by `push_chunk`,
        as (type, payload), oldest first. */
    var scheduled: seq<(string, Json)>

    constructor (base: BaseSink.BaseAudioSink, uri: string)
      ensures this.base == base && this.uri == uri
      ensures websocket == null && !hasLoop && scheduled == []
    {
      this.base := base;
      this.uri := uri;
      websocket := null;
      hasLoop := false;
      scheduled := [];
    }

    /** `TypedWebSocketClientAudioSink.__init__`: the base checks the dtype. */
    static method Create(uri: string, sampleRate: int, channels: nat, dtype: string, blocksize: Option<int>)
      returns (r: Result<TypedWebSocketClientAudioSink>)
      ensures r.Err? <==> dtype != "int16"
      ensures r.Err? ==> r.error == ValueError
      ensures r.Ok? ==> fresh(r.value) && fresh(r.value.base)
      ensures r.Ok? ==> r.value.base.State() == BaseSink.Initial()
      ensures r.Ok? ==> r.value.websocket == null && !r.value.hasLoop && r.value.scheduled == []
    {
      var b := BaseSink.BaseAudioSink.Create(sampleRate, channels, dtype, blocksize);
      if b.Err? {
        return Err(b.error);
      }
      var s := new TypedWebSocketClientAudioSink(b.value, uri);
      r := Ok(s);
    }

    /** `close`: acts only while the sink is open. It sets the closed flag
        and, when a connection and a running loop exist, closes the
        connection; the buffer and the scheduled messages are kept. */
    method Close()
      modifies base`closed, websocket
      ensures base.closed && base.buffer == old(base.buffer)
      ensures old(base.closed) ==> websocket == null || unchanged(websocket)
      ensures !old(base.closed) && websocket != null && hasLoop ==> !websocket.open && websocket.sent == old(websocket.sent)
      ensures !old(base.closed) && websocket != null && !hasLoop ==> unchanged(websocket)
    {
      if !base.closed {
        base.Close();
        if websocket != null && hasLoop {
          websocket.Close();
        }
      }
    }

    /** `start`: on success stores the connection and the running loop. A
        ConnectionRefusedError closes the sink, and with it a connection
        stored by an earlier start while its loop runs, then is re-raised;
        whatever else `connect` raises propagates and changes nothing. */
    method Start(outcome: ConnectOutcome) returns (raised: Option<Error>)
      modifies this`websocket, this`hasLoop, base`closed, websocket
      ensures outcome.Connected? ==> raised.None? && websocket == outcome.conn && hasLoop
      ensures outcome.Connected? ==> base.closed == old(base.closed)
      ensures outcome.Raised? ==> raised == Some(outcome.error)
      ensures outcome.Raised? ==> websocket == old(websocket) && hasLoop == old(hasLoop)
      ensures outcome == Raised(ConnectionRefusedError) ==> base.closed
      ensures outcome == Raised(ConnectionRefusedError) && !old(base.closed) && websocket != null && hasLoop ==>
                !websocket.open && websocket.sent == old(websocket.sent)
      ensures outcome == Raised(ConnectionRefusedError) && (old(base.closed) || !hasLoop) ==>
                websocket == null || unchanged(websocket)
      ensures outcome.Raised? && outcome.error != ConnectionRefusedError ==>
                base.closed == old(base.closed) && (websocket == null || unchanged(websocket))
      ensures base.buffer == old(base.buffer)
    {
      match outcome
      case Connected(conn) =>
        websocket := conn;
        hasLoop := true;
        raised := None;
      case Raised(e) =>
        if e == ConnectionRefusedError {
          Close();
        }
        raised := Some(e);
    }

    /** The overridden `push_chunk`: nothing is buffered. Unless the sink is
        closed or has no loop yet, an audio message for the chunk is
        scheduled on the loop. */
    method PushChunk(c: Chunk)
      modifies this`scheduled
      ensures base.closed || !hasLoop ==> scheduled == old(scheduled)
      ensures !base.closed && hasLoop ==> scheduled == old(scheduled) + [("audio", AudioPayload(c))]
    {
      if base.closed || !hasLoop {
        return;
      }
      scheduled := scheduled + [("audio", AudioPayload(c))];
    }

    /** `send_message(t, payload)`: dropped when the sink is closed or there
        is no open connection; otherwise the envelope is sent, and a
        ConnectionClosed during the send (`interrupted`) closes the sink. */
    method SendMessage(t: string, payload: Json, interrupted: bool)
      modifies base`closed, websocket
      ensures base.buffer == old(base.buffer)
      ensures old(base.closed) || websocket == null || !old(websocket.open) ==>
                base.closed == old(base.closed) && (websocket == null || unchanged(websocket))
      ensures !old(base.closed) && websocket != null && old(websocket.open) && !interrupted ==>
                !base.closed && websocket.open && websocket.sent == old(websocket.sent) + [Text(Envelope(t, payload))]
      ensures !old(base.closed) && websocket != null && old(websocket.open) && interrupted ==>
                base.closed && !websocket.open && websocket.sent == old(websocket.sent)
    {
      if base.closed || websocket == null || !websocket.open {
        return;
      }
      var ok := websocket.Send(Text(Envelope(t, payload)), interrupted);
      if !ok {
        Close();
      }
    }

    /** The event loop runs the oldest scheduled `send_message`, with the
        outcomes SendMessage states. */
    method RunScheduled(interrupted: bool)
      requires scheduled != []
      modifies this`scheduled, base`closed, websocket
      ensures scheduled == old(scheduled)[1..]
      ensures base.buffer == old(base.buffer)
      ensures old(base.closed) || websocket == null || !old(websocket.open) ==>
                base.closed == old(base.closed) && (websocket == null || unchanged(websocket))
      ensures var (t, p) := old(scheduled)[0];
              !old(base.closed) && websocket != null && old(websocket.open) && !interrupted ==>
                !base.closed && websocket.open && websocket.sent == old(websocket.sent) + [Text(Envelope(t, p))]
      ensures !old(base.closed) && websocket != null && old(websocket.open) && interrupted ==>
                base.closed && !websocket.open && websocket.sent == old(websocket.sent)
    {
      var (t, p) := scheduled[0];
      scheduled := scheduled[1..];
      SendMessage(t, p, interrupted);
    }
  }
}
