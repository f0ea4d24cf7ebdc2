/** The typed WebSocket server source: every text message is a JSON object
    `{"type": ..., "payload": ...}`. Audio messages carry base64 of int16
    bytes and go to the sink; every other type goes to an optional message
    callback. A message that cannot be handled is skipped and the connection
    goes on. */
module TypedWebSocketSource {

  import opened Py
  import opened Pcm
  import Base64
  import opened BaseSource

  /** One message of the connection after `json.loads`. */
  datatype TypedMsg =
    | NotJson           // json.loads raises JSONDecodeError
    | Parsed(doc: Json) // any JSON document, an object or not

  /** The samples of an audio payload: `np.frombuffer(base64.b64decode(p),
      dtype=np.int16)`. None where one of the two raises: a payload that is
      missing or not a string, text that is not base64, an odd byte count. */
  function AudioSamples(payload: Option<Json>): (r: Option<seq<Sample>>)
    ensures r.Some? <==> payload.Some? && payload.value.JStr? &&
                         Base64.Decode(payload.value.s).Some? &&
                         |Base64.Decode(payload.value.s).value| % 2 == 0
    ensures r.Some? ==> EncodeSamples(r.value) == Base64.Decode(payload.value.s).value
  {
    match payload
    case Some(JStr(text)) =>
      (match Base64.Decode(text)
       case None => None
       case Some(bytes) =>
         DecodeSamplesDefined(bytes);
         if |bytes| % 2 == 0 then EncodeDecode(bytes); DecodeSamples(bytes) else None)
    case _ => None
  }

  /** What the loop body does with one message. `data.get` on a document
      that is not an object raises AttributeError, which the body catches.
      A truthy callback that is not callable raises TypeError when called,
      which is caught as well; so only a callable callback is ever invoked. */
  function Dispatch(m: TypedMsg, onMessage: Value): (calls: seq<Call>)
    ensures |calls| <= 1
    ensures forall k :: 0 <= k < |calls| ==> (calls[k].SinkCall? <==> IsAudio(m))
    ensures forall k :: 0 <= k < |calls| ==> calls[k].SinkCall? || calls[k].MessageCallback?
  {
    match m
    case NotJson => []
    case Parsed(doc) =>
      if !doc.JObj? then []
      else
        var t := Get(doc.fields, "type");
        var p := Get(doc.fields, "payload");
        if t == Some(JStr("audio")) then
          match AudioSamples(p)
          case Some(xs) => [SinkCall(xs)]
          case None => []
        else if Callable(onMessage) then [MessageCallback(t, p)]
        else []
  }

  /** The calls of a whole sequence of messages, in arrival order. */
  function DispatchAll(ms: seq<TypedMsg>, onMessage: Value): seq<Call>
    decreases |ms|
  {
    if ms == [] then [] else Dispatch(ms[0], onMessage) + DispatchAll(ms[1..], onMessage)
  }

  /** No message affects the handling of another: the calls of two
      consecutive stretches of the connection are those of each, in order. */
  lemma {:induction false} DispatchAllAppend(a: seq<TypedMsg>, b: seq<TypedMsg>, onMessage: Value)
    ensures DispatchAll(a + b, onMessage) == DispatchAll(a, onMessage) + DispatchAll(b, onMessage)
    decreases |a|
  {
    if a == [] {
      assert a + b == b;
    } else {
      assert (a + b)[1..] == a[1..] + b;
      DispatchAllAppend(a[1..], b, onMessage);
    }
  }

  /** Whether the message is an object whose type is "audio". */
  predicate IsAudio(m: TypedMsg)
  {
    m.Parsed? && m.doc.JObj? && Get(m.doc.fields, "type") == Some(JStr("audio"))
  }

  /** The decodable payloads of the audio messages, in order. */
  function DecodedAudio(ms: seq<TypedMsg>): seq<seq<Sample>>
    decreases |ms|
  {
    if ms == [] then []
    else if IsAudio(ms[0]) && AudioSamples(Get(ms[0].doc.fields, "payload")).Some? then
      [AudioSamples(Get(ms[0].doc.fields, "payload")).value] + DecodedAudio(ms[1..])
    else DecodedAudio(ms[1..])
  }

  /** Only audio messages reach the sink: the sink receives the decoded
      audio payloads, each once, in arrival order, whatever the callback. */
  lemma {:induction false} OnlyAudioReachesSink(ms: seq<TypedMsg>, onMessage: Value)
    ensures SinkPayloads(DispatchAll(ms, onMessage)) == DecodedAudio(ms)
    decreases |ms|
  {
    if ms != [] {
      OnlyAudioReachesSink(ms[1..], onMessage);
      var first := Dispatch(ms[0], onMessage);
      SinkPayloadsAppend(first, DispatchAll(ms[1..], onMessage));
      if first != [] {
        assert first[1..] == [];
      }
    }
  }

  /** A message that is an object but not of type "audio", including one
      without a "type", goes to a callable callback as (type, payload), and
      is skipped without one. Anything unreadable is skipped. */
  lemma NonAudioMessage(m: TypedMsg, onMessage: Value)
    requires !IsAudio(m)
    ensures m.Parsed? && m.doc.JObj? && Callable(onMessage) ==>
              Dispatch(m, onMessage) == [MessageCallback(Get(m.doc.fields, "type"), Get(m.doc.fields, "payload"))]
    ensures !(m.Parsed? && m.doc.JObj?) || !Callable(onMessage) ==> Dispatch(m, onMessage) == []
  {
  }

  /** An audio message yields exactly one sink call with its samples, or is
      skipped when its payload does not decode; it never reaches the callback. */
  lemma AudioMessage(m: TypedMsg, onMessage: Value)
    requires IsAudio(m)
    ensures var xs := AudioSamples(Get(m.doc.fields, "payload"));
            Dispatch(m, onMessage) == if xs.Some? then [SinkCall(xs.value)] else []
  {
  }

  /** The handler's sink calls are made without `await`: the original sink
      receives the decoded audio payloads as int16 arrays while no
      conversion is installed, and nothing once one is. */
  lemma HandlerDelivery(b: SinkBinding, ms: seq<TypedMsg>, onMessage: Value, disconnectCallback: Value)
    ensures Delivered(b, DispatchAll(ms, onMessage) + DisconnectCalls(disconnectCallback))
         == if b.Original? then Int16Chunks(DecodedAudio(ms)) else []
  {
    var calls := DispatchAll(ms, onMessage) + DisconnectCalls(disconnectCallback);
    UnawaitedCallsArrive(b, calls);
    SinkPayloadsAppend(DispatchAll(ms, onMessage), DisconnectCalls(disconnectCallback));
    OnlyAudioReachesSink(ms, onMessage);
    assert SinkPayloads(DisconnectCalls(disconnectCallback)) == [];
    assert DecodedAudio(ms) + [] == DecodedAudio(ms);
  }

  class TypedWebSocketServerAudioSource {
    const base: BaseAudioSource
    const onMessageCallback: Value
    const host: string
    const port: int
    /** Whether `self.server` holds a server. */
    var hasServer: bool
    /** Whether `self.server_task` holds a task. */
    var hasServerTask: bool

    constructor (base: BaseAudioSource, onMessageCallback: Value, host: string, port: int)
      ensures this.base == base && this.onMessageCallback == onMessageCallback
      ensures this.host == host && this.port == port
      ensures !hasServer && !hasServerTask
    {
      this.base := base;
      this.onMessageCallback := onMessageCallback;
      this.host := host;
      this.port := port;
      hasServer := false;
      hasServerTask := false;
    }

    /** `TypedWebSocketServerAudioSource.__init__`. As in the TCP source, the
        disconnect callback lands in the base's `sample_rate`, so the stored
        disconnect callback is None. */
    static method Create(sink: Value, disconnectCallback: Value, onMessageCallback: Value,
                         host: string, port: int, blocksize: Option<int>)
      returns (r: Result<TypedWebSocketServerAudioSource>)
      ensures r.Err? <==> !Callable(sink)
      ensures r.Err? ==> r.error == TypeError
      ensures r.Ok? ==> fresh(r.value) && fresh(r.value.base) && r.value.base.Valid()
      ensures r.Ok? ==> !r.value.hasServer && !r.value.hasServerTask
      ensures r.Ok? ==> r.value.base.disconnectCallback == NoneV
      ensures r.Ok? ==> r.value.base.native == Format(disconnectCallback, 1, Int16)
      ensures r.Ok? ==> r.value.onMessageCallback == onMessageCallback && r.value.base.blocksize == blocksize
    {
      var b := BaseAudioSource.Create(sink, disconnectCallback, 1, Int16, NoneV, blocksize);
      if b.Err? {
        return Err(b.error);
      }
      var s := new TypedWebSocketServerAudioSource(b.value, onMessageCallback, host, port);
      r := Ok(s);
    }

    /** `_handler` on a connection that delivers `messages` and then closes:
        each message is dispatched in turn, and the `finally` clause calls the
        stored disconnect callback if it is truthy. */
    method Handler(messages: seq<TypedMsg>) returns (calls: seq<Call>)
      ensures calls == DispatchAll(messages, onMessageCallback) + DisconnectCalls(base.disconnectCallback)
      ensures Delivered(base.sink, calls) == if base.sink.Original? then Int16Chunks(DecodedAudio(messages)) else []
    {
      calls := [];
      var i := 0;
      while i < |messages|
        invariant 0 <= i <= |messages|
        invariant calls == DispatchAll(messages[..i], onMessageCallback)
      {
        DispatchAllAppend(messages[..i], [messages[i]], onMessageCallback);
        assert messages[..i + 1] == messages[..i] + [messages[i]];
        assert DispatchAll([messages[i]], onMessageCallback) == Dispatch(messages[i], onMessageCallback) + DispatchAll([], onMessageCallback);
        calls := calls + Dispatch(messages[i], onMessageCallback);
        i := i + 1;
      }
      assert messages[..i] == messages;
      calls := calls + DisconnectCalls(base.disconnectCallback);
      HandlerDelivery(base.sink, messages, onMessageCallback, base.disconnectCallback);
    }

    /** `start`: does nothing while a server task exists. A failure to bind
        propagates and changes nothing; otherwise both fields are set. */
    method Start(bindFails: bool) returns (raised: Option<Error>)
      modifies this`hasServer, this`hasServerTask
      ensures old(hasServerTask) ==> hasServer == old(hasServer) && hasServerTask && raised.None?
      ensures !old(hasServerTask) && bindFails ==>
                hasServer == old(hasServer) && !hasServerTask && raised == Some(OSError)
      ensures !old(hasServerTask) && !bindFails ==> hasServer && hasServerTask && raised.None?
    {
      if hasServerTask {
        return None;
      }
      if bindFails {
        return Some(OSError);
      }
      hasServer := true;
      hasServerTask := true;
      raised := None;
    }

    /** `stop`: with a server, closes it and resets both fields; without
        one, nothing happens. */
    method Stop()
      modifies this`hasServer, this`hasServerTask
      ensures !hasServer
      ensures old(hasServer) ==> !hasServerTask
      ensures !old(hasServer) ==> hasServerTask == old(hasServerTask)
    {
      if hasServer {
        hasServer := false;
        hasServerTask := false;
      }
    }
  }
}
