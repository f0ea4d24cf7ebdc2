/** The WebSocket source over a connection someone else owns: binary
    messages are decoded with the source's current output dtype and awaited
    through the sink, text messages go to an optional text callback, and the
    disconnect callback runs when the receive loop ends. */
module WebSocketSource {

  import opened Py
  import opened Pcm
  import opened Transport
  import opened BaseSource

  /** Whether `np.frombuffer` accepts `n` bytes as dtype `d`: the length is a
      whole number of items. */
  predicate FitsDtype(n: nat, d: Dtype)
  {
    match d
    case Int8 => true
    case UInt8 => true
    case Int16 => n % 2 == 0
    case Int32 => n % 4 == 0
    case Float32 => n % 4 == 0
    case Float64 => n % 8 == 0
  }

  /** The multiples of the item size are exactly the lengths accepted. */
  lemma FitsDtypeIsMultiple(n: nat, d: Dtype)
    ensures FitsDtype(n, d) <==> n % ItemSize(d) == 0
  {
  }

  /** The effects of the loop body for the messages from index `i` on, with
      `dtype` the value of `self.dtype`, `textCallback` the stored text
      callback, and `raises` whether awaiting `self.sink` on a 1-D array
      raises (AwaitRaises). A binary message of the wrong length makes
      `np.frombuffer` raise ValueError, the awaited conversion wrapper may
      raise, and a truthy text callback that is not callable raises TypeError;
      the loop's `except Exception` ends the loop on each. An awaited call that
      raises is not recorded. */
  function ReceiveCalls(ms: seq<Received>, i: nat, dtype: Dtype, textCallback: Value, raises: bool): (calls: seq<Call>)
    requires i <= |ms|
    decreases |ms| - i
  {
    if i == |ms| then []
    else match ms[i]
      case BytesMsg(data) =>
        if FitsDtype(|data|, dtype) && !raises then
          [SinkAwait(dtype, data)] + ReceiveCalls(ms, i + 1, dtype, textCallback, raises)
        else []
      case StrMsg(text) =>
        if !Truthy(textCallback) then ReceiveCalls(ms, i + 1, dtype, textCallback, raises)
        else if Callable(textCallback) then [TextCallback(text)] + ReceiveCalls(ms, i + 1, dtype, textCallback, raises)
        else []
  }

  /** Whether the loop body handles message `m` without raising. */
  predicate Handled(m: Received, dtype: Dtype, textCallback: Value, raises: bool)
  {
    match m
    case BytesMsg(data) => FitsDtype(|data|, dtype) && !raises
    case StrMsg(_) => !Truthy(textCallback) || Callable(textCallback)
  }

  /** The call one handled message leads to, if any. */
  function Effect(m: Received, dtype: Dtype, textCallback: Value): (calls: seq<Call>)
  {
    match m
    case BytesMsg(data) => [SinkAwait(dtype, data)]
    case StrMsg(text) => if Callable(textCallback) then [TextCallback(text)] else []
  }

  /** While every message is handled, the calls are the messages' effects in
      arrival order: each binary message is awaited through the sink once,
      decoded with `dtype`, and each text message reaches a callable text
      callback once. The first message that is not handled ends the loop. */
  lemma {:induction false} ReceiveCallsUnfold(ms: seq<Received>, i: nat, dtype: Dtype, textCallback: Value, raises: bool)
    requires i < |ms|
    ensures Handled(ms[i], dtype, textCallback, raises) ==>
              ReceiveCalls(ms, i, dtype, textCallback, raises)
              == Effect(ms[i], dtype, textCallback) + ReceiveCalls(ms, i + 1, dtype, textCallback, raises)
    ensures !Handled(ms[i], dtype, textCallback, raises) ==> ReceiveCalls(ms, i, dtype, textCallback, raises) == []
  {
    match ms[i]
    case BytesMsg(_) =>
    case StrMsg(_) =>
      if !Truthy(textCallback) {
        assert !Callable(textCallback);
        var rest := ReceiveCalls(ms, i + 1, dtype, textCallback, raises);
        assert [] + rest == rest;
      }
  }

  /** After `convert_output(rate, dtype, channels)`, a binary message is
      decoded as `dtype`, the target, and not as the format the sender used:
      the wrapper then treats bytes of the native format as target samples. */
  lemma DecodesWithTargetDtype(native: Format, rate: int, dtype: Dtype, channels: Option<int>,
                               data: seq<Byte>, textCallback: Value)
    ensures var s := AfterConvert(native, rate, dtype, channels);
            var raises := AwaitRaises(native, s.sink);
            ReceiveCalls([BytesMsg(data)], 0, s.output.dtype, textCallback, raises)
            == if FitsDtype(|data|, dtype) && !raises then [SinkAwait(dtype, data)] else []
  {
    var s := AfterConvert(native, rate, dtype, channels);
    assert s.output.dtype == dtype;
    var ms := [BytesMsg(data)];
    assert ReceiveCalls(ms, 1, dtype, textCallback, AwaitRaises(native, s.sink)) == [];
  }

  /** A stereo source converted to mono never delivers audio: the wrapper
      averages along axis 1 of the 1-D array `np.frombuffer` gives, which
      raises AxisError, so the first binary message ends the loop. */
  lemma StereoToMonoEndsLoop(native: Format, rate: int, dtype: Dtype, data: seq<Byte>, ms: seq<Received>,
                             textCallback: Value)
    requires native.channels == 2
    ensures var s := AfterConvert(native, rate, dtype, Some(1));
            AwaitRaises(native, s.sink) &&
            ReceiveCalls([BytesMsg(data)] + ms, 0, s.output.dtype, textCallback, AwaitRaises(native, s.sink)) == []
  {
    var s := AfterConvert(native, rate, dtype, Some(1));
    assert s.sink.Converting? && Downmixes(s.sink.plan, native);
  }

  /** One pass of the loop body: the effect of the message, or `handled`
      false where the body raises. */
  method HandleMessage(m: Received, dtype: Dtype, textCallback: Value, raises: bool)
    returns (effect: seq<Call>, handled: bool)
    ensures handled == Handled(m, dtype, textCallback, raises)
    ensures handled ==> effect == Effect(m, dtype, textCallback)
  {
    effect := [];
    handled := true;
    match m {
      case BytesMsg(data) =>
        if !FitsDtype(|data|, dtype) {
          handled := false;               // ValueError from np.frombuffer
        } else if raises {
          handled := false;               // raised inside conversion_wrapper
        } else {
          effect := [SinkAwait(dtype, data)];
        }
      case StrMsg(text) =>
        if !Truthy(textCallback) {
          effect := [];                   // a warning is logged
        } else if Callable(textCallback) {
          effect := [TextCallback(text)];
        } else {
          handled := false;               // TypeError: the object is not callable
        }
    }
  }

  /** The state of `self._receive_task`. */
  datatype Task = NoTask | Running | Done

  class WebSocketAudioSource {
    const base: BaseAudioSource
    const websocket: Connection
    const textCallback: Value
    var receiveTask: Task

    constructor (base: BaseAudioSource, websocket: Connection, textCallback: Value)
      ensures this.base == base && this.websocket == websocket && this.textCallback == textCallback
      ensures receiveTask == NoTask
    {
      this.base := base;
      this.websocket := websocket;
      this.textCallback := textCallback;
      receiveTask := NoTask;
    }

    /** `WebSocketAudioSource.__init__` with the arguments passed by keyword:
        the base's TypeError checks come first, then ValueError for a missing
        websocket (null here). */
    static method Create(sink: Value, websocket: Connection?, sampleRate: Value, channels: int, dtype: Dtype,
                         disconnectCallback: Value, textCallback: Value, blocksize: Option<int>)
      returns (r: Result<WebSocketAudioSource>)
      ensures r.Err? <==> !Callable(sink) || (Truthy(disconnectCallback) && !Callable(disconnectCallback)) || websocket == null
      ensures !Callable(sink) || (Truthy(disconnectCallback) && !Callable(disconnectCallback)) ==> r == Err(TypeError)
      ensures Callable(sink) && (!Truthy(disconnectCallback) || Callable(disconnectCallback)) && websocket == null ==>
                r == Err(ValueError)
      ensures r.Ok? ==> fresh(r.value) && fresh(r.value.base) && r.value.base.Valid()
      ensures r.Ok? ==> r.value.websocket == websocket && r.value.receiveTask == NoTask
      ensures r.Ok? ==> r.value.base.native == Format(sampleRate, channels, dtype)
      ensures r.Ok? ==> r.value.base.disconnectCallback == disconnectCallback && r.value.textCallback == textCallback
      ensures r.Ok? ==> r.value.base.State() == OutputState(Original, r.value.base.native, false)
    {
      var b := BaseAudioSource.Create(sink, sampleRate, channels, dtype, disconnectCallback, blocksize);
      if b.Err? {
        return Err(b.error);
      }
      if websocket == null {
        return Err(ValueError);
      }
      var s := new WebSocketAudioSource(b.value, websocket, textCallback);
      r := Ok(s);
    }

    /** `_receive_loop` on a connection that delivers `messages` and then
        closes: the messages' effects, then the disconnect callback in the
        `finally` clause, once, if it is truthy. */
    method ReceiveLoop(messages: seq<Received>) returns (calls: seq<Call>)
      ensures calls == ReceiveCalls(messages, 0, base.output.dtype, textCallback, AwaitRaises(base.native, base.sink))
                       + DisconnectCalls(base.disconnectCallback)
    {
      var dtype := base.output.dtype;
      var raises := AwaitRaises(base.native, base.sink);
      calls := [];
      var i := 0;
      var ended := false;
      while i < |messages| && !ended
        invariant 0 <= i <= |messages|
        invariant !ended ==> calls + ReceiveCalls(messages, i, dtype, textCallback, raises)
                             == ReceiveCalls(messages, 0, dtype, textCallback, raises)
        invariant ended ==> calls == ReceiveCalls(messages, 0, dtype, textCallback, raises)
        decreases |messages| - i, if ended then 0 else 1
      {
        ReceiveCallsUnfold(messages, i, dtype, textCallback, raises);
        var effect, handled := HandleMessage(messages[i], dtype, textCallback, raises);
        ended := !handled;
        if ended {
          assert calls + [] == calls;
        } else {
          ghost var rest := ReceiveCalls(messages, i + 1, dtype, textCallback, raises);
          assert (calls + effect) + rest == calls + (effect + rest);
          calls := calls + effect;
          i := i + 1;
        }
      }
      if !ended {
        assert calls + [] == calls;
      }
      calls := calls + DisconnectCalls(base.disconnectCallback);
    }

    /** `start`: creates the receive task unless one exists. */
    method Start()
      modifies this`receiveTask
      ensures old(receiveTask) == NoTask ==> receiveTask == Running
      ensures old(receiveTask) != NoTask ==> receiveTask == old(receiveTask)
    {
      if receiveTask != NoTask {
        return;
      }
      receiveTask := Running;
    }

    /** Not a method of the source: the point at which the receive loop
        returns, after which the task is done. It gives Start and Stop a
        finished task to act on. */
    method LoopEnded()
      requires receiveTask == Running
      modifies this`receiveTask
      ensures receiveTask == Done
    {
      receiveTask := Done;
    }

    /** `stop`: cancels a running task, whose `finally` clause then calls the
        disconnect callback, and forgets the task. The websocket is never
        closed: only the task field changes. */
    method Stop() returns (calls: seq<Call>)
      modifies this`receiveTask
      ensures receiveTask == NoTask
      ensures calls == if old(receiveTask) == Running then DisconnectCalls(base.disconnectCallback) else []
      ensures websocket.open == old(websocket.open) && websocket.sent == old(websocket.sent)
    {
      calls := [];
      if receiveTask != NoTask {
        if receiveTask == Running {
          calls := DisconnectCalls(base.disconnectCallback);
        }
        receiveTask := NoTask;
      }
    }
  }
}
