# KitchenSink audio chunk passing, modelled in Dafny

KitchenSink is a small Python library that moves real-time audio in chunks
between *sources*, which produce chunks and hand them to a callable sink, and
*sinks*, which buffer chunks and play or send them. This project models the
core of that library and proves properties of the model:

- **Sink base class** (`BaseSink`). A first-in-first-out buffer of chunks with
  a closed flag. Pushes are ignored once the flag is set; `clear` empties the
  buffer; only the dtype `int16` is accepted.
- **sounddevice players** (`AudioPlayer`, and `LegacyAudioPlayer` for the older
  copy at the repository root). The output callback writes exactly `frames`
  rows. The current player keeps an offset into the front chunk, spans chunk
  boundaries and pads with silence on underrun. The legacy player consumes one
  whole chunk per callback.
- **Source base class** (`BaseSource`). It checks that the sink and the
  disconnect callback are callable. `convert_output` decides which steps a
  conversion needs, in this order:
  1. normalize;
  2. resample;
  3. mono/stereo remap;
  4. requantize.

  It then installs a wrapper that runs those steps in front of the original
  sink.
- **TCP source** (`NetworkSource`). It reads frames of `2 * blocksize` bytes,
  applies an optional clipped gain and calls the sink once per frame.
- **WebSocket sources.** There are three:
  - *Typed* (`TypedWebSocketSource`): JSON `{"type", "payload"}` messages.
    Audio arrives as base64 and goes to the sink; every other type goes to a
    message callback.
  - *Raw* (`RawWebSocketSource`): every binary message is one int16 chunk.
  - *Over an existing connection* (`WebSocketSource`): binary messages are
    awaited through the sink and text goes to a text callback.
- **WebSocket sinks.** There are two:
  - *Typed client* (`TypedWebSocketSink`): chunks are not buffered but
    scheduled as typed audio messages.
  - *Over an existing connection* (`WebSocketSink`): a send task drains the
    buffer, one binary message per chunk, and a failed send closes the sink.

## How the model is built

The shared modules are:

| module | what it models |
|---|---|
| `Py` | Python argument values (`None`, booleans, integers, strings, callables), exceptions, parsed JSON and `dict.get` |
| `Pcm` | bytes, int16 little-endian samples, frames, chunks and dtypes |
| `Base64` | the encoding of section 4 of RFC 4648, and CPython's lenient decoder for it |
| `Transport` | a WebSocket connection object: its `open` state and the messages written to it |

The model follows these rules:

- **Classes.** A Python class whose methods update fields becomes a Dafny class
  with those fields.
- **Inheritance.** A subclass holds its base object in `const base`.
- **Constructors that may raise.** A constructor that can raise becomes
  `static method Create(...) returns (r: Result<C>)`. Both directions of each
  error condition are stated.
- **Connection handlers.** A connection is the finite sequence of messages it
  delivers before it closes. A handler is a method with a loop that returns the
  sequence of effects it causes: sink calls, callback calls, the disconnect
  callback, closing the TCP writer. Each handler is proved equal to a recursive
  specification function, and the lemmas are stated about that function.

Some behaviours of the code are reproduced exactly as written:

- **The disconnect callback is lost.** The TCP, typed and raw sources pass
  `disconnect_callback` as the second positional argument to
  `BaseAudioSource.__init__`, and that parameter is `sample_rate`. As a result:
  - the stored disconnect callback is always `None`, so no handler ever calls it;
  - the callback becomes the native sample rate;
  - a non-callable disconnect callback raises no TypeError.

  The `Create` contracts of those three classes state this.
- **Binary messages are decoded with the target dtype.**
  `WebSocketAudioSource` decodes binary messages with `self.dtype`. That is the
  *target* dtype once `convert_output` has run (`DecodesWithTargetDtype`).
- **The sink is not awaited.** The TCP, raw and typed sources call `self.sink`
  without `await`. Once `convert_output` has installed its coroutine wrapper,
  that call only creates a coroutine that never runs, so the original sink
  receives nothing (`UnawaitedDelivery`, `UnawaitedCallsArrive` and the
  handlers' contracts). Without a wrapper the original sink receives the
  calls only when it is a plain function or method, as the repository's
  `push_chunk` methods are; an `async def` sink would receive nothing either.
- **Downmixing a 1-D array fails.** Stereo-to-mono conversion of a 1-D array
  raises numpy's AxisError. Every source hands the wrapper 1-D arrays, so a
  stereo source converted to mono never delivers audio: the WebSocket source's
  loop ends at its first binary message (`StereoToMonoEndsLoop`).
- **int16 requantization is lossy.** Normalizing by 32768 and requantizing by
  32767 maps 32767 to 32766.
- **A TCP blocksize of None fails early.** `chunk_bytes` is computed outside the
  `try` block, so the TypeError escapes with no disconnect callback and no
  writer close.
- **The typed sink bypasses the buffer.** Its `push_chunk` override never
  touches the base buffer.

## Model

| member | source | states |
|---|---|---|
| BaseSink.BaseAudioSink.Create | src/kitchensink/sinks/base_sink.py:14-34 | ValueError exactly when the dtype is not "int16"; otherwise an empty, open sink keeping its parameters |
| BaseSink.BaseAudioSink.PushChunk | src/kitchensink/sinks/base_sink.py:44-54 | the new state is the old one with the chunk appended at the back, or unchanged when closed |
| BaseSink.BaseAudioSink.Clear | src/kitchensink/sinks/base_sink.py:56-59 | the buffer becomes empty and the closed flag is kept |
| BaseSink.BaseAudioSink.Close | src/kitchensink/sinks/base_sink.py:61-66 | the closed flag is set and the buffer is kept |
| BaseSink.AfterPush | src/kitchensink/sinks/base_sink.py:52-54 | a push on an open sink grows the buffer by one, keeps the old prefix and puts the chunk last; a closed sink is unchanged |
| BaseSink.PushesAppendInOrder | src/kitchensink/sinks/base_sink.py:44-54 | on an open sink any run of pushes appends exactly those chunks in push order |
| BaseSink.ClosedIgnoresPushes | src/kitchensink/sinks/base_sink.py:52-53 | on a closed sink no run of pushes changes the state |
| BaseSink.CloseIdempotent | src/kitchensink/sinks/base_sink.py:61-66 | closing twice equals closing once |
| BaseSink.CloseFreezesBuffer | src/kitchensink/sinks/base_sink.py:52-66 | after close the buffer keeps exactly what it had whatever is pushed, and clear still empties it |
| AudioPlayer.SoundDevicePlayer.Create | src/kitchensink/sinks/audio_player_sink.py:26-30 | the base's dtype check; an empty buffer, offset zero and no frame pending; the rate, channels, dtype and blocksize kept |
| AudioPlayer.SoundDevicePlayer.PushChunk | src/kitchensink/sinks/base_sink.py:52-54 | the chunk's frames join the end of the pending frames unless the sink is closed; the offset invariant is kept |
| AudioPlayer.SoundDevicePlayer.CopyFromFront | src/kitchensink/sinks/audio_player_sink.py:65-87 | takes min(wanted, left in the front chunk) frames, reshapes them to `channels` columns and assigns them by numpy's broadcast rule; a shape that fits neither way raises and changes nothing; on a buffer of `channels`-wide frames the rows are the next pending frames; the consumed chunk is popped |
| AudioPlayer.SoundDevicePlayer.Advance | src/kitchensink/sinks/audio_player_sink.py:80-87 | the pending frames advance by the frames copied; the front chunk is popped exactly when they use it up |
| AudioPlayer.SoundDevicePlayer.AudioCallback | src/kitchensink/sinks/audio_player_sink.py:47-87 | raises ValueError at most; when every buffered frame is `channels` wide it raises nothing and writes exactly `frames` rows: the pending frames in order, then silence; without an error the pending frames advance by `frames`; chunks leave only from the front |
| AudioPlayer.Assigned | src/kitchensink/sinks/audio_player_sink.py:77 | the slice assignment succeeds exactly for a block of `t` rows or of one row, which is then repeated `t` times |
| AudioPlayer.ShapedPiece | src/kitchensink/sinks/audio_player_sink.py:77 | a piece of a chunk whose frames are `channels` wide reshapes to itself and is assigned unchanged |
| AudioPlayer.SoundDevicePlayer.Clear | src/kitchensink/sinks/audio_player_sink.py:89-92 | no frame pending, offset zero, closed flag kept |
| AudioPlayer.SoundDevicePlayer.Close | src/kitchensink/sinks/audio_player_sink.py:94-95 | closed flag set; the pending frames are unchanged |
| AudioPlayer.Played | src/kitchensink/sinks/audio_player_sink.py:59-63 | row j of the output is pending frame j while there is one, silence after |
| AudioPlayer.Left | src/kitchensink/sinks/audio_player_sink.py:80-87 | the frames left are the pending ones minus the consumed prefix, or none on underrun |
| AudioPlayer.ConsecutiveCallbacks | src/kitchensink/sinks/audio_player_sink.py:47-87 | two callbacks in a row write and consume what one callback of the combined size does: no frame is lost or repeated across callbacks |
| LegacyAudioPlayer.SoundDevicePlayer.Create | sinks/audio_player_sink.py:22-24 | the base's dtype check; an empty, open sink keeping the rate, channels, dtype and blocksize |
| LegacyAudioPlayer.SoundDevicePlayer.AudioCallback | sinks/audio_player_sink.py:37-44 | empty buffer: silence; otherwise the front chunk is popped and written when it reshapes to `frames` rows or to one broadcast row; any other shape raises ValueError with the chunk already lost |
| LegacyAudioPlayer.SoundDevicePlayer.Close | sinks/audio_player_sink.py:46-47 | closed flag set, buffer kept |
| Pcm.Reshape | sinks/audio_player_sink.py:42 | every row of `reshape(-1, c)` has c samples, and zero columns fail |
| Pcm.SplitDefined | sinks/audio_player_sink.py:42 | the reshape succeeds exactly on a multiple k of the column count, with k rows |
| Pcm.ReshapeKeepsChunk | src/kitchensink/sinks/audio_player_sink.py:77 | a chunk of `channels` columns reshapes to itself, and reshaping never loses or reorders samples |
| BaseSource.BaseAudioSource.Create | src/kitchensink/sources/base_source.py:14-49 | TypeError exactly when the sink is not callable or a truthy disconnect callback is not callable; otherwise the original sink bound and the output format equal to the native one |
| BaseSource.BaseAudioSource.ConvertOutput | src/kitchensink/sources/base_source.py:51-124 | the sink binding and output format become those of AfterConvert, with the fields kept consistent |
| BaseSource.PlanFor | src/kitchensink/sources/base_source.py:60-67 | each step is needed exactly when its target differs from the native value; `target_channels or native` |
| BaseSource.EffectiveChannels | src/kitchensink/sources/base_source.py:61 | an absent or zero channel count means the native one |
| BaseSource.AfterConvert | src/kitchensink/sources/base_source.py:69-77 | the original sink and the native format come back exactly when the rate, dtype and channel targets all equal the native ones; otherwise the wrapper runs the plan PlanFor gives and the output format is the target rate, effective channel count and dtype |
| BaseSource.IdentityIffNative | src/kitchensink/sources/base_source.py:65-75 | no step is needed exactly when rate, dtype and channel targets all equal the native ones |
| BaseSource.ConvertToNativeRestores | src/kitchensink/sources/base_source.py:69-75 | converting to the native format restores the original sink |
| BaseSource.LastConvertWins | src/kitchensink/sources/base_source.py:69-124 | after any run of conversions only the last one matters: wrappers do not stack |
| BaseSource.Normalize | src/kitchensink/sources/base_source.py:83-89 | every value of an integer array is divided by its dtype's max + 1; a float array is unchanged; the layout and frame count are kept |
| BaseSource.Resample | src/kitchensink/sources/base_source.py:92-98 | TypeError on a non-numeric source rate, ZeroDivisionError on zero; otherwise `int(len*target/source)` frames, or an empty array when that is not positive |
| BaseSource.RateError | src/kitchensink/sources/base_source.py:92-93 | an error exactly when resampling runs on a source rate that is not a number or is zero |
| BaseSource.ResampleLengthIsFloor | src/kitchensink/sources/base_source.py:93-98 | for positive rates the length is the floor of len*target/source |
| BaseSource.ResampleExample | src/kitchensink/sources/base_source.py:93-96 | 480 frames from 16000 Hz to 48000 Hz become 1440 |
| BaseSource.Remap | src/kitchensink/sources/base_source.py:101-107 | 1 to 2 channels duplicates, 2 to 1 averages rows, any other pair passes through |
| BaseSource.MeanOfRows | src/kitchensink/sources/base_source.py:104-105 | AxisError exactly for a 1-D array; otherwise one value per row, the mean of that row |
| BaseSource.DownmixAverages | src/kitchensink/sources/base_source.py:104-105 | stereo rows become the average of their two samples; a 1-D array raises AxisError |
| BaseSource.Duplicate | src/kitchensink/sources/base_source.py:102-103 | each sample x of a 1-D array becomes the row [x, x] |
| BaseSource.Requantize | src/kitchensink/sources/base_source.py:110-115 | for an integer target every value is multiplied by its max and truncated toward zero, without clipping; a float target keeps the values; the dtype becomes the target and layout and frames are kept |
| BaseSource.Int16Requantization | src/kitchensink/sources/base_source.py:83-115 | normalizing then requantizing an int16 sample to int16 gives trunc(x / 32768 * 32767), which lies in [-32767, 32766], never grows in magnitude, and takes 32767 to 32766 |
| BaseSource.MonoToStereoInt16 | src/kitchensink/sources/base_source.py:79-119 | a mono int16 chunk converted to stereo int16 at the same rate is forwarded as rows of two equal requantized samples |
| BaseSource.Convert | src/kitchensink/sources/base_source.py:79-119 | whatever reaches the original sink is non-empty and has the target dtype (when it raises, forwards or drops: ConvertOutcome) |
| BaseSource.ConvertOutcome | src/kitchensink/sources/base_source.py:79-119 | the wrapper raises exactly the error ConvertError names: TypeError or ZeroDivisionError from the rate, AxisError for a downmix of an array that is 1-D after resampling; otherwise it forwards exactly when the resampled length is positive, with that many frames, and drops the chunk when not |
| BaseSource.AwaitRaisesOnFlat | src/kitchensink/sources/websocket_audio_source.py:56-57 | on a 1-D array an awaited sink call raises exactly when a wrapper is installed whose rate step fails or which downmixes, whatever the samples |
| BaseSource.UnawaitedCallsArrive | src/kitchensink/sources/raw_websocket_audio_source.py:42 | an original sink that is a plain function or method receives every unawaited call's samples as an int16 array, in order, while no wrapper is installed, and nothing while one is |
| BaseSource.DisconnectCalls | src/kitchensink/sources/websocket_audio_source.py:69-70 | the callback is called exactly when it is truthy, once |
| NetworkSource.TCPServerAudioSource.Create | src/kitchensink/sources/network_audio_source.py:11-27 | TypeError exactly when the sink is not callable; the stored disconnect callback is None and the given one becomes the native rate |
| NetworkSource.TCPServerAudioSource.HandleClient | src/kitchensink/sources/network_audio_source.py:29-67 | blocksize None: TypeError and nothing else; positive: one call per full frame, then the disconnect callback, then the writer close; zero or negative: no frame, then the cleanup; the original sink receives the frames only while no wrapper is installed |
| NetworkSource.TCPServerAudioSource.Start | src/kitchensink/sources/network_audio_source.py:69-82 | does nothing while a server exists; a bind failure propagates and leaves no server |
| NetworkSource.TCPServerAudioSource.Stop | src/kitchensink/sources/network_audio_source.py:84-90 | no server afterwards |
| NetworkSource.ReadFrames | src/kitchensink/sources/network_audio_source.py:38-55 | the read loop makes exactly the calls of CallsFrom: one per full frame, in order |
| NetworkSource.CallsFromFrames | src/kitchensink/sources/network_audio_source.py:38-55 | call i is the gain-processed decoding of full frame i |
| NetworkSource.UnitGainForwardsStream | src/kitchensink/sources/network_audio_source.py:35-55 | every call carries blocksize samples; with gain 1.0 they re-encode to the frames; the frames and the dropped tail give back the stream |
| NetworkSource.FramesCoverStream | src/kitchensink/sources/network_audio_source.py:38-45 | the full frames followed by the short tail are the stream |
| NetworkSource.FrameCallSamples | src/kitchensink/sources/network_audio_source.py:47-55 | a frame of k bytes gives one sink call of k/2 samples that re-encode to the frame at gain 1.0 |
| NetworkSource.AmplifySample | src/kitchensink/sources/network_audio_source.py:49-53 | gain 1.0 keeps the sample; a product beyond the int16 range becomes the nearer end of it; a product within it is truncated toward zero |
| NetworkSource.ApplyGain | src/kitchensink/sources/network_audio_source.py:49-53 | gain 1.0 is the identity; otherwise every sample is x*gain clipped to int16 and truncated, so it stays in range |
| NetworkSource.Clip | src/kitchensink/sources/network_audio_source.py:51 | the result lies in [-32768, 32767] and values already in range are kept |
| TypedWebSocketSource.TypedWebSocketServerAudioSource.Create | src/kitchensink/sources/typed_websocket_audio_source.py:22-41 | TypeError exactly when the sink is not callable; the stored disconnect callback is None |
| TypedWebSocketSource.TypedWebSocketServerAudioSource.Handler | src/kitchensink/sources/typed_websocket_audio_source.py:43-78 | the calls are those of dispatching each message in turn, then the disconnect callback; the original sink receives the decoded audio payloads while no wrapper is installed, and nothing while one is |
| TypedWebSocketSource.TypedWebSocketServerAudioSource.Start | src/kitchensink/sources/typed_websocket_audio_source.py:80-86 | does nothing with a task; a bind failure propagates and changes nothing |
| TypedWebSocketSource.TypedWebSocketServerAudioSource.Stop | src/kitchensink/sources/typed_websocket_audio_source.py:88-95 | with a server both fields are reset; otherwise nothing changes |
| TypedWebSocketSource.AudioSamples | src/kitchensink/sources/typed_websocket_audio_source.py:55-56 | samples exist exactly when the payload is a string that `b64decode` accepts and whose bytes have an even count; they re-encode to the decoded bytes |
| TypedWebSocketSource.Dispatch | src/kitchensink/sources/typed_websocket_audio_source.py:47-72 | a message has at most one effect: a sink call exactly for an audio message, otherwise a message callback |
| TypedWebSocketSource.HandlerDelivery | src/kitchensink/sources/typed_websocket_audio_source.py:53-57 | through unawaited calls the original sink receives the decoded audio payloads in order while no wrapper is installed, and nothing while one is |
| TypedWebSocketSource.DispatchAllAppend | src/kitchensink/sources/typed_websocket_audio_source.py:47-72 | no message affects the handling of another |
| TypedWebSocketSource.OnlyAudioReachesSink | src/kitchensink/sources/typed_websocket_audio_source.py:53-57 | the sink receives exactly the decodable audio payloads, each once, in arrival order, whatever the callback |
| TypedWebSocketSource.AudioMessage | src/kitchensink/sources/typed_websocket_audio_source.py:53-57 | an audio message gives one sink call with its samples, or nothing when it does not decode, and never the callback |
| TypedWebSocketSource.NonAudioMessage | src/kitchensink/sources/typed_websocket_audio_source.py:58-72 | any other object goes to a callable callback as (type, payload), else is skipped; unreadable messages are skipped |
| TypedWebSocketSink.TypedWebSocketClientAudioSink.Create | src/kitchensink/sinks/typed_websocket_audio_sink.py:17-32 | the base's dtype check; no connection and no loop yet |
| TypedWebSocketSink.TypedWebSocketClientAudioSink.Start | src/kitchensink/sinks/typed_websocket_audio_sink.py:34-44 | success stores the connection and the loop; every error `connect` raises is re-raised; ConnectionRefusedError first closes the sink, and a connection an earlier start stored while its loop runs; any other error changes nothing |
| TypedWebSocketSink.TypedWebSocketClientAudioSink.PushChunk | src/kitchensink/sinks/typed_websocket_audio_sink.py:46-61 | unless closed or without a loop, schedules one audio message with the chunk's base64 payload; the base buffer is never used |
| TypedWebSocketSink.TypedWebSocketClientAudioSink.SendMessage | src/kitchensink/sinks/typed_websocket_audio_sink.py:63-86 | dropped when closed or without an open connection; otherwise the envelope is sent, and a closed connection during the send closes the sink |
| TypedWebSocketSink.TypedWebSocketClientAudioSink.RunScheduled | src/kitchensink/sinks/typed_websocket_audio_sink.py:58-61 | the oldest scheduled message is removed and handed to send_message: dropped when the sink is closed or there is no open connection, written when the send succeeds, and closing the sink with nothing written on ConnectionClosed |
| TypedWebSocketSink.TypedWebSocketClientAudioSink.Close | src/kitchensink/sinks/typed_websocket_audio_sink.py:88-96 | acts once; closes the connection only when there is one and a running loop; keeps the buffer |
| TypedWebSocketSink.Envelope | src/kitchensink/sinks/typed_websocket_audio_sink.py:76-79 | the message has exactly the keys "type" and "payload" with the given values |
| TypedWebSocketSink.AudioPayload | src/kitchensink/sinks/typed_websocket_audio_sink.py:55 | the payload is base64 text of length 4*ceil(bytes/3) |
| TypedWebSocketSink.AudioRoundTrip | src/kitchensink/sinks/typed_websocket_audio_sink.py:55-79 | the audio message this sink sends for a chunk makes the typed source call its sink once with the chunk's samples |
| TypedWebSocketSink.MessageRoundTrip | src/kitchensink/sinks/typed_websocket_audio_sink.py:63-79 | a non-audio message reaches the typed source's callback with its type and payload, a null payload arriving as None |
| RawWebSocketSource.RawWebSocketServerAudioSource.Create | src/kitchensink/sources/raw_websocket_audio_source.py:14-29 | TypeError exactly when the sink is not callable; the stored disconnect callback is None |
| RawWebSocketSource.RawWebSocketServerAudioSource.Handler | src/kitchensink/sources/raw_websocket_audio_source.py:31-51 | the calls are those of RawCalls, then the disconnect callback; the original sink receives their samples only while no wrapper is installed |
| RawWebSocketSource.RawWebSocketServerAudioSource.Start | src/kitchensink/sources/raw_websocket_audio_source.py:53-67 | does nothing with a task; a failure is caught and leaves both fields None |
| RawWebSocketSource.RawWebSocketServerAudioSource.Stop | src/kitchensink/sources/raw_websocket_audio_source.py:70-78 | with a server both fields are reset; otherwise nothing changes |
| RawWebSocketSource.EachBinaryMessageOnce | src/kitchensink/sources/raw_websocket_audio_source.py:37-43 | when every binary message decodes, the sink receives each one's samples once, in order, and text leaves no trace |
| RawWebSocketSource.UndecodableMessageEndsHandler | src/kitchensink/sources/raw_websocket_audio_source.py:41-48 | an odd-length binary message ends the handler: nothing from it on reaches the sink |
| WebSocketSource.WebSocketAudioSource.Create | src/kitchensink/sources/websocket_audio_source.py:16-42 | the base's TypeErrors first, then ValueError for a missing websocket; the callbacks and native format are kept |
| WebSocketSource.WebSocketAudioSource.ReceiveLoop | src/kitchensink/sources/websocket_audio_source.py:44-70 | the calls are those of ReceiveCalls with the current output dtype and with whether the installed wrapper raises on 1-D arrays, then the disconnect callback |
| WebSocketSource.WebSocketAudioSource.Start | src/kitchensink/sources/websocket_audio_source.py:72-82 | creates the receive task unless one exists |
| WebSocketSource.WebSocketAudioSource.Stop | src/kitchensink/sources/websocket_audio_source.py:85-99 | a running task is cancelled, so the disconnect callback runs; the task is forgotten; the websocket is untouched |
| WebSocketSource.HandleMessage | src/kitchensink/sources/websocket_audio_source.py:52-66 | a binary message is handled exactly when it decodes and the awaited sink does not raise, a text message when the text callback is falsy or callable; a handled message has its effect |
| WebSocketSource.ReceiveCallsUnfold | src/kitchensink/sources/websocket_audio_source.py:51-66 | each handled message contributes its effect in order; the first unhandled one ends the loop |
| WebSocketSource.DecodesWithTargetDtype | src/kitchensink/sources/websocket_audio_source.py:56 | after convert_output, binary messages are decoded as the target dtype |
| WebSocketSource.StereoToMonoEndsLoop | src/kitchensink/sources/websocket_audio_source.py:56-66 | after a stereo source is converted to mono the wrapper raises on every decoded array, so the first binary message ends the loop |
| WebSocketSource.FitsDtypeIsMultiple | src/kitchensink/sources/websocket_audio_source.py:56 | frombuffer accepts a length exactly when it is a multiple of the item size |
| WebSocketSink.WebSocketAudioSink.Create | src/kitchensink/sinks/websocket_audio_sink.py:15-27 | ValueError exactly when the dtype is not "int16" or the websocket is missing |
| WebSocketSink.WebSocketAudioSink.Start | src/kitchensink/sinks/websocket_audio_sink.py:29-39 | creates the send task unless one exists |
| WebSocketSink.WebSocketAudioSink.PushChunk | src/kitchensink/sinks/base_sink.py:44-54 | the inherited push |
| WebSocketSink.WebSocketAudioSink.SendFront | src/kitchensink/sinks/websocket_audio_sink.py:45-55 | pops the front chunk and sends its bytes; a closed connection closes the sink |
| WebSocketSink.WebSocketAudioSink.RunSendLoop | src/kitchensink/sinks/websocket_audio_sink.py:41-63 | the messages sent are the buffered chunks' bytes in order; the loop waits only with an empty buffer; a failed send loses the popped chunk, closes the sink and ends the task |
| WebSocketSink.WebSocketAudioSink.Close | src/kitchensink/sinks/websocket_audio_sink.py:66-77 | acts once; a running task ends; the websocket is never closed |
| WebSocketSink.Messages | src/kitchensink/sinks/websocket_audio_sink.py:47-49 | one binary message per chunk with its bytes, in order |
| WebSocketSink.MessagesAppend | src/kitchensink/sinks/websocket_audio_sink.py:44-49 | sending two runs sends their messages in that order |
| WebSocketSink.MessagesCarrySamples | src/kitchensink/sinks/websocket_audio_sink.py:49 | decoding a sent message as int16 gives the chunk's samples back |
| Pcm.DecodeEncode | src/kitchensink/sources/raw_websocket_audio_source.py:41 | `frombuffer(tobytes(xs))` is xs |
| Pcm.EncodeDecode | src/kitchensink/sources/raw_websocket_audio_source.py:41 | an even byte count decodes, and re-encoding gives the bytes back |
| Pcm.DecodeSamplesDefined | src/kitchensink/sources/raw_websocket_audio_source.py:41 | int16 decoding succeeds exactly on an even byte count, with half as many samples |
| Pcm.EncodeSamples | src/kitchensink/sinks/websocket_audio_sink.py:49 | `tobytes` gives two bytes per sample |
| Pcm.ChunkBytes | src/kitchensink/sinks/websocket_audio_sink.py:49 | a chunk's bytes are two per sample of the chunk |
| Transport.Connection.Send | src/kitchensink/sinks/websocket_audio_sink.py:49 | the message is written exactly when the connection is open and the send is not interrupted; a failed send leaves the connection closed and nothing written |
| Base64.DecodeEncode | src/kitchensink/sinks/typed_websocket_audio_sink.py:55 | decoding the base64 text of any bytes gives the bytes back |
| Base64.Encode | src/kitchensink/sinks/typed_websocket_audio_sink.py:55 | the text has four characters per started group of three bytes |
| Base64.Decode | src/kitchensink/sources/typed_websocket_audio_source.py:55 | text with a character outside ASCII is refused, as `b64decode` raises ValueError on it |
| Base64.DecodeStopsAtPadding | src/kitchensink/sources/typed_websocket_audio_source.py:55 | after a padded group the rest of the text is never read: the decode gives the encoded bytes whatever follows |
| Base64.DecodeBound | src/kitchensink/sources/typed_websocket_audio_source.py:55 | a decode yields at most three bytes per four characters of text |
| Py.Get | src/kitchensink/sources/typed_websocket_audio_source.py:50-51 | `get` finds a value exactly for a present key that does not hold null; a missing key and null both give None |

## Left out

- Audio hardware is not modelled: starting and stopping the sounddevice stream, device selection and listing, and the status print are left out. The callback is modelled on an array of rows.
- The WinSDK player, the line-in sources and the network sinks are not part of this model.
- `scipy.signal.resample` is a function parameter constrained only by its length and layout law. Its values are not modelled.
- Conversion arithmetic is on exact reals. float32 rounding is not modelled, and neither is `astype` wrapping when a value is out of range.
- JSON parsing and serialisation are not modelled. A message is already a parsed document, or marked as not JSON.
- asyncio is not modelled: the send lock, task scheduling, sleeps and concurrency between callbacks and handlers are left out.
- Cancellation is modelled only through its effect: the disconnect callback runs, and a task is done.
- TypedWebSocketSink.TypedWebSocketClientAudioSink.Close: the scheduled connection close is modelled as happening at once.
- Exceptions raised by the original sink and by callbacks are not modelled. The message callback's exceptions are caught in the source, so leaving them out loses no behaviour there; the TCP source's guard around the disconnect callback is left out too. The conversion wrapper's errors from its own steps are modelled (ConvertOutcome, and the WebSocket source's loop); the TypeError of its final `await` over an original sink that is a plain function is not (see the next two lines).
- WebSocketSource.WebSocketAudioSource.ReceiveLoop: whether the wrapper raises is taken from the binding when the loop starts; a `convert_output` call while the loop runs is not modelled.
- AudioPlayer.SoundDevicePlayer.AudioCallback: for a buffer whose frames are not `channels` wide, the rows written are stated pass by pass in CopyFromFront, not for the whole callback. An exception out of the callback is returned as a value; what sounddevice then does with the stream is not modelled.
- BaseSource.ConvertOutcome: assumes the original sink is a coroutine function. A plain function or method, which the constructor accepts and the repository's examples pass, receives the forwarded chunk, and then `await` on its result raises TypeError; that raise after Forward is not part of the outcome.
- BaseSource.AwaitRaisesOnFlat: for the same reason the raise is stated only for failing rate and downmix steps; a wrapper over a plain-function sink also raises on every awaited call that forwards, which AwaitRaises does not count.
- BaseSource.UnawaitedCallsArrive: takes the original sink to be a plain function or method, as every sink in the repository is. The TCP source's HandleClient, the raw and typed sources' Handler methods and TypedWebSocketSource.HandlerDelivery inherit this. An `async def` sink called without `await` only creates a coroutine that never runs, so it receives nothing even without a wrapper; that case is not modelled.
- WebSocketSource.WebSocketAudioSource.ReceiveLoop: assumes the sink returns an awaitable. A plain function would make `await` raise TypeError and end the loop; that case is not modelled.
- Decoded arrays of dtypes other than int16 are not modelled: SinkAwait keeps the raw bytes and the dtype.
- Peer addresses, logging and prints, `serve_forever` and `async with server` are left out. Server objects are flags.
- Arrays with zero columns are not modelled. The size check before forwarding a converted chunk is modelled as a frame count.
- WebSocketSink.WebSocketAudioSink.RunSendLoop: a run stops at the first empty buffer (the loop's sleep) instead of polling forever.
- `__del__`, which calls `close`, and `wait_until_stopped` are left out, because object finalisation and awaiting cancellation are outside the model.
