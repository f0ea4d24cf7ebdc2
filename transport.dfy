/** A WebSocket connection as the sinks see it: whether it is open and the
    messages written to it so far. Everything below the message level
    (framing, handshakes, the event loop) is outside the model. */
module Transport {

  import opened Py
  import opened Pcm

  /** One message written to a connection. */
  datatype WireMessage =
    | Binary(data: seq<Byte>)  // a binary frame
    | Text(doc: Json)          // a text frame holding the JSON serialisation of `doc`

  /** One message a source's `async for message in websocket` yields. */
  datatype Received =
    | BytesMsg(data: seq<Byte>)  // a binary frame
    | StrMsg(text: string)       // a text frame

  class Connection {
    /** The `open` property of a websockets connection. */
    var open: bool
    /** Every message successfully written, in order. */
    var sent: seq<WireMessage>

    constructor ()
      ensures open && sent == []
    {
      open := true;
      sent := [];
    }

    /** `await websocket.send(m)`: writes the message, or raises
        ConnectionClosed (ok == false) when the connection is not open or the
        peer closes it during the send (`interrupted`). */
    method Send(m: WireMessage, interrupted: bool) returns (ok: bool)
      modifies this
      ensures ok == (old(open) && !interrupted) && open == ok
      ensures sent == if ok then old(sent) + [m] else old(sent)
    {
      ok := open && !interrupted;
      open := ok;
      if ok {
        sent := sent + [m];
      }
    }

    /** `await websocket.close()`. */
    method Close()
      modifies this
      ensures !open && sent == old(sent)
    {
      open := false;
    }
  }
}
