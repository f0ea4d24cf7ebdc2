/** The sink base class: a FIFO of chunks with no capacity bound and a
    closed flag. Pushes are ignored once the sink is closed. */
module BaseSink {

  import opened Py
  import opened Pcm

  /** The abstract state of a sink's buffer. */
  datatype SinkState = SinkState(buffer: seq<Chunk>, closed: bool)

  /** The state a new sink starts in. */
  function Initial(): (s: SinkState)
    ensures s.buffer == [] && !s.closed
  {
    SinkState([], false)
  }

  /** `push_chunk`: append at the back unless closed. */
  function AfterPush(s: SinkState, c: Chunk): (t: SinkState)
    ensures t.closed == s.closed
    ensures s.closed ==> t.buffer == s.buffer
    ensures !s.closed ==> |t.buffer| == |s.buffer| + 1 && t.buffer[..|s.buffer|] == s.buffer && t.buffer[|s.buffer|] == c
  {
    if s.closed then s else s.(buffer := s.buffer + [c])
  }

  /** `clear`: drop every buffered chunk, keep the flag. */
  function AfterClear(s: SinkState): (t: SinkState)
    ensures t.buffer == [] && t.closed == s.closed
  {
    s.(buffer := [])
  }

  /** `close`: set the flag, keep the buffered chunks. */
  function AfterClose(s: SinkState): (t: SinkState)
    ensures t.closed && t.buffer == s.buffer
  {
    s.(closed := true)
  }

  /** Pushing a sequence of chunks one after the other. */
  function AfterPushes(s: SinkState, cs: seq<Chunk>): SinkState
    decreases |cs|
  {
    if cs == [] then s else AfterPushes(AfterPush(s, cs[0]), cs[1..])
  }

  /** On an open sink the buffer receives the chunks in push order. */
  lemma {:induction false} PushesAppendInOrder(s: SinkState, cs: seq<Chunk>)
    requires !s.closed
    ensures AfterPushes(s, cs) == SinkState(s.buffer + cs, false)
    decreases |cs|
  {
    if cs != [] {
      PushesAppendInOrder(AfterPush(s, cs[0]), cs[1..]);
      assert s.buffer + [cs[0]] + cs[1..] == s.buffer + cs;
    }
  }

  /** On a closed sink no push changes anything. */
  lemma {:induction false} ClosedIgnoresPushes(s: SinkState, cs: seq<Chunk>)
    requires s.closed
    ensures AfterPushes(s, cs) == s
    decreases |cs|
  {
    if cs != [] {
      ClosedIgnoresPushes(AfterPush(s, cs[0]), cs[1..]);
    }
  }

  /** Closing twice is the same as closing once. */
  lemma CloseIdempotent(s: SinkState)
    ensures AfterClose(AfterClose(s)) == AfterClose(s)
  {
  }

  /** After `close`, whatever is pushed, the buffer only keeps what was already
      there (a following `clear` can still empty it). */
  lemma {:induction false} CloseFreezesBuffer(s: SinkState, cs: seq<Chunk>)
    ensures AfterPushes(AfterClose(s), cs).buffer == s.buffer
    ensures AfterClear(AfterPushes(AfterClose(s), cs)).buffer == []
  {
    ClosedIgnoresPushes(AfterClose(s), cs);
  }

  class BaseAudioSink {
    const sampleRate: int
    const channels: nat
    const dtype: string
    const blocksize: Option<int>
    var buffer: seq<Chunk>
    var closed: bool

    function State(): SinkState
      reads this
    {
      SinkState(buffer, closed)
    }

    /** Allocates a sink in its initial state; `Create` performs the dtype
        check of `__init__` first. */
    constructor (sampleRate: int, channels: nat, dtype: string, blocksize: Option<int>)
      ensures this.sampleRate == sampleRate && this.channels == channels
      ensures this.dtype == dtype && this.blocksize == blocksize
      ensures State() == Initial()
    {
      this.sampleRate := sampleRate;
      this.channels := channels;
      this.dtype := dtype;
      this.blocksize := blocksize;
      buffer := [];
      closed := false;
    }

    /** `BaseAudioSink.__init__`: ValueError unless the dtype is 'int16'. */
    static method Create(sampleRate: int, channels: nat, dtype: string, blocksize: Option<int>)
      returns (r: Result<BaseAudioSink>)
      ensures r.Err? <==> dtype != "int16"
      ensures r.Err? ==> r.error == ValueError
      ensures r.Ok? ==> fresh(r.value) && r.value.State() == Initial()
      ensures r.Ok? ==> r.value.sampleRate == sampleRate && r.value.channels == channels
      ensures r.Ok? ==> r.value.dtype == dtype && r.value.blocksize == blocksize
    {
      if dtype != "int16" {
        return Err(ValueError);
      }
      var s := new BaseAudioSink(sampleRate, channels, dtype, blocksize);
      r := Ok(s);
    }

    /** `push_chunk`. */
    method PushChunk(c: Chunk)
      modifies this`buffer
      ensures State() == AfterPush(old(State()), c)
    {
      if closed {
        return;
      }
      buffer := buffer + [c];
    }

    /** `clear`. */
    method Clear()
      modifies this`buffer
      ensures State() == AfterClear(old(State()))
    {
      buffer := [];
    }

    /** `close`. */
    method Close()
      modifies this`closed
      ensures State() == AfterClose(old(State()))
    {
      closed := true;
    }
  }
}
