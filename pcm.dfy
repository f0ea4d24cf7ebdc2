/** Raw PCM data as the components exchange it: bytes, 16-bit signed samples
    in little-endian order (numpy's `int16` on the supported platforms),
    frames of one sample per channel, and the numpy dtypes the format
    converter distinguishes. */
module Pcm {

  import opened Py

  type Byte = b: int | 0 <= b < 256

  /** A value representable as numpy `int16`. */
  type Sample = x: int | -32768 <= x <= 32767

  /** One sample per channel at a single time instant. */
  type Frame = seq<Sample>

  /** A chunk as a sink buffers it: a sequence of frames (the rows of a
      frames x channels array). */
  type Chunk = seq<Frame>

  /** The sample encodings the format converter distinguishes. */
  datatype Dtype = Int8 | Int16 | Int32 | UInt8 | Float32 | Float64

  predicate IsInteger(d: Dtype)
  {
    d.Int8? || d.Int16? || d.Int32? || d.UInt8?
  }

  /** `np.iinfo(d).max` for the integer encodings. */
  function IntMax(d: Dtype): (m: nat)
    requires IsInteger(d)
    ensures m > 0
  {
    match d
    case Int8 => 127
    case Int16 => 32767
    case Int32 => 2147483647
    case UInt8 => 255
  }

  /** `np.dtype(d).itemsize`. */
  function ItemSize(d: Dtype): (n: nat)
    ensures n > 0
  {
    match d
    case Int8 => 1
    case UInt8 => 1
    case Int16 => 2
    case Int32 => 4
    case Float32 => 4
    case Float64 => 8
  }

  // ---------------------------------------------------------------------
  // int16 little-endian codec: ndarray.tobytes() and np.frombuffer(b, int16)

  function EncodeSample(x: Sample): (r: seq<Byte>)
    ensures |r| == 2
  {
    var u := if x < 0 then x + 65536 else x;
    [u % 256, u / 256]
  }

  function DecodeSample(lo: Byte, hi: Byte): (x: Sample)
  {
    var u := lo + 256 * hi;
    if u >= 32768 then u - 65536 else u
  }

  lemma SampleRoundTrip(x: Sample)
    ensures DecodeSample(EncodeSample(x)[0], EncodeSample(x)[1]) == x
  {
  }

  lemma BytesRoundTrip(lo: Byte, hi: Byte)
    ensures EncodeSample(DecodeSample(lo, hi)) == [lo, hi]
  {
  }

  /** `samples.tobytes()` for an int16 array. */
  function EncodeSamples(xs: seq<Sample>): (r: seq<Byte>)
    ensures |r| == 2 * |xs|
  {
    if xs == [] then [] else EncodeSample(xs[0]) + EncodeSamples(xs[1..])
  }

  /** `np.frombuffer(b, dtype=np.int16)`: None where numpy raises ValueError
      because the length is not a multiple of two. */
  function DecodeSamples(b: seq<Byte>): (r: Option<seq<Sample>>)
    decreases |b|
  {
    if |b| % 2 != 0 then None
    else if b == [] then Some([])
    else
      match DecodeSamples(b[2..])
      case Some(rest) => Some([DecodeSample(b[0], b[1])] + rest)
      case None => None
  }

  lemma {:induction false} DecodeSamplesDefined(b: seq<Byte>)
    ensures DecodeSamples(b).Some? <==> |b| % 2 == 0
    ensures DecodeSamples(b).Some? ==> 2 * |DecodeSamples(b).value| == |b|
    decreases |b|
  {
    if |b| % 2 == 0 && b != [] {
      DecodeSamplesDefined(b[2..]);
    }
  }

  /** Decoding what was encoded gives the samples back. */
  lemma {:induction false} DecodeEncode(xs: seq<Sample>)
    ensures DecodeSamples(EncodeSamples(xs)) == Some(xs)
  {
    if xs != [] {
      var b := EncodeSamples(xs);
      SampleRoundTrip(xs[0]);
      assert b[0] == EncodeSample(xs[0])[0] && b[1] == EncodeSample(xs[0])[1];
      assert b[2..] == EncodeSamples(xs[1..]);
      DecodeEncode(xs[1..]);
      assert [xs[0]] + xs[1..] == xs;
    }
  }

  /** Encoding what was decoded gives the bytes back. */
  lemma {:induction false} EncodeDecode(b: seq<Byte>)
    requires |b| % 2 == 0
    ensures DecodeSamples(b).Some? && EncodeSamples(DecodeSamples(b).value) == b
    decreases |b|
  {
    if b != [] {
      EncodeDecode(b[2..]);
      BytesRoundTrip(b[0], b[1]);
      var xs := DecodeSamples(b).value;
      assert xs[1..] == DecodeSamples(b[2..]).value;
      assert b == [b[0], b[1]] + b[2..];
    }
  }

  // ---------------------------------------------------------------------
  // Frames

  /** All frames of a sequence of chunks, in order. */
  function Flatten(chunks: seq<Chunk>): (r: seq<Frame>)
  {
    if chunks == [] then [] else chunks[0] + Flatten(chunks[1..])
  }

  /** All samples of a chunk in row-major order. */
  function Samples(c: Chunk): (r: seq<Sample>)
  {
    if c == [] then [] else c[0] + Samples(c[1..])
  }

  /** `chunk.tobytes()` for an int16 frames x channels array. */
  function ChunkBytes(c: Chunk): (r: seq<Byte>)
    ensures |r| == 2 * |Samples(c)|
  {
    EncodeSamples(Samples(c))
  }

  /** A row of `channels` zero samples. */
  function Silence(channels: nat): (f: Frame)
    ensures |f| == channels && forall j :: 0 <= j < channels ==> f[j] == 0
  {
    seq(channels, _ => 0)
  }

  lemma {:induction false} FlattenAppend(a: seq<Chunk>, b: seq<Chunk>)
    ensures Flatten(a + b) == Flatten(a) + Flatten(b)
  {
    if a == [] {
      assert a + b == b;
    } else {
      assert (a + b)[1..] == a[1..] + b;
      FlattenAppend(a[1..], b);
    }
  }

  // ---------------------------------------------------------------------
  // Reshaping

  /** Consecutive rows of `c` samples; None when the last row would be
      short. */
  function Split(xs: seq<Sample>, c: nat): (r: Option<seq<Frame>>)
    requires c > 0
    ensures r.Some? ==> forall i :: 0 <= i < |r.value| ==> |r.value[i]| == c
    decreases |xs|
  {
    if xs == [] then Some([])
    else if |xs| < c then None
    else
      match Split(xs[c..], c)
      case None => None
      case Some(rest) => Some([xs[..c]] + rest)
  }

  /** `chunk.reshape(-1, c)`: None where numpy raises ValueError (no
      columns, or a sample count that is not a multiple of `c`). */
  function Reshape(chunk: Chunk, c: nat): (r: Option<seq<Frame>>)
    ensures r.Some? ==> c > 0 && forall i :: 0 <= i < |r.value| ==> |r.value[i]| == c
  {
    if c == 0 then None else Split(Samples(chunk), c)
  }

  /** `reshape(-1, c)` succeeds on `k * c` samples, giving `k` rows, and
      only on a multiple of `c`. */
  lemma {:induction false} SplitDefined(xs: seq<Sample>, c: nat, k: nat)
    requires c > 0
    ensures Split(xs, c).Some? ==> |Split(xs, c).value| * c == |xs|
    ensures k * c == |xs| ==> Split(xs, c).Some? && |Split(xs, c).value| == k
    decreases |xs|
  {
    if xs != [] {
      if k * c == |xs| {
        assert k >= 1;
        assert (k - 1) * c == |xs| - c;
      }
      if |xs| >= c {
        SplitDefined(xs[c..], c, if k >= 1 then k - 1 else 0);
        if Split(xs, c).Some? {
          assert |Split(xs, c).value| * c == (|Split(xs[c..], c).value| + 1) * c;
        }
      } else {
        assert k * c == |xs| ==> k == 0;
      }
    }
  }

  /** Reshaping keeps every sample, in order. */
  lemma {:induction false} SamplesOfSplit(xs: seq<Sample>, c: nat)
    requires c > 0 && Split(xs, c).Some?
    ensures Samples(Split(xs, c).value) == xs
    decreases |xs|
  {
    if xs != [] {
      SamplesOfSplit(xs[c..], c);
      var rows := Split(xs, c).value;
      assert rows[0] == xs[..c] && rows[1..] == Split(xs[c..], c).value;
      assert xs[..c] + xs[c..] == xs;
    }
  }

  /** A chunk that already has `c` columns reshapes to itself. */
  lemma {:induction false} SplitOfRows(chunk: Chunk, c: nat)
    requires c > 0
    requires forall i :: 0 <= i < |chunk| ==> |chunk[i]| == c
    ensures Split(Samples(chunk), c) == Some(chunk)
    decreases |chunk|
  {
    if chunk != [] {
      var rest := chunk[1..];
      SplitOfRows(rest, c);
      var xs := Samples(chunk);
      assert xs == chunk[0] + Samples(rest);
      assert xs[..c] == chunk[0];
      assert xs[c..] == Samples(rest);
      assert [chunk[0]] + rest == chunk;
    }
  }

  /** A chunk of `channels` columns reshapes to itself, and reshaping never
      loses or reorders samples. */
  lemma ReshapeKeepsChunk(chunk: Chunk, channels: nat)
    ensures channels > 0 && (forall i :: 0 <= i < |chunk| ==> |chunk[i]| == channels) ==>
              Reshape(chunk, channels) == Some(chunk)
    ensures Reshape(chunk, channels).Some? ==> Samples(Reshape(chunk, channels).value) == Samples(chunk)
  {
    if channels > 0 {
      if forall i :: 0 <= i < |chunk| ==> |chunk[i]| == channels {
        SplitOfRows(chunk, channels);
      }
      if Reshape(chunk, channels).Some? {
        SamplesOfSplit(Samples(chunk), channels);
      }
    }
  }
}
