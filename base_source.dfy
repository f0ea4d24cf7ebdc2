/** The source base class: the callable sink a source forwards chunks to, the
    native and output formats, and the format converter that `convert_output`
    installs in front of the original sink. */
module BaseSource {

  import opened Py
  import opened Pcm

  // ---------------------------------------------------------------------
  // Arrays as the converter sees them

  /** The values of a 1-D array, or of a 2-D array with `width` columns.
      Samples of every dtype are held as reals; integer dtypes hold
      integral values. */
  datatype Signal =
    | Flat(xs: seq<real>)
    | Rows(width: nat, rows: seq<seq<real>>)

  predicate WellFormed(s: Signal)
  {
    s.Rows? ==> s.width > 0 && forall i :: 0 <= i < |s.rows| ==> |s.rows[i]| == s.width
  }

  /** `len(a)`: the extent of axis 0. */
  function Frames(s: Signal): nat
  {
    if s.Flat? then |s.xs| else |s.rows|
  }

  /** Same rank and, for 2-D arrays, the same number of columns. */
  predicate SameLayout(s: Signal, t: Signal)
  {
    s.Flat? == t.Flat? && (s.Rows? ==> t.width == s.width)
  }

  /** A numpy array: its dtype and its values. */
  datatype ArrayChunk = ArrayChunk(dtype: Dtype, signal: Signal)

  /** `np.frombuffer(data, dtype=np.int16)` once decoded: a 1-D int16 array. */
  function Int16Chunk(samples: seq<Sample>): (c: ArrayChunk)
    ensures c.dtype == Int16 && c.signal.Flat? && |c.signal.xs| == |samples|
    ensures forall i :: 0 <= i < |samples| ==> c.signal.xs[i] == samples[i] as real
  {
    ArrayChunk(Int16, Flat(seq(|samples|, i requires 0 <= i < |samples| => samples[i] as real)))
  }

  /** An element-wise operation on an array. */
  function MapSignal(s: Signal, f: real -> real): (r: Signal)
    ensures SameLayout(s, r) && Frames(r) == Frames(s)
    ensures WellFormed(s) ==> WellFormed(r)
    ensures r.Flat? ==> forall i :: 0 <= i < |r.xs| ==> r.xs[i] == f(s.xs[i])
    ensures r.Rows? ==> forall i :: 0 <= i < |r.rows| ==> |r.rows[i]| == |s.rows[i]|
    ensures r.Rows? ==> forall i, j :: 0 <= i < |r.rows| && 0 <= j < |r.rows[i]| ==> r.rows[i][j] == f(s.rows[i][j])
  {
    match s
    case Flat(xs) => Flat(seq(|xs|, i requires 0 <= i < |xs| => f(xs[i])))
    case Rows(w, rows) =>
      Rows(w, seq(|rows|, i requires 0 <= i < |rows| =>
        seq(|rows[i]|, j requires 0 <= j < |rows[i]| => f(rows[i][j]))))
  }

  /** Truncation toward zero, as `int(x)` and `astype(int)` do. */
  function Trunc(x: real): (n: int)
    ensures x >= 0.0 ==> n as real <= x < n as real + 1.0
    ensures x < 0.0 ==> n as real - 1.0 < x <= n as real
  {
    if x >= 0.0 then x.Floor else -((-x).Floor)
  }

  /** `int(a / b)` for integers: true division followed by truncation
      toward zero. */
  function TruncDiv(a: int, b: int): (q: int)
    requires b != 0
    ensures a >= 0 && b > 0 ==> q * b <= a < (q + 1) * b
  {
    var m := (if a >= 0 then a else -a) / (if b > 0 then b else -b);
    if (a >= 0) == (b > 0) then m else -m
  }

  // ---------------------------------------------------------------------
  // The conversion pipeline

  /** `scipy.signal.resample(x, n)` is not modelled beyond its shape law: the
      result has `n` entries along axis 0 and the layout of its input. */
  type Resampler = f: (Signal, nat) -> Signal
    | forall s: Signal, n: nat :: WellFormed(s) ==>
        WellFormed(f(s, n)) && Frames(f(s, n)) == n && SameLayout(s, f(s, n))
    witness ZeroResampler

  /** A resampler producing silence of the requested length. */
  function ZeroResampler(s: Signal, n: nat): (r: Signal)
    ensures WellFormed(s) ==> WellFormed(r)
    ensures Frames(r) == n && SameLayout(s, r)
  {
    match s
    case Flat(_) => Flat(seq(n, _ => 0.0))
    case Rows(w, _) => Rows(w, seq(n, _ => seq(w, _ => 0.0)))
  }

  /** A source's format: sample rate, channel count and dtype. The rate is an
      arbitrary Python value because a constructor may put a callback there. */
  datatype Format = Format(rate: Value, channels: int, dtype: Dtype)

  /** Python's `v == n` for an integer `n`: numbers compare by value (`True`
      is 1), everything else is unequal. */
  predicate EqualsInt(v: Value, n: int)
  {
    match v
    case IntV(i) => i == n
    case BoolV(b) => (if b then 1 else 0) == n
    case _ => false
  }

  /** The value of a rate in arithmetic; None where `int / rate` raises
      TypeError. */
  function AsNumber(v: Value): (r: Option<int>)
    ensures r.Some? <==> v.IntV? || v.BoolV?
    ensures forall n: int :: r == Some(n) <==> EqualsInt(v, n)
  {
    match v
    case IntV(i) => Some(i)
    case BoolV(b) => Some(if b then 1 else 0)
    case _ => None
  }

  /** What `convert_output` decided: which steps run, and the targets. */
  datatype Plan = Plan(
    needsResampling: bool,
    needsDtypeConversion: bool,
    needsChannelConversion: bool,
    targetRate: int,
    targetDtype: Dtype,
    targetChannels: int)

  /** `target_channels or self._source_channels`: an absent or zero channel
      count means the native one. */
  function EffectiveChannels(native: int, target: Option<int>): (c: int)
    ensures target.Some? && target.value != 0 ==> c == target.value
    ensures target.None? || target == Some(0) ==> c == native
  {
    if target.None? || target.value == 0 then native else target.value
  }

  /** The steps `convert_output` selects for a source of format `native`. */
  function PlanFor(native: Format, rate: int, dtype: Dtype, channels: Option<int>): (p: Plan)
    ensures p.needsResampling <==> !EqualsInt(native.rate, rate)
    ensures p.needsDtypeConversion <==> native.dtype != dtype
    ensures p.needsChannelConversion <==> native.channels != EffectiveChannels(native.channels, channels)
    ensures p.targetRate == rate && p.targetDtype == dtype
    ensures p.targetChannels == EffectiveChannels(native.channels, channels)
  {
    var c := EffectiveChannels(native.channels, channels);
    Plan(!EqualsInt(native.rate, rate), native.dtype != dtype, native.channels != c, rate, dtype, c)
  }

  predicate IsIdentity(p: Plan)
  {
    !p.needsResampling && !p.needsDtypeConversion && !p.needsChannelConversion
  }

  /** Step 1: integers are scaled by `1 / (max + 1)`; floats are kept. */
  function Normalize(c: ArrayChunk): (w: Signal)
    ensures SameLayout(c.signal, w) && Frames(w) == Frames(c.signal)
    ensures WellFormed(c.signal) ==> WellFormed(w)
    ensures !IsInteger(c.dtype) ==> w == c.signal
    ensures IsInteger(c.dtype) && w.Flat? ==>
              forall i :: 0 <= i < |w.xs| ==> w.xs[i] == c.signal.xs[i] / (IntMax(c.dtype) + 1) as real
    ensures IsInteger(c.dtype) && w.Rows? ==> forall i :: 0 <= i < |w.rows| ==> |w.rows[i]| == |c.signal.rows[i]|
    ensures IsInteger(c.dtype) && w.Rows? ==>
              forall i, j :: 0 <= i < |w.rows| && 0 <= j < |w.rows[i]| ==>
                w.rows[i][j] == c.signal.rows[i][j] / (IntMax(c.dtype) + 1) as real
  {
    if IsInteger(c.dtype) then
      var scale := (IntMax(c.dtype) + 1) as real;
      MapSignal(c.signal, x => x / scale)
    else c.signal
  }

  /** Step 2: `int(len * target / source)` entries, or an empty 1-D array
      when that is not positive. */
  function Resample(w: Signal, sourceRate: Value, targetRate: int, f: Resampler): (r: Result<Signal>)
    requires WellFormed(w)
    ensures AsNumber(sourceRate).None? ==> r == Err(TypeError)
    ensures AsNumber(sourceRate) == Some(0) ==> r == Err(ZeroDivisionError)
    ensures AsNumber(sourceRate).Some? && AsNumber(sourceRate).value != 0 ==> r.Ok?
    ensures r.Ok? ==> WellFormed(r.value)
    ensures r.Ok? ==> var n := TruncDiv(Frames(w) * targetRate, AsNumber(sourceRate).value);
                      if n > 0 then Frames(r.value) == n && SameLayout(w, r.value) else r.value == Flat([])
  {
    match AsNumber(sourceRate)
    case None => Err(TypeError)
    case Some(sr) =>
      if sr == 0 then Err(ZeroDivisionError)
      else
        var n := TruncDiv(Frames(w) * targetRate, sr);
        if n > 0 then Ok(f(w, n)) else Ok(Flat([]))
  }

  /** `np.stack([w, w], axis=-1)`: every value is doubled along a new last
      axis. A 2-D input gives a 3-D array; it is held with its last two axes
      merged, so each row is the input row with every value repeated. */
  function Duplicate(w: Signal): (r: Signal)
    ensures r.Rows? && Frames(r) == Frames(w)
    ensures WellFormed(w) ==> WellFormed(r)
    ensures w.Flat? ==> r.width == 2 && forall i :: 0 <= i < |r.rows| ==> r.rows[i] == [w.xs[i], w.xs[i]]
    ensures w.Rows? ==> r.width == 2 * w.width
  {
    match w
    case Flat(xs) => Rows(2, seq(|xs|, i requires 0 <= i < |xs| => [xs[i], xs[i]]))
    case Rows(width, rows) =>
      Rows(2 * width, seq(|rows|, i requires 0 <= i < |rows| =>
        seq(2 * |rows[i]|, j requires 0 <= j < 2 * |rows[i]| => rows[i][j / 2])))
  }

  function Sum(xs: seq<real>): real
  {
    if xs == [] then 0.0 else xs[0] + Sum(xs[1..])
  }

  function Mean(xs: seq<real>): (m: real)
    requires |xs| > 0
  {
    Sum(xs) / |xs| as real
  }

  /** `w.mean(axis=1)`: AxisError on a 1-D array. */
  function MeanOfRows(w: Signal): (r: Result<Signal>)
    requires WellFormed(w)
    ensures w.Flat? <==> r == Err(AxisError)
    ensures r.Ok? ==> r.value.Flat? && |r.value.xs| == Frames(w)
    ensures r.Ok? ==> forall i :: 0 <= i < |r.value.xs| ==> r.value.xs[i] == Mean(w.rows[i])
  {
    match w
    case Flat(_) => Err(AxisError)
    case Rows(_, rows) => Ok(Flat(seq(|rows|, i requires 0 <= i < |rows| => Mean(rows[i]))))
  }

  /** Step 3: mono to stereo duplicates, stereo to mono averages, any other
      pair of channel counts passes the array through. */
  function Remap(w: Signal, sourceChannels: int, targetChannels: int): (r: Result<Signal>)
    requires WellFormed(w)
    ensures sourceChannels == 1 && targetChannels == 2 ==> r == Ok(Duplicate(w))
    ensures sourceChannels == 2 && targetChannels == 1 ==> r == MeanOfRows(w)
    ensures !(sourceChannels == 1 && targetChannels == 2) && !(sourceChannels == 2 && targetChannels == 1) ==> r == Ok(w)
    ensures r.Ok? ==> WellFormed(r.value)
  {
    if sourceChannels == 1 && targetChannels == 2 then Ok(Duplicate(w))
    else if sourceChannels == 2 && targetChannels == 1 then MeanOfRows(w)
    else Ok(w)
  }

  /** Step 4: integer targets are `(w * max).astype(target)` with no clipping;
      float targets keep the values. */
  function Requantize(w: Signal, target: Dtype): (c: ArrayChunk)
    ensures c.dtype == target && SameLayout(w, c.signal) && Frames(c.signal) == Frames(w)
    ensures WellFormed(w) ==> WellFormed(c.signal)
    ensures !IsInteger(target) ==> c.signal == w
    ensures IsInteger(target) && w.Flat? ==>
              forall i :: 0 <= i < |w.xs| ==> c.signal.xs[i] == Trunc(w.xs[i] * IntMax(target) as real) as real
    ensures IsInteger(target) && w.Rows? ==> forall i :: 0 <= i < |w.rows| ==> |c.signal.rows[i]| == |w.rows[i]|
    ensures IsInteger(target) && w.Rows? ==>
              forall i, j :: 0 <= i < |w.rows| && 0 <= j < |w.rows[i]| ==>
                c.signal.rows[i][j] == Trunc(w.rows[i][j] * IntMax(target) as real) as real
  {
    if IsInteger(target) then
      var m := IntMax(target) as real;
      ArrayChunk(target, MapSignal(w, x => Trunc(x * m) as real))
    else ArrayChunk(target, w)
  }

  /** What reaches the original sink for one chunk. */
  datatype Outcome =
    | Forward(chunk: ArrayChunk)   // the original sink was called with this array
    | Dropped                      // the converted array was empty
    | Raised(error: Error)         // a step raised; the original sink was not called

  /** `conversion_wrapper(chunk)`: the four steps in order, then the original
      sink unless the result is empty. */
  function Convert(p: Plan, native: Format, f: Resampler, c: ArrayChunk): (o: Outcome)
    requires WellFormed(c.signal)
    ensures o.Forward? ==> Frames(o.chunk.signal) > 0 && WellFormed(o.chunk.signal)
    ensures o.Forward? ==> o.chunk.dtype == p.targetDtype
  {
    var w1 := Normalize(c);
    var w2 := if p.needsResampling then Resample(w1, native.rate, p.targetRate, f) else Ok(w1);
    if w2.Err? then Raised(w2.error)
    else
      var w3 := if p.needsChannelConversion then Remap(w2.value, native.channels, p.targetChannels) else w2;
      if w3.Err? then Raised(w3.error)
      else
        var out := Requantize(w3.value, p.targetDtype);
        if Frames(out.signal) > 0 then Forward(out) else Dropped
  }

  /** The error the resampling step raises when it runs: `int / rate` on a
      rate that is not a number, or a zero rate. */
  function RateError(p: Plan, native: Format): (e: Option<Error>)
    ensures e.Some? ==> p.needsResampling
    ensures e.Some? <==> p.needsResampling && (AsNumber(native.rate).None? || AsNumber(native.rate) == Some(0))
  {
    if !p.needsResampling then None
    else
      match AsNumber(native.rate)
      case None => Some(TypeError)
      case Some(r) => if r == 0 then Some(ZeroDivisionError) else None
  }

  /** Whether the channel step averages stereo down to mono. */
  predicate Downmixes(p: Plan, native: Format)
  {
    p.needsChannelConversion && native.channels == 2 && p.targetChannels == 1
  }

  /** The length of axis 0 once the resampling step has run. */
  function ResampledFrames(p: Plan, native: Format, s: Signal): nat
    requires RateError(p, native).None?
  {
    if !p.needsResampling then Frames(s)
    else
      var n := TruncDiv(Frames(s) * p.targetRate, AsNumber(native.rate).value);
      if n > 0 then n else 0
  }

  /** The error `conversion_wrapper` raises on an array, if any: the rate
      step's, or AxisError for a downmix of an array that is 1-D after
      resampling (a 1-D input, or a resampled length that is not positive). */
  function ConvertError(p: Plan, native: Format, s: Signal): (e: Option<Error>)
  {
    if RateError(p, native).Some? then RateError(p, native)
    else if Downmixes(p, native) && (s.Flat? || (p.needsResampling && ResampledFrames(p, native, s) == 0)) then
      Some(AxisError)
    else None
  }

  // ---------------------------------------------------------------------
  // Properties of the pipeline

  /** The outcome of `conversion_wrapper` on any array: it raises exactly
      the error ConvertError names; otherwise it forwards the resampled
      number of frames when that is positive and drops the chunk when not. */
  lemma ConvertOutcome(p: Plan, native: Format, f: Resampler, c: ArrayChunk)
    requires WellFormed(c.signal)
    ensures var o, e := Convert(p, native, f, c), ConvertError(p, native, c.signal);
            (o.Raised? <==> e.Some?) && (o.Raised? ==> o.error == e.value)
    ensures var o, e := Convert(p, native, f, c), ConvertError(p, native, c.signal);
            e.None? ==> (o.Forward? <==> ResampledFrames(p, native, c.signal) > 0) &&
                        (o.Forward? ==> Frames(o.chunk.signal) == ResampledFrames(p, native, c.signal)) &&
                        (!o.Forward? ==> o == Dropped)
  {
    var w1 := Normalize(c);
    assert SameLayout(c.signal, w1) && Frames(w1) == Frames(c.signal) && WellFormed(w1);
    if p.needsResampling && RateError(p, native).None? {
      var w2 := Resample(w1, native.rate, p.targetRate, f);
      assert w2.Ok? && Frames(w2.value) == ResampledFrames(p, native, c.signal);
      assert w2.value.Flat? <==> c.signal.Flat? || ResampledFrames(p, native, c.signal) == 0;
    }
  }

  /** The resampled length is the floor of `len * target / source` for
      positive rates; 480 frames from 16000 Hz to 48000 Hz give 1440. */
  lemma ResampleLengthIsFloor(w: Signal, sourceRate: int, targetRate: int, f: Resampler)
    requires WellFormed(w) && sourceRate > 0 && targetRate > 0 && Frames(w) > 0
    ensures Resample(w, IntV(sourceRate), targetRate, f).Ok?
    ensures var n := Frames(w) * targetRate / sourceRate;
            (n > 0 ==> Frames(Resample(w, IntV(sourceRate), targetRate, f).value) == n) &&
            (n == 0 ==> Resample(w, IntV(sourceRate), targetRate, f).value == Flat([]))
  {
  }

  lemma ResampleExample(f: Resampler)
    ensures Frames(Resample(Flat(seq(480, _ => 0.0)), IntV(16000), 48000, f).value) == 1440
  {
    ResampleLengthIsFloor(Flat(seq(480, _ => 0.0)), 16000, 48000, f);
  }

  /** Downmixing a pair averages it. */
  lemma MeanOfPair(a: real, b: real)
    ensures Mean([a, b]) == (a + b) / 2.0
  {
    assert [a, b][1..] == [b];
    assert [b][1..] == [];
    assert Sum([b]) == b;
    assert Sum([a, b]) == a + Sum([b]);
  }

  /** Stereo rows become their averages; a 1-D array cannot be downmixed. */
  lemma DownmixAverages(w: Signal)
    requires WellFormed(w)
    ensures w.Rows? && w.width == 2 ==>
              (Remap(w, 2, 1).Ok? &&
               forall i :: 0 <= i < |w.rows| ==> Remap(w, 2, 1).value.xs[i] == (w.rows[i][0] + w.rows[i][1]) / 2.0)
    ensures w.Flat? ==> Remap(w, 2, 1) == Err(AxisError)
  {
    if w.Rows? && w.width == 2 {
      forall i | 0 <= i < |w.rows|
        ensures Mean(w.rows[i]) == (w.rows[i][0] + w.rows[i][1]) / 2.0
      {
        assert w.rows[i] == [w.rows[i][0], w.rows[i][1]];
        MeanOfPair(w.rows[i][0], w.rows[i][1]);
      }
    }
  }

  /** An int16 sample normalized and requantized to int16 is scaled by
      32767/32768 and truncated: it never grows in magnitude, stays within
      -32767..32766, and full scale loses one step. */
  lemma Int16Requantization(x: Sample)
    ensures var y := Trunc((x as real / 32768.0) * 32767.0);
            Requantize(Normalize(Int16Chunk([x])), Int16).signal == Flat([y as real])
    ensures var y := Trunc((x as real / 32768.0) * 32767.0);
            -32767 <= y <= 32766 && (x >= 0 ==> 0 <= y <= x) && (x <= 0 ==> x <= y <= 0)
    ensures x == 32767 ==> Trunc((x as real / 32768.0) * 32767.0) == 32766
    ensures x == -32768 ==> Trunc((x as real / 32768.0) * 32767.0) == -32767
  {
    var w := Normalize(Int16Chunk([x]));
    assert w.Flat? && |w.xs| == 1 && w.xs[0] == x as real / 32768.0;
  }

  /** A mono int16 chunk converted to stereo int16 at the same rate: each
      sample becomes a row of two requantized copies. */
  lemma MonoToStereoInt16(native: Format, f: Resampler, samples: seq<Sample>)
    requires native.dtype == Int16 && native.channels == 1 && samples != []
    requires native.rate.IntV?
    ensures var p := PlanFor(native, native.rate.i, Int16, Some(2));
            var o := Convert(p, native, f, Int16Chunk(samples));
            o.Forward? && o.chunk.dtype == Int16 && o.chunk.signal.Rows? && o.chunk.signal.width == 2 &&
            |o.chunk.signal.rows| == |samples| &&
            forall i :: 0 <= i < |samples| ==>
              var y := Trunc((samples[i] as real / 32768.0) * 32767.0) as real;
              o.chunk.signal.rows[i] == [y, y]
  {
    var p := PlanFor(native, native.rate.i, Int16, Some(2));
    var c := Int16Chunk(samples);
    var w1 := Normalize(c);
    assert w1.Flat? && |w1.xs| == |samples|;
    var w3 := Duplicate(w1);
    var out := Requantize(w3, Int16);
    assert Convert(p, native, f, c) == Forward(out);
    forall i | 0 <= i < |samples|
      ensures out.signal.rows[i] == [Trunc((samples[i] as real / 32768.0) * 32767.0) as real,
                                     Trunc((samples[i] as real / 32768.0) * 32767.0) as real]
    {
      assert w3.rows[i] == [w1.xs[i], w1.xs[i]];
      assert w1.xs[i] == samples[i] as real / 32768.0;
    }
  }

  /** The identity check: no step is needed exactly when every target equals
      the native format. */
  lemma IdentityIffNative(native: Format, rate: int, dtype: Dtype, channels: Option<int>)
    ensures IsIdentity(PlanFor(native, rate, dtype, channels)) <==>
      EqualsInt(native.rate, rate) && dtype == native.dtype &&
      EffectiveChannels(native.channels, channels) == native.channels
  {
  }

  // ---------------------------------------------------------------------
  // The source object

  /** What `self.sink` is bound to. */
  datatype SinkBinding =
    | Original              // the sink given to the constructor
    | Converting(plan: Plan) // `conversion_wrapper` over the original sink

  /** The fields `convert_output` sets. */
  datatype OutputState = OutputState(sink: SinkBinding, output: Format, isConverting: bool)

  /** The state `convert_output(rate, dtype, channels)` leaves behind. It
      depends on the native format and the arguments only. */
  function AfterConvert(native: Format, rate: int, dtype: Dtype, channels: Option<int>): (s: OutputState)
    ensures s.sink.Original? <==>
              EqualsInt(native.rate, rate) && dtype == native.dtype &&
              EffectiveChannels(native.channels, channels) == native.channels
    ensures s.sink.Original? ==> s.output == native && !s.isConverting
    ensures s.sink.Converting? ==>
              s.isConverting && s.sink.plan == PlanFor(native, rate, dtype, channels) &&
              s.output == Format(IntV(rate), EffectiveChannels(native.channels, channels), dtype)
  {
    var p := PlanFor(native, rate, dtype, channels);
    if IsIdentity(p) then OutputState(Original, native, false)
    else OutputState(Converting(p), Format(IntV(rate), p.targetChannels, dtype), true)
  }

  datatype Targets = Targets(rate: int, dtype: Dtype, channels: Option<int>)

  /** A run of `convert_output` calls. */
  function AfterConverts(native: Format, s: OutputState, calls: seq<Targets>): OutputState
    decreases |calls|
  {
    if calls == [] then s
    else AfterConverts(native, AfterConvert(native, calls[0].rate, calls[0].dtype, calls[0].channels), calls[1..])
  }

  /** Conversions do not stack: after any run of `convert_output` calls only
      the last one matters, and its wrapper feeds the original sink. */
  lemma {:induction false} LastConvertWins(native: Format, s: OutputState, calls: seq<Targets>)
    requires calls != []
    ensures var last := calls[|calls| - 1];
            AfterConverts(native, s, calls) == AfterConvert(native, last.rate, last.dtype, last.channels)
    decreases |calls|
  {
    if |calls| > 1 {
      LastConvertWins(native, AfterConvert(native, calls[0].rate, calls[0].dtype, calls[0].channels), calls[1..]);
      assert calls[1..][|calls[1..]| - 1] == calls[|calls| - 1];
    }
  }

  /** Converting to the native format restores the original sink. */
  lemma ConvertToNativeRestores(native: Format, rate: int, channels: Option<int>)
    requires EqualsInt(native.rate, rate)
    requires EffectiveChannels(native.channels, channels) == native.channels
    ensures AfterConvert(native, rate, native.dtype, channels) == OutputState(Original, native, false)
  {
  }

  /** What the original sink receives when a source awaits `self.sink(c)`. */
  function AwaitedDelivery(native: Format, b: SinkBinding, f: Resampler, c: ArrayChunk): (o: Outcome)
    requires WellFormed(c.signal)
    ensures b.Original? ==> o == Forward(c)
    ensures b.Converting? ==> o == Convert(b.plan, native, f, c)
  {
    if b.Original? then Forward(c) else Convert(b.plan, native, f, c)
  }

  /** What the original sink receives when a source calls `self.sink(c)`
      without awaiting it: `conversion_wrapper` is a coroutine function, so
      the call only creates a coroutine that never runs. The original sink is
      taken to be a plain function or method, which runs when called. */
  function UnawaitedDelivery(b: SinkBinding, c: ArrayChunk): (o: Option<ArrayChunk>)
    ensures o.Some? <==> b.Original?
    ensures o.Some? ==> o.value == c
  {
    if b.Original? then Some(c) else None
  }

  /** One effect of a source's connection handler, in the order they happen. */
  datatype Call =
    | SinkCall(samples: seq<Sample>)          // `self.sink(chunk)` on a 1-D int16 array, not awaited
    | SinkAwait(dtype: Dtype, data: seq<Byte>) // `await self.sink(np.frombuffer(data, dtype))` that returns
    | MessageCallback(msgType: Option<Json>, payload: Option<Json>) // `on_message_callback(type, payload)`
    | TextCallback(text: string)             // `text_callback(message)`
    | DisconnectCallback                     // `disconnect_callback()`
    | CloseWriter                            // `writer.close()` on a TCP connection

  /** The sample sequences of the sink calls, in order. */
  function SinkPayloads(calls: seq<Call>): seq<seq<Sample>>
    decreases |calls|
  {
    if calls == [] then []
    else if calls[0].SinkCall? then [calls[0].samples] + SinkPayloads(calls[1..])
    else SinkPayloads(calls[1..])
  }

  lemma {:induction false} SinkPayloadsAppend(a: seq<Call>, b: seq<Call>)
    ensures SinkPayloads(a + b) == SinkPayloads(a) + SinkPayloads(b)
    decreases |a|
  {
    if a == [] {
      assert a + b == b;
    } else {
      assert (a + b)[1..] == a[1..] + b;
      SinkPayloadsAppend(a[1..], b);
    }
  }

  /** The arrays `np.frombuffer` gives for sample sequences. */
  function Int16Chunks(xss: seq<seq<Sample>>): (cs: seq<ArrayChunk>)
  {
    seq(|xss|, i requires 0 <= i < |xss| => Int16Chunk(xss[i]))
  }

  /** What the original sink receives from a handler's unawaited sink calls,
      in order, while `self.sink` is bound as `b`. */
  function Delivered(b: SinkBinding, calls: seq<Call>): seq<ArrayChunk>
    decreases |calls|
  {
    if calls == [] then []
    else if calls[0].SinkCall? && UnawaitedDelivery(b, Int16Chunk(calls[0].samples)).Some? then
      [UnawaitedDelivery(b, Int16Chunk(calls[0].samples)).value] + Delivered(b, calls[1..])
    else Delivered(b, calls[1..])
  }

  /** Unawaited sink calls reach the original sink, each as the int16 array
      of its samples, only while no conversion is installed; behind
      `conversion_wrapper` nothing arrives at all. */
  lemma {:induction false} UnawaitedCallsArrive(b: SinkBinding, calls: seq<Call>)
    ensures Delivered(b, calls) == if b.Original? then Int16Chunks(SinkPayloads(calls)) else []
    decreases |calls|
  {
    if calls != [] {
      UnawaitedCallsArrive(b, calls[1..]);
      if b.Original? && calls[0].SinkCall? {
        assert SinkPayloads(calls) == [calls[0].samples] + SinkPayloads(calls[1..]);
        assert Int16Chunks(SinkPayloads(calls)) == [Int16Chunk(calls[0].samples)] + Int16Chunks(SinkPayloads(calls[1..]));
      }
    }
  }

  /** Whether awaiting `self.sink` on a 1-D array raises: the wrapper's rate
      step fails, or it downmixes, which needs a 2-D array. */
  predicate AwaitRaises(native: Format, b: SinkBinding)
  {
    b.Converting? && (RateError(b.plan, native).Some? || Downmixes(b.plan, native))
  }

  /** On a 1-D array, whether an awaited sink call raises depends on the
      binding and the native format only, never on the samples. */
  lemma AwaitRaisesOnFlat(native: Format, b: SinkBinding, f: Resampler, c: ArrayChunk)
    requires c.signal.Flat?
    ensures AwaitedDelivery(native, b, f, c).Raised? <==> AwaitRaises(native, b)
  {
    if b.Converting? {
      ConvertOutcome(b.plan, native, f, c);
    }
  }

  /** `if self.disconnect_callback: self.disconnect_callback()`. */
  function DisconnectCalls(disconnectCallback: Value): (calls: seq<Call>)
    ensures calls == [] <==> !Truthy(disconnectCallback)
    ensures calls != [] ==> calls == [DisconnectCallback]
  {
    if Truthy(disconnectCallback) then [DisconnectCallback] else []
  }

  class BaseAudioSource {
    const originalSink: Value
    const disconnectCallback: Value
    const blocksize: Option<int>
    const native: Format
    var sink: SinkBinding
    var output: Format
    var isConverting: bool

    function State(): OutputState
      reads this
    {
      OutputState(sink, output, isConverting)
    }

    /** The fields `convert_output` sets agree with each other. */
    predicate Valid()
      reads this
    {
      isConverting == sink.Converting? &&
      (sink.Original? ==> output == native) &&
      (sink.Converting? ==> !IsIdentity(sink.plan) && sink.plan.targetChannels == output.channels &&
                            output.rate == IntV(sink.plan.targetRate) && output.dtype == sink.plan.targetDtype)
    }

    constructor (sink: Value, native: Format, disconnectCallback: Value, blocksize: Option<int>)
      ensures originalSink == sink && this.native == native
      ensures this.disconnectCallback == disconnectCallback && this.blocksize == blocksize
      ensures State() == OutputState(Original, native, false) && Valid()
    {
      originalSink := sink;
      this.native := native;
      this.disconnectCallback := disconnectCallback;
      this.blocksize := blocksize;
      this.sink := Original;
      output := native;
      isConverting := false;
    }

    /** `BaseAudioSource.__init__`: TypeError for a sink that is not callable
        or a truthy disconnect callback that is not callable. */
    static method Create(sink: Value, sampleRate: Value, channels: int, dtype: Dtype,
                         disconnectCallback: Value, blocksize: Option<int>)
      returns (r: Result<BaseAudioSource>)
      ensures r.Err? <==> !Callable(sink) || (Truthy(disconnectCallback) && !Callable(disconnectCallback))
      ensures r.Err? ==> r.error == TypeError
      ensures r.Ok? ==> fresh(r.value) && r.value.Valid()
      ensures r.Ok? ==> r.value.originalSink == sink && r.value.disconnectCallback == disconnectCallback
      ensures r.Ok? ==> r.value.native == Format(sampleRate, channels, dtype) && r.value.blocksize == blocksize
      ensures r.Ok? ==> r.value.State() == OutputState(Original, r.value.native, false)
    {
      if !Callable(sink) {
        return Err(TypeError);
      }
      if Truthy(disconnectCallback) && !Callable(disconnectCallback) {
        return Err(TypeError);
      }
      var s := new BaseAudioSource(sink, Format(sampleRate, channels, dtype), disconnectCallback, blocksize);
      r := Ok(s);
    }

    /** `convert_output(target_sample_rate, target_dtype, target_channels)`. */
    method ConvertOutput(rate: int, dtype: Dtype, channels: Option<int>)
      modifies this`sink, this`output, this`isConverting
      ensures State() == AfterConvert(native, rate, dtype, channels)
      ensures Valid()
    {
      var target := EffectiveChannels(native.channels, channels);
      var needsResampling := !EqualsInt(native.rate, rate);
      var needsDtypeConversion := native.dtype != dtype;
      var needsChannelConversion := native.channels != target;
      if !needsResampling && !needsDtypeConversion && !needsChannelConversion {
        sink := Original;
        output := native;
        isConverting := false;
        return;
      }
      isConverting := true;
      sink := Converting(Plan(needsResampling, needsDtypeConversion, needsChannelConversion, rate, dtype, target));
      output := Format(IntV(rate), target, dtype);
    }
  }
}
