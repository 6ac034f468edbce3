/** The effect engine of Effect.h as values: its parameter set, its filter
    memory, each stage of the per-sample chain, and the block of samples a
    call to `Process` renders. The class in module EffectEngine is proved
    against these definitions. */
module EffectSpec {
  import opened CTypes

  /** `LOOKUP_TABLE_SIZE`, the number of entries of the sine table. */
  const LookupTableSize: uint16 := 4096

  /** The six controls (and the unused `level`) the host sets. */
  datatype ParameterSet = ParameterSet(
    clipping: real,
    scaledClipping: real,
    level: real,
    drive: real,
    compress: real,
    bassBoost: real,
    highBoost: real,
    waveshape: real)

  /** The member initialisers of the class. */
  const InitialParameters := ParameterSet(0.0, 0.0, 1.0, 0.0, 0.0, 0.0, 0.0, 0.0)

  /** One `prevIn`/`prevOut` pair of the bass-boost filter. */
  datatype Cell = Cell(prevIn: real, prevOut: real)

  const ZeroCell := Cell(0.0, 0.0)

  /** Everything a processed sample may leave behind: three filter cells
      (of which only the first two are used) and the phase accumulator of the
      high boost with its increment. */
  datatype FilterMemory = FilterMemory(
    cell1: Cell,
    cell2: Cell,
    cell3: Cell,
    boostTimeInc: real,
    boostTime: real)

  const InitialMemory := FilterMemory(ZeroCell, ZeroCell, ZeroCell, 0.0, 0.0)

  /** A stage's output sample together with the memory it leaves. */
  datatype Sample = Sample(value: real, memory: FilterMemory)

  /** The output of one boost cell together with the cell's new contents. */
  datatype Boosted = Boosted(value: real, cell: Cell)

  /** The rendered samples of a buffer and the memory left afterwards. */
  datatype Block = Block(samples: seq<real>, memory: FilterMemory)

  /** `v` lies between `a` and `b`, whichever of the two is larger. */
  predicate Between(v: real, a: real, b: real) {
    (a <= v <= b) || (b <= v <= a)
  }

  /** A weighted average with weight `f` in [0, 1] never leaves the range of
      the two values averaged. */
  lemma BlendBetween(a: real, b: real, f: real)
    requires 0.0 <= f <= 1.0
    ensures Between(a * (1.0 - f) + b * f, a, b)
  {
    assert a * (1.0 - f) + b * f == a + f * (b - a);
    if a <= b {
      ProductNonNegative(f, b - a);
      ProductNonNegative(1.0 - f, b - a);
    } else {
      ProductNonNegative(f, a - b);
      ProductNonNegative(1.0 - f, a - b);
    }
  }

  lemma ProductNonNegative(x: real, y: real)
    requires 0.0 <= x && 0.0 <= y
    ensures 0.0 <= x * y
  {
  }

  // ---------------------------------------------------------------------
  // Stateless stages

  function Clamp(x: real, lo: real, hi: real): (r: real)
    ensures lo <= hi ==> lo <= r <= hi
    ensures lo <= x <= hi ==> r == x
    ensures r == x || r == lo || r == hi
  {
    if x < lo then lo else if x > hi then hi else x
  }

  /** The hard clip: a gain of `1 + scaledClipping`, clamped to [-1, 1]. */
  function ApplyClipping(scaledClipping: real, input: real): (r: real)
    ensures scaledClipping == 0.0 ==> r == input
    ensures scaledClipping != 0.0 ==> -1.0 <= r <= 1.0
    ensures scaledClipping != 0.0 && -1.0 <= input * (1.0 + scaledClipping) <= 1.0
      ==> r == input * (1.0 + scaledClipping)
  {
    if scaledClipping == 0.0 then input
    else Clamp(input + input * scaledClipping, -1.0, 1.0)
  }

  function DriveGain(drive: real): real {
    1.0 + drive * 5.0
  }

  function ApplyDrive(libm: Libm, drive: real, input: real): (r: real)
    ensures drive == 0.0 ==> r == input
    ensures drive != 0.0 ==> r == libm.tanhf(input * DriveGain(drive))
  {
    if drive == 0.0 then input
    else libm.tanhf(input * DriveGain(drive))
  }

  function CompressionExponent(compress: real): real {
    1.0 - compress * 0.8
  }

  /** The power-law compressor, applied to the magnitude with the sign put
      back for non-positive inputs. */
  function ApplyCompression(libm: Libm, compress: real, input: real): (r: real)
    ensures compress == 0.0 ==> r == input
    ensures compress != 0.0 && input > 0.0 ==> r == libm.powf(input, CompressionExponent(compress))
    ensures compress != 0.0 && input <= 0.0 ==> r == -libm.powf(-input, CompressionExponent(compress))
  {
    if compress == 0.0 then input
    else if input > 0.0 then libm.powf(input, CompressionExponent(compress))
    else -libm.powf(-input, CompressionExponent(compress))
  }

  // ---------------------------------------------------------------------
  // The sine table and its interpolation

  /** The angle whose sine the constructor stores at index `i`. */
  function TableAngle(i: nat): (a: real)
    requires i < LookupTableSize as int
    ensures -Pi <= a <= Pi
    ensures i == 0 ==> a == -Pi
    ensures i == LookupTableSize as int - 1 ==> a == Pi
  {
    ((i as real) / (LookupTableSize as int - 1) as real * 2.0 - 1.0) * Pi
  }

  /** `index1` of `linearInterpolationAbsolute`: the table index below `index`. */
  function LowerIndex(index: real, lutSize: uint16): (i: uint16)
    requires 0 < lutSize
    requires -1.0 < index < lutSize as real
    ensures i < lutSize
    ensures 0.0 <= index ==> i as real <= index < i as real + 1.0
    ensures index <= 0.0 ==> i == 0
  {
    var t := TruncateTowardZero(index);
    assert 0 <= t < lutSize as int by {
      if 0.0 <= index {
        assert t as real <= index < lutSize as real;
      } else {
        assert index <= t as real < index + 1.0;
      }
    }
    t as uint16
  }

  /** `index2` of `linearInterpolationAbsolute`: the next table index,
      wrapping round to 0 after the last one. */
  function UpperIndex(index1: uint16, lutSize: uint16): (i: uint16)
    requires index1 < lutSize
    ensures i < lutSize
    ensures i == 0 <==> index1 == lutSize - 1
    ensures index1 < lutSize - 1 ==> i == index1 + 1
  {
    var next := index1 as int + 1;
    assert next < lutSize as int ==> next % lutSize as int == next;
    assert next == lutSize as int ==> next % lutSize as int == 0;
    (next % lutSize as int) as uint16
  }

  /** Linear interpolation at an absolute position `index` of the table. */
  function LinearInterpolationAbsolute(index: real, lutSize: uint16, lut: seq<real>): (r: real)
    requires 0 < lutSize as int <= |lut|
    requires -1.0 < index < lutSize as real
    ensures var i1 := LowerIndex(index, lutSize);
      0.0 <= index ==> Between(r, lut[i1], lut[UpperIndex(i1, lutSize)])
    ensures var i1 := LowerIndex(index, lutSize);
      index == i1 as real ==> r == lut[i1]
  {
    var index1 := LowerIndex(index, lutSize);
    var index2 := UpperIndex(index1, lutSize);
    var fractional := index - index1 as real;
    var r := lut[index1] * (1.0 - fractional) + lut[index2] * fractional;
    if 0.0 <= index then (BlendBetween(lut[index1], lut[index2], fractional); r) else r
  }

  /** Linear interpolation at a position given as a fraction of the table. */
  function LinearInterpolation(index: real, lutSize: uint16, lut: seq<real>): (r: real)
    requires 0 < lutSize as int <= |lut|
    requires -1.0 < index * (lutSize as real - 1.0) < lutSize as real
    ensures var i1 := LowerIndex(index * (lutSize as real - 1.0), lutSize);
      0.0 <= index ==> Between(r, lut[i1], lut[UpperIndex(i1, lutSize)])
    ensures index == 0.0 ==> r == lut[0]
  {
    LinearInterpolationAbsolute(index * (lutSize as real - 1.0), lutSize, lut)
  }

  /** The fractional part `x - floor(x)`, which lies in [0, 1). */
  function Fraction(x: real): (f: real)
    ensures 0.0 <= f < 1.0
    ensures (x - f).Floor as real == x - f
  {
    x - x.Floor as real
  }

  /** The table read as one period of a function of period 1. */
  function SineLookupInterpolated(lut: seq<real>, x: real): (r: real)
    requires |lut| == LookupTableSize as int
    ensures var k := LowerIndex(Fraction(x) * (LookupTableSize as real - 1.0), LookupTableSize);
      k < LookupTableSize - 1 && Between(r, lut[k], lut[k + 1])
    ensures x == x.Floor as real ==> r == lut[0]
  {
    var f := Fraction(x);
    assert 0.0 <= f * (LookupTableSize as real - 1.0) < LookupTableSize as real - 1.0;
    LinearInterpolation(f, LookupTableSize, lut)
  }

  /** The waveshaper: a direct sine for positive shape and the table for
      negative shape, each scaled by the shape's magnitude. */
  function ApplyWaveshape(libm: Libm, waveshape: real, lut: seq<real>, input: real): (r: real)
    requires |lut| == LookupTableSize as int
    ensures waveshape == 0.0 ==> r == input
    ensures waveshape > 0.0 ==> r == input + waveshape * libm.sinf(input) * 2.0
    ensures waveshape < 0.0 ==> r == input + (-waveshape) * SineLookupInterpolated(lut, input)
  {
    if waveshape > 0.0 then input + waveshape * libm.sinf(input) * 2.0
    else if waveshape < 0.0 then input + (-waveshape) * SineLookupInterpolated(lut, input)
    else input
  }

  // ---------------------------------------------------------------------
  // Stateful stages

  function BoostFrequency(bassBoost: real): real {
    0.2 + 0.8 * bassBoost
  }

  function BoostGain(bassBoost: real): real {
    1.0 + bassBoost * 2.0
  }

  /** One bass-boost cell: a one-pole low-pass of the average of the current
      and previous input, remembered in the cell, then amplified. */
  function BoostSubStep(bassBoost: real, c: Cell, input: real): (r: Boosted)
    ensures bassBoost == 0.0 ==> r == Boosted(input, c)
    ensures bassBoost != 0.0 ==> r.cell.prevIn == input
    ensures bassBoost != 0.0 ==> r.value == r.cell.prevOut * BoostGain(bassBoost)
    ensures 0.0 <= bassBoost <= 1.0 ==> Between(r.cell.prevOut, c.prevOut, (input + c.prevIn) * 0.5)
  {
    if bassBoost == 0.0 then Boosted(input, c)
    else
      var freq := BoostFrequency(bassBoost);
      var boosted := (1.0 - freq) * c.prevOut + freq * (input + c.prevIn) * 0.5;
      assert boosted == c.prevOut * (1.0 - freq) + ((input + c.prevIn) * 0.5) * freq;
      var r := Boosted(boosted * BoostGain(bassBoost), Cell(input, boosted));
      if 0.0 <= bassBoost <= 1.0 then (BlendBetween(c.prevOut, (input + c.prevIn) * 0.5, freq); r) else r
  }

  /** The bass boost: cell 1 then cell 2 in cascade; cell 3 is never used. */
  function BoostStep(bassBoost: real, m: FilterMemory, input: real): (r: Sample)
    ensures bassBoost == 0.0 ==> r == Sample(input, m)
    ensures r.memory.cell3 == m.cell3 && r.memory.boostTimeInc == m.boostTimeInc
    ensures r.memory.boostTime == m.boostTime
    ensures bassBoost != 0.0 ==> r.memory.cell1.prevIn == input
    ensures bassBoost != 0.0 ==> r.memory.cell2.prevIn == r.memory.cell1.prevOut * BoostGain(bassBoost)
    ensures bassBoost != 0.0 ==> r.value == r.memory.cell2.prevOut * BoostGain(bassBoost)
  {
    if bassBoost == 0.0 then Sample(input, m)
    else
      var s1 := BoostSubStep(bassBoost, m.cell1, input);
      var s2 := BoostSubStep(bassBoost, m.cell2, s1.value);
      Sample(s2.value, m.(cell1 := s1.cell, cell2 := s2.cell))
  }

  /** One application of the high boost: add `input * boostTime`, then
      advance the phase by its increment. */
  function HighFreqBoostSubStep(m: FilterMemory, input: real): (r: Sample)
    ensures r.memory == m.(boostTime := m.boostTime + m.boostTimeInc)
    ensures m.boostTime == 0.0 ==> r.value == input
  {
    Sample(input + input * m.boostTime, m.(boostTime := m.boostTime + m.boostTimeInc))
  }

  /** The high boost: two applications in sequence. */
  function HighFreqBoostStep(highBoost: real, m: FilterMemory, input: real): (r: Sample)
    ensures highBoost == 0.0 ==> r == Sample(input, m)
    ensures r.memory.cell1 == m.cell1 && r.memory.cell2 == m.cell2 && r.memory.cell3 == m.cell3
    ensures r.memory.boostTimeInc == m.boostTimeInc
    ensures highBoost != 0.0 ==> r.memory.boostTime == m.boostTime + 2.0 * m.boostTimeInc
    ensures m.boostTime == 0.0 && m.boostTimeInc == 0.0 ==> r == Sample(input, m)
  {
    if highBoost == 0.0 then Sample(input, m)
    else
      var s1 := HighFreqBoostSubStep(m, input);
      HighFreqBoostSubStep(s1.memory, s1.value)
  }

  /** `processSample`: the whole chain, ending in an unconditional `tanhf`. */
  function SampleStep(libm: Libm, p: ParameterSet, lut: seq<real>, m: FilterMemory, input: real): (r: Sample)
    requires |lut| == LookupTableSize as int
    ensures r.memory.cell3 == m.cell3 && r.memory.boostTimeInc == m.boostTimeInc
    ensures p.bassBoost == 0.0 ==> r.memory.cell1 == m.cell1 && r.memory.cell2 == m.cell2
    ensures p.highBoost == 0.0 ==> r.memory.boostTime == m.boostTime
    ensures m.boostTime == 0.0 && m.boostTimeInc == 0.0 ==> r.memory.boostTime == 0.0
  {
    var clipped := ApplyClipping(p.scaledClipping, input);
    var bass := BoostStep(p.bassBoost, m, clipped);
    var high := HighFreqBoostStep(p.highBoost, bass.memory, bass.value);
    var driven := ApplyDrive(libm, p.drive, high.value);
    var compressed := ApplyCompression(libm, p.compress, driven);
    var shaped := ApplyWaveshape(libm, p.waveshape, lut, compressed);
    Sample(libm.tanhf(shaped), high.memory)
  }

  /** `Process` on a buffer: every sample in buffer order, left and right
      alternating, all threaded through one filter memory. */
  function RunSamples(libm: Libm, p: ParameterSet, lut: seq<real>, m: FilterMemory, xs: seq<real>): (r: Block)
    requires |lut| == LookupTableSize as int
    ensures |r.samples| == |xs|
    ensures r.memory.cell3 == m.cell3 && r.memory.boostTimeInc == m.boostTimeInc
    ensures m.boostTime == 0.0 && m.boostTimeInc == 0.0 ==> r.memory.boostTime == 0.0
    decreases |xs|
  {
    if xs == [] then Block([], m)
    else
      var prev := RunSamples(libm, p, lut, m, xs[..|xs| - 1]);
      var last := SampleStep(libm, p, lut, prev.memory, xs[|xs| - 1]);
      Block(prev.samples + [last.value], last.memory)
  }

  /** `ys` are the first `|ys|` outputs of rendering `xs`, and `trace` the
      filter memory before each of them and after the last: every output and
      every next memory is what `SampleStep` makes from the memory before. */
  ghost predicate Traced(libm: Libm, p: ParameterSet, lut: seq<real>, xs: seq<real>, ys: seq<real>, trace: seq<FilterMemory>)
    requires |lut| == LookupTableSize as int
  {
    |ys| <= |xs| && |trace| == |ys| + 1 &&
    forall j {:trigger SampleStep(libm, p, lut, trace[j], xs[j])} :: 0 <= j < |ys| ==>
      SampleStep(libm, p, lut, trace[j], xs[j]) == Sample(ys[j], trace[j + 1])
  }

  /** A trace grows by one sample computed from its last memory. */
  lemma TracedExtend(libm: Libm, p: ParameterSet, lut: seq<real>, xs: seq<real>, ys: seq<real>, trace: seq<FilterMemory>,
                     y: real, m: FilterMemory)
    requires |lut| == LookupTableSize as int
    requires Traced(libm, p, lut, xs, ys, trace) && |ys| < |xs|
    requires SampleStep(libm, p, lut, trace[|ys|], xs[|ys|]) == Sample(y, m)
    ensures Traced(libm, p, lut, xs, ys + [y], trace + [m])
  {
    var ys', trace' := ys + [y], trace + [m];
    forall j | 0 <= j < |ys'|
      ensures SampleStep(libm, p, lut, trace'[j], xs[j]) == Sample(ys'[j], trace'[j + 1])
    {
      if j < |ys| {
        assert trace'[j] == trace[j] && trace'[j + 1] == trace[j + 1] && ys'[j] == ys[j];
      }
    }
  }

  /** A complete trace of `xs` is exactly what `RunSamples` computes: the
      block renderer has no freedom beyond what each sample step fixes. */
  lemma {:induction false} RunSamplesOfTrace(libm: Libm, p: ParameterSet, lut: seq<real>, xs: seq<real>,
                                             ys: seq<real>, trace: seq<FilterMemory>)
    requires |lut| == LookupTableSize as int
    requires Traced(libm, p, lut, xs, ys, trace) && |ys| == |xs|
    ensures RunSamples(libm, p, lut, trace[0], xs) == Block(ys, trace[|xs|])
    decreases |xs|
  {
    if xs != [] {
      var n := |xs| - 1;
      assert Traced(libm, p, lut, xs[..n], ys[..n], trace[..n + 1]);
      RunSamplesOfTrace(libm, p, lut, xs[..n], ys[..n], trace[..n + 1]);
      assert ys == ys[..n] + [ys[n]];
    }
  }

  /** Rendering one more sample continues from the memory the earlier ones
      left. */
  lemma RunSamplesAppend(libm: Libm, p: ParameterSet, lut: seq<real>, m: FilterMemory, xs: seq<real>, x: real)
    requires |lut| == LookupTableSize as int
    ensures var prev := RunSamples(libm, p, lut, m, xs);
      var last := SampleStep(libm, p, lut, prev.memory, x);
      RunSamples(libm, p, lut, m, xs + [x]) == Block(prev.samples + [last.value], last.memory)
  {
    assert (xs + [x])[..|xs|] == xs;
  }

  // ---------------------------------------------------------------------
  // Parameter store

  /** `value / 100.0f`. */
  function Percent(value: int32): real {
    value as real / 100.0
  }

  /** `setParameter`: ids 0..5 each write their own control; any other id
      changes nothing. */
  function WithParameter(p: ParameterSet, id: uint8, value: int32): (q: ParameterSet)
    ensures id > 5 ==> q == p
    ensures q.level == p.level
    ensures id != 0 ==> q.clipping == p.clipping && q.scaledClipping == p.scaledClipping
    ensures id == 0 ==> q.scaledClipping == q.clipping * q.clipping * 20.0
    ensures id != 1 ==> q.drive == p.drive
    ensures id != 2 ==> q.compress == p.compress
    ensures id != 3 ==> q.waveshape == p.waveshape
    ensures id != 4 ==> q.bassBoost == p.bassBoost
    ensures id != 5 ==> q.highBoost == p.highBoost
  {
    var pct := Percent(value);
    if id == 0 then p.(clipping := pct, scaledClipping := pct * pct * 20.0)
    else if id == 1 then p.(drive := pct)
    else if id == 2 then p.(compress := pct)
    else if id == 3 then p.(waveshape := pct * 2.0 - 1.0)
    else if id == 4 then p.(bassBoost := pct)
    else if id == 5 then p.(highBoost := pct)
    else p
  }

  /** `getParameterValue`: the integer a control stands for, 0 for an
      unknown id. */
  function GetParameterValue(p: ParameterSet, id: uint8): (r: int)
    ensures id > 5 ==> r == 0
    ensures id == 0 && 0.0 <= p.clipping <= 1.0 ==> 0 <= r <= 100
    ensures id == 1 && 0.0 <= p.drive <= 1.0 ==> 0 <= r <= 100
    ensures id == 2 && 0.0 <= p.compress <= 1.0 ==> 0 <= r <= 100
    ensures id == 3 && -1.0 <= p.waveshape <= 1.0 ==> 0 <= r <= 100
    ensures id == 4 && 0.0 <= p.bassBoost <= 1.0 ==> 0 <= r <= 100
    ensures id == 5 && 0.0 <= p.highBoost <= 1.0 ==> 0 <= r <= 100
  {
    if id == 0 then TruncateTowardZero(p.clipping * 100.0)
    else if id == 1 then TruncateTowardZero(p.drive * 100.0)
    else if id == 2 then TruncateTowardZero(p.compress * 100.0)
    else if id == 3 then TruncateTowardZero((p.waveshape + 1.0) * 50.0)
    else if id == 4 then TruncateTowardZero(p.bassBoost * 100.0)
    else if id == 5 then TruncateTowardZero(p.highBoost * 100.0)
    else 0
  }
}
