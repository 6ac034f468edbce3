/** Properties of the effect engine that relate several calls or several
    stages: round trips through the parameter store, the neutral setting of
    the chain, streaming of blocks, the dormant high boost, the bass boost's
    steady state and the periodicity of the table lookup. */
module EffectProperties {
  import opened CTypes
  import opened EffectSpec

  // ---------------------------------------------------------------------
  // Parameter store

  /** Reading a control back returns the integer that was written, for every
      control and every `int32` value (over reals; see README). */
  lemma ParameterRoundTrip(p: ParameterSet, id: uint8, value: int32)
    requires id <= 5
    ensures GetParameterValue(WithParameter(p, id, value), id) == value as int
  {
    var v := value as int;
    TruncateIntegral(v);
    assert Percent(value) * 100.0 == v as real;
    assert (Percent(value) * 2.0 - 1.0 + 1.0) * 50.0 == v as real;
  }

  /** Writing one control leaves what every other id reads back unchanged. */
  lemma ParameterIndependence(p: ParameterSet, id: uint8, value: int32, other: uint8)
    requires other != id
    ensures GetParameterValue(WithParameter(p, id, value), other) == GetParameterValue(p, other)
  {
  }

  /** The Shape control maps `value` to `2 * value / 100 - 1`: the
      waveshaper is off exactly at 50, the host's range -100..100 lands in
      [-3, 1], and only 0..100 lands in [-1, 1]. */
  lemma ShapeMapping(p: ParameterSet, value: int32)
    ensures var q := WithParameter(p, 3, value);
      (q.waveshape == 0.0 <==> value == 50) &&
      (-100 <= value <= 100 ==> -3.0 <= q.waveshape <= 1.0) &&
      (-1.0 <= q.waveshape <= 1.0 <==> 0 <= value <= 100)
  {
  }

  /** A fresh engine reads back 0 for every control except Shape, whose
      initial waveshape 0 reads back as 50. */
  lemma InitialReadback(id: uint8)
    ensures GetParameterValue(InitialParameters, id) == if id == 3 then 50 else 0
  {
    TruncateIntegral(0);
    TruncateIntegral(50);
  }

  // ---------------------------------------------------------------------
  // The neutral chain

  /** Every control that switches a stage on is at its off value. */
  predicate Neutral(p: ParameterSet) {
    p.scaledClipping == 0.0 && p.bassBoost == 0.0 && p.highBoost == 0.0 &&
    p.drive == 0.0 && p.compress == 0.0 && p.waveshape == 0.0
  }

  lemma InitialNeutral()
    ensures Neutral(InitialParameters)
  {
  }

  /** With every stage off, a sample goes through `tanhf` alone and the
      memory is left as it was. */
  lemma NeutralSample(libm: Libm, p: ParameterSet, lut: seq<real>, m: FilterMemory, x: real)
    requires |lut| == LookupTableSize as int && Neutral(p)
    ensures SampleStep(libm, p, lut, m, x) == Sample(libm.tanhf(x), m)
  {
  }

  /** `tanhf` applied to every sample of a buffer. */
  function Saturated(libm: Libm, xs: seq<real>): (ys: seq<real>)
    ensures |ys| == |xs| && forall i :: 0 <= i < |xs| ==> ys[i] == libm.tanhf(xs[i])
  {
    seq(|xs|, i requires 0 <= i < |xs| => libm.tanhf(xs[i]))
  }

  /** With every stage off, a block is `tanhf` sample by sample. */
  lemma {:induction false} NeutralBlock(libm: Libm, p: ParameterSet, lut: seq<real>, m: FilterMemory, xs: seq<real>)
    requires |lut| == LookupTableSize as int && Neutral(p)
    ensures RunSamples(libm, p, lut, m, xs) == Block(Saturated(libm, xs), m)
    decreases |xs|
  {
    if xs != [] {
      var n := |xs| - 1;
      NeutralBlock(libm, p, lut, m, xs[..n]);
      NeutralSample(libm, p, lut, m, xs[n]);
      assert Saturated(libm, xs) == Saturated(libm, xs[..n]) + [libm.tanhf(xs[n])];
    }
  }

  // ---------------------------------------------------------------------
  // Blocks

  lemma SplitLast<T>(xs: seq<T>, ys: seq<T>)
    requires ys != []
    ensures xs + ys == (xs + ys[..|ys| - 1]) + [ys[|ys| - 1]]
    ensures ys == ys[..|ys| - 1] + [ys[|ys| - 1]]
  {
    assert ys == ys[..|ys| - 1] + [ys[|ys| - 1]];
  }

  lemma AppendAssociative<T>(a: seq<T>, b: seq<T>, c: seq<T>)
    ensures a + b + c == a + (b + c)
  {
  }

  /** Rendering a buffer in two calls, the second continuing from the memory
      the first left, is rendering the concatenated buffer in one call. */
  lemma {:induction false} RunSamplesConcat(libm: Libm, p: ParameterSet, lut: seq<real>, m: FilterMemory,
                                            xs: seq<real>, ys: seq<real>)
    requires |lut| == LookupTableSize as int
    ensures var first := RunSamples(libm, p, lut, m, xs);
      var second := RunSamples(libm, p, lut, first.memory, ys);
      RunSamples(libm, p, lut, m, xs + ys) == Block(first.samples + second.samples, second.memory)
    decreases |ys|
  {
    var first := RunSamples(libm, p, lut, m, xs);
    if ys == [] {
      assert xs + ys == xs;
    } else {
      var n := |ys| - 1;
      RunSamplesConcat(libm, p, lut, m, xs, ys[..n]);
      SplitLast(xs, ys);
      RunSamplesAppend(libm, p, lut, m, xs + ys[..n], ys[n]);
      RunSamplesAppend(libm, p, lut, first.memory, ys[..n], ys[n]);
      var head := RunSamples(libm, p, lut, first.memory, ys[..n]);
      var last := SampleStep(libm, p, lut, head.memory, ys[n]);
      AppendAssociative(first.samples, head.samples, [last.value]);
    }
  }

  /** Output `k` of a block depends on the inputs up to `k` only: the first
      `k` outputs of a buffer are those of its first `k` inputs. */
  lemma Causality(libm: Libm, p: ParameterSet, lut: seq<real>, m: FilterMemory, xs: seq<real>, k: nat)
    requires |lut| == LookupTableSize as int && k <= |xs|
    ensures RunSamples(libm, p, lut, m, xs).samples[..k] == RunSamples(libm, p, lut, m, xs[..k]).samples
  {
    assert xs == xs[..k] + xs[k..];
    RunSamplesConcat(libm, p, lut, m, xs[..k], xs[k..]);
  }

  /** Every value of `s` lies strictly inside (-1, 1). */
  predicate InsideUnit(s: seq<real>) {
    forall i :: 0 <= i < |s| ==> -1.0 < s[i] < 1.0
  }

  /** If `tanhf` stays strictly inside (-1, 1), so does every sample the
      chain produces. */
  lemma SampleBound(libm: Libm, p: ParameterSet, lut: seq<real>, m: FilterMemory, x: real)
    requires |lut| == LookupTableSize as int
    requires forall y :: -1.0 < libm.tanhf(y) < 1.0
    ensures -1.0 < SampleStep(libm, p, lut, m, x).value < 1.0
  {
  }

  lemma {:induction false} BlockBound(libm: Libm, p: ParameterSet, lut: seq<real>, m: FilterMemory, xs: seq<real>)
    requires |lut| == LookupTableSize as int
    requires forall y :: -1.0 < libm.tanhf(y) < 1.0
    ensures InsideUnit(RunSamples(libm, p, lut, m, xs).samples)
    decreases |xs|
  {
    if xs != [] {
      var n := |xs| - 1;
      BlockBound(libm, p, lut, m, xs[..n]);
      var prev := RunSamples(libm, p, lut, m, xs[..n]);
      var last := SampleStep(libm, p, lut, prev.memory, xs[n]);
      SampleBound(libm, p, lut, prev.memory, xs[n]);
      InsideUnitSnoc(prev.samples, last.value);
    }
  }

  lemma InsideUnitSnoc(s: seq<real>, v: real)
    requires InsideUnit(s) && -1.0 < v < 1.0
    ensures InsideUnit(s + [v])
  {
    assert forall i :: 0 <= i < |s| ==> (s + [v])[i] == s[i];
  }

  // ---------------------------------------------------------------------
  // The high boost

  /** While the phase and its increment are 0 (as they always are), the High
      Boost control has no effect on a sample. */
  lemma HighBoostInertSample(libm: Libm, p: ParameterSet, lut: seq<real>, m: FilterMemory, x: real, h: real)
    requires |lut| == LookupTableSize as int
    requires m.boostTime == 0.0 && m.boostTimeInc == 0.0
    ensures SampleStep(libm, p.(highBoost := h), lut, m, x) == SampleStep(libm, p, lut, m, x)
  {
  }

  /** ... nor on a whole block. */
  lemma {:induction false} HighBoostInertBlock(libm: Libm, p: ParameterSet, lut: seq<real>, m: FilterMemory,
                                               xs: seq<real>, h: real)
    requires |lut| == LookupTableSize as int
    requires m.boostTime == 0.0 && m.boostTimeInc == 0.0
    ensures RunSamples(libm, p.(highBoost := h), lut, m, xs) == RunSamples(libm, p, lut, m, xs)
    decreases |xs|
  {
    if xs != [] {
      var n := |xs| - 1;
      HighBoostInertBlock(libm, p, lut, m, xs[..n], h);
      var prev := RunSamples(libm, p, lut, m, xs[..n]);
      HighBoostInertSample(libm, p, lut, prev.memory, xs[n], h);
    }
  }

  // ---------------------------------------------------------------------
  // The bass boost

  /** A constant input `y` is a fixed point of a boost cell holding
      `Cell(y, y)`: the cell keeps its contents and outputs `y` times the
      gain `1 + 2 * bassBoost`. */
  lemma BoostCellSteadyState(bassBoost: real, y: real)
    requires bassBoost != 0.0
    ensures BoostSubStep(bassBoost, Cell(y, y), y) == Boosted(y * BoostGain(bassBoost), Cell(y, y))
  {
    var f := BoostFrequency(bassBoost);
    assert (1.0 - f) * y + f * (y + y) * 0.5 == y;
  }

  /** The two-cell cascade in its steady state for a constant input `y`
      amplifies it by the square of the cell gain and leaves the memory as it
      was. */
  lemma BoostSteadyState(bassBoost: real, m: FilterMemory, y: real)
    requires bassBoost != 0.0
    requires m.cell1 == Cell(y, y)
    requires m.cell2 == Cell(y * BoostGain(bassBoost), y * BoostGain(bassBoost))
    ensures BoostStep(bassBoost, m, y) == Sample(y * BoostGain(bassBoost) * BoostGain(bassBoost), m)
  {
    BoostCellSteadyState(bassBoost, y);
    BoostCellSteadyState(bassBoost, y * BoostGain(bassBoost));
  }

  // ---------------------------------------------------------------------
  // The sine table and its lookup

  /** The table's angles are evenly spaced: each step of the index moves
      the angle by 2 * pi / 4095. */
  lemma TableAngleEvenlySpaced(i: nat)
    requires i < LookupTableSize as int - 1
    ensures TableAngle(i + 1) - TableAngle(i) == 2.0 * Pi / (LookupTableSize as int - 1) as real
  {
    var n := (LookupTableSize as int - 1) as real;
    assert (i + 1) as real / n - i as real / n == 1.0 / n;
  }

  /** The table's angles are symmetric about its middle. */
  lemma TableAngleAntisymmetric(i: nat)
    requires i < LookupTableSize as int
    ensures TableAngle(LookupTableSize as int - 1 - i) == -TableAngle(i)
  {
  }

  /** Shifting the argument by a whole number does not change a lookup. */
  lemma LookupPeriodic(lut: seq<real>, x: real, n: int)
    requires |lut| == LookupTableSize as int
    ensures SineLookupInterpolated(lut, x + n as real) == SineLookupInterpolated(lut, x)
  {
    assert (x + n as real).Floor == x.Floor + n;
    assert Fraction(x + n as real) == Fraction(x);
  }

  /** At the position of a table entry a lookup returns that entry exactly. */
  lemma LookupAtNode(lut: seq<real>, i: nat)
    requires |lut| == LookupTableSize as int && i < LookupTableSize as int - 1
    ensures SineLookupInterpolated(lut, i as real / (LookupTableSize as int - 1) as real) == lut[i]
  {
    var x := i as real / (LookupTableSize as int - 1) as real;
    assert 0.0 <= x < 1.0;
    assert x.Floor == 0;
    assert Fraction(x) == x;
    assert x * (LookupTableSize as real - 1.0) == i as real;
    TruncateIntegral(i);
    assert LowerIndex(i as real, LookupTableSize) as int == i;
  }

  /** A position in the last interval of the table reads the last entry
      and, through the wrap of `index2`, entry 0; at exactly 4095, the
      position a fractional part of 1 scales to, it is the last entry. */
  lemma LookupWrap(lut: seq<real>, index: real)
    requires |lut| == LookupTableSize as int
    requires (LookupTableSize as int - 1) as real <= index < LookupTableSize as real
    ensures LowerIndex(index, LookupTableSize) == LookupTableSize - 1
    ensures UpperIndex(LookupTableSize - 1, LookupTableSize) == 0
    ensures Between(LinearInterpolationAbsolute(index, LookupTableSize, lut), lut[LookupTableSize as int - 1], lut[0])
    ensures index == (LookupTableSize as int - 1) as real ==>
      LinearInterpolationAbsolute(index, LookupTableSize, lut) == lut[LookupTableSize as int - 1]
    ensures LinearInterpolation(1.0, LookupTableSize, lut) == lut[LookupTableSize as int - 1]
  {
    TruncateIntegral(LookupTableSize as int - 1);
  }

  // ---------------------------------------------------------------------
  // Stages

  /** The compressor is odd everywhere except at 0, where it returns
      `-powf(0, exponent)`. */
  lemma CompressionOdd(libm: Libm, compress: real, x: real)
    requires x != 0.0
    ensures ApplyCompression(libm, compress, -x) == -ApplyCompression(libm, compress, x)
  {
  }

  /** When `powf` is positive on the magnitude, the compressor keeps the
      sign of its input. */
  lemma CompressionKeepsSign(libm: Libm, compress: real, x: real)
    requires compress != 0.0 && x != 0.0
    requires 0.0 < libm.powf(if x > 0.0 then x else -x, CompressionExponent(compress))
    ensures x > 0.0 ==> ApplyCompression(libm, compress, x) > 0.0
    ensures x < 0.0 ==> ApplyCompression(libm, compress, x) < 0.0
  {
  }

  // ---------------------------------------------------------------------
  // Settings reached from a fresh engine

  /** Drive 20 alone: a gain of 2 into `tanhf`, then the final `tanhf`. */
  lemma DriveTwenty(libm: Libm, lut: seq<real>, m: FilterMemory, x: real)
    requires |lut| == LookupTableSize as int
    ensures SampleStep(libm, WithParameter(InitialParameters, 1, 20), lut, m, x)
      == Sample(libm.tanhf(libm.tanhf(x * 2.0)), m)
  {
    var p := WithParameter(InitialParameters, 1, 20);
    assert p == InitialParameters.(drive := 0.2);
    assert ApplyDrive(libm, p.drive, x) == libm.tanhf(x * 2.0) by {
      assert DriveGain(0.2) == 2.0;
    }
  }

  /** Clipping 100 alone: a gain of 21 clamped to [-1, 1]; 0.01 stays in the
      linear range and 0.1 is clipped. */
  lemma ClippingHundred(libm: Libm, lut: seq<real>, m: FilterMemory)
    requires |lut| == LookupTableSize as int
    ensures var p := WithParameter(InitialParameters, 0, 100);
      SampleStep(libm, p, lut, m, 0.01) == Sample(libm.tanhf(0.21), m) &&
      SampleStep(libm, p, lut, m, 0.1) == Sample(libm.tanhf(1.0), m) &&
      SampleStep(libm, p, lut, m, -0.1) == Sample(libm.tanhf(-1.0), m)
  {
    assert WithParameter(InitialParameters, 0, 100).scaledClipping == 20.0;
  }

  /** Shape 0 (the host's default) alone: the waveshaper at full negative
      depth, adding the table lookup to the sample. Shape 50 switches it off. */
  lemma ShapeSettings(libm: Libm, lut: seq<real>, m: FilterMemory, x: real)
    requires |lut| == LookupTableSize as int
    ensures SampleStep(libm, WithParameter(InitialParameters, 3, 0), lut, m, x)
      == Sample(libm.tanhf(x + SineLookupInterpolated(lut, x)), m)
    ensures SampleStep(libm, WithParameter(InitialParameters, 3, 50), lut, m, x)
      == Sample(libm.tanhf(x), m)
  {
    assert WithParameter(InitialParameters, 3, 0).waveshape == -1.0;
    assert WithParameter(InitialParameters, 3, 50).waveshape == 0.0;
  }
}
