# WarmDrive effect engine, modelled in Dafny

WarmDrive is a delay-slot effect unit for the KORG drumlogue. Its whole
signal path is the C++ class `Effect` in `Effect.h`. The host sets six
controls: Clipping, Drive, Compress, Shape, Bass and HighBoost. It then hands
the class buffers of interleaved stereo samples. `Process` sends every
sample, left then right, frame by frame, through one fixed chain:

1. a hard clip,
2. a two-cell bass boost whose cells remember the previous input and output,
3. a high boost driven by a phase accumulator,
4. a `tanhf` drive,
5. a power-law compressor,
6. a waveshaper that uses either `sinf` or a 4096-entry interpolated sine
   table filled by the constructor,
7. a final `tanhf`.

The project is split into four modules:

- `CTypes` (`ctypes.dfy`) holds the C scalar types and the float-to-integer
  conversion. The math library functions `tanhf`, `powf` and `sinf` are
  supplied as a `Libm` value.
- `EffectSpec` (`effect_spec.dfy`) describes the engine as values: the
  parameter set, the filter memory, every stage as a function, `SampleStep`
  for one sample through the whole chain, and `RunSamples` for a buffer.
- `EffectEngine` (`effect_engine.dfy`) is the class itself. It has the
  source's fields, its methods update those fields in place, and `Process`
  loops over arrays. Every method is proved against the `EffectSpec`
  functions.
- `EffectProperties` (`effect_properties.dfy`) holds the lemmas that relate
  several calls or stages:
  - set/get round trips;
  - the all-neutral chain;
  - streaming: two `Process` calls equal one call on the joined buffer;
  - causality;
  - the dormant high boost;
  - the bass boost's steady state;
  - periodicity of the table lookup;
  - settings reached from a fresh engine.

Each stage function takes only the control it reads. That mirrors the C++
methods, which each read a single control (besides the filter memory and
the table).

The code and its declared parameter ranges disagree in one place, and the
model follows the code. `header.c` declares Shape over -100..100. But
`setParameter` maps a value `v` to `2 * v / 100 - 1`. Over the declared
range the waveshape therefore lies in [-3, 1], not [-1, 1]. The waveshaper is
off at `v = 50`, and the host's default of 0 gives full negative shaping
(`EffectProperties.ShapeMapping`, `EffectProperties.ShapeSettings`). A fresh
engine starts with waveshape 0, which reads back as 50
(`EffectProperties.InitialReadback`).

The high boost is dormant. `boostTimeInc` is initialised to 0 and never
assigned, so `boostTime` stays 0 and the stage adds nothing. The class
invariant `Valid()` records this. `EffectProperties.HighBoostInertBlock` shows
that the HighBoost control has no effect on any block.

## Model

| member | source | states |
|---|---|---|
| CTypes.TruncateTowardZero | Effect.h:206-216 | the C++ float-to-integer conversion drops the fraction toward zero: for x >= 0 the result is the floor, for x <= 0 it is the ceiling |
| CTypes.TruncateIntegral | Effect.h:206-216 | the conversion returns an integral value unchanged |
| EffectSpec.Clamp | Effect.h:23-27 | if lo <= hi the result lies in [lo, hi]; a value already in range is returned unchanged; the result is always one of x, lo, hi |
| EffectSpec.ApplyClipping | Effect.h:103-110 | identity when scaledClipping is 0; otherwise the result lies in [-1, 1] and equals input * (1 + scaledClipping) whenever that lies in [-1, 1] |
| EffectSpec.ApplyDrive | Effect.h:58-61 | identity when drive is 0; otherwise tanhf of the input times 1 + 5 * drive |
| EffectSpec.ApplyCompression | Effect.h:63-67 | identity when compress is 0; otherwise powf(x, 1 - 0.8 * compress) for a positive input and -powf(-x, ...) for a non-positive one |
| EffectSpec.TableAngle | Effect.h:133-140 | the angle of table entry i lies in [-pi, pi], is -pi at entry 0 and is pi at entry 4095 |
| EffectSpec.LowerIndex | Effect.h:95 | index1 is below the table size; for a non-negative position it is the floor of that position; for a position in (-1, 0] it is 0 |
| EffectSpec.UpperIndex | Effect.h:96 | index2 is below the table size; it is 0 exactly when index1 is the last entry, and index1 + 1 otherwise |
| EffectSpec.LinearInterpolationAbsolute | Effect.h:94-101 | for a non-negative position the result lies between the two neighbouring entries; at an integral position it is that entry |
| EffectSpec.LinearInterpolation | Effect.h:90-92 | the result lies between the neighbouring entries of position index * (size - 1); at 0 it is the first entry |
| EffectSpec.Fraction | Effect.h:86 | x - floor(x) lies in [0, 1) and differs from x by an integer |
| EffectSpec.SineLookupInterpolated | Effect.h:85-88 | over reals the lower neighbour is never the last entry, so the wrap of index2 is not reached from here; the result lies between entries k and k + 1; at an integer argument it is entry 0 |
| EffectSpec.ApplyWaveshape | Effect.h:69-80 | identity at waveshape 0; input + 2 * waveshape * sinf(input) for positive shape; input - waveshape * table lookup for negative shape |
| EffectSpec.BoostSubStep | Effect.h:49-56 | identity (cell untouched) at bassBoost 0; otherwise the cell's prevIn becomes the input, the output is the new prevOut times 1 + 2 * bassBoost, and for bassBoost in [0, 1] the new prevOut lies between the old prevOut and the mean of input and old prevIn |
| EffectSpec.BoostStep | Effect.h:41-47 | identity at bassBoost 0; cell 3, the phase and its increment never change; cell 1 takes the input; cell 2 takes cell 1's amplified output; the output is cell 2's amplified prevOut |
| EffectSpec.HighFreqBoostSubStep | Effect.h:126-130 | the phase advances by its increment and nothing else changes; at phase 0 the sample passes unchanged |
| EffectSpec.HighFreqBoostStep | Effect.h:112-124 | identity when highBoost is 0 or when phase and increment are 0; the cells never change; when on, the phase advances by twice the increment |
| EffectSpec.SampleStep | Effect.h:29-39 | processSample never touches cell 3 or the increment; it leaves cells 1 and 2 alone when Bass is 0 and the phase alone when HighBoost is 0; a zero phase and increment stay zero |
| EffectSpec.RunSamples | Effect.h:155-176 | the buffer renders to exactly as many samples as it has inputs; cell 3 and the increment are preserved; a zero phase together with a zero increment stays zero across the block |
| EffectSpec.RunSamplesOfTrace | Effect.h:169-175 | any sequence of outputs and memories in which each sample follows from the memory before it is exactly what RunSamples computes |
| EffectSpec.RunSamplesAppend | Effect.h:169-175 | rendering one more sample continues from the memory the earlier samples left |
| EffectSpec.WithParameter | Effect.h:178-201 | ids above 5 change nothing; level is never written; each id writes only its own control; id 0 writes clipping and scaledClipping = clipping² * 20 together |
| EffectSpec.GetParameterValue | Effect.h:203-220 | unknown ids read 0; a control inside its domain reads back within 0..100 |
| EffectEngine.Effect.constructor | Effect.h:133-140 | the table holds sinf at the i-th angle for each of its 4096 entries; all controls and filter cells start at their initial values and the high boost at phase 0 |
| EffectEngine.Effect.ApplyBoostSub | Effect.h:49-56 | the returned sample and cell agree with BoostSubStep for the cell passed by reference |
| EffectEngine.Effect.ApplyBoost | Effect.h:41-47 | the output and the new cells 1 and 2 agree with BoostStep; nothing else is written |
| EffectEngine.Effect.HighFreqBoostSub | Effect.h:126-130 | output and new phase agree with HighFreqBoostSubStep |
| EffectEngine.Effect.HighFreqBoost | Effect.h:112-124 | output and new phase agree with HighFreqBoostStep |
| EffectEngine.Effect.ProcessSample | Effect.h:29-39 | output and new memory agree with SampleStep on the current controls and table; the dormant high boost stays dormant |
| EffectEngine.Effect.ProcessNext | Effect.h:173-174 | one processSample call extends the trace of the block being rendered by its output and new memory |
| EffectEngine.Effect.Process | Effect.h:155-176 | output[0 .. 2 * frames) holds RunSamples of input[0 .. 2 * frames) in order, the filter memory is what RunSamples leaves, and every slot beyond 2 * frames is unchanged |
| EffectEngine.Effect.Init | Effect.h:142-147 | returns k_unit_err_none; zeroes all three cells; leaves the controls, table, phase and increment alone; the memory is then a fresh engine's |
| EffectEngine.Effect.Reset | Effect.h:149-153 | zeroes all three cells and leaves the controls, table, phase and increment alone |
| EffectEngine.Effect.SetParameter | Effect.h:178-201 | the new controls are WithParameter of the old ones; the filter memory is unchanged |
| EffectEngine.Effect.GetParameterValue | Effect.h:203-220 | the switch over the fields agrees with the value-level readback |
| EffectProperties.ParameterRoundTrip | Effect.h:178-220 | for ids 0..5 and every int32 value, reading a control back after writing it returns the value written (over reals) |
| EffectProperties.ParameterIndependence | Effect.h:178-220 | writing one id never changes what another id reads back |
| EffectProperties.ShapeMapping | Effect.h:191-192 | the waveshape is 0 exactly when Shape is 50; Shape in -100..100 gives waveshape in [-3, 1]; waveshape is in [-1, 1] exactly when Shape is in 0..100 |
| EffectProperties.InitialReadback | Effect.h:203-220 | a fresh engine reads back 0 for every id except Shape, which reads 50 |
| EffectProperties.InitialNeutral | Effect.h:11-18 | the initial controls switch every stage off |
| EffectProperties.NeutralSample | Effect.h:29-39 | with every stage off, a sample becomes tanhf(x) and the memory is untouched |
| EffectProperties.NeutralBlock | Effect.h:155-176 | with every stage off, a block is tanhf applied sample by sample and the memory is untouched |
| EffectProperties.RunSamplesConcat | Effect.h:155-176 | two consecutive blocks, the second continuing from the memory the first left, render the same samples and memory as their concatenation |
| EffectProperties.Causality | Effect.h:169-175 | the first k outputs of a buffer are the outputs of its first k inputs |
| EffectProperties.SampleBound | Effect.h:37 | if tanhf stays inside (-1, 1), every processed sample does too |
| EffectProperties.BlockBound | Effect.h:155-176 | if tanhf stays inside (-1, 1), every sample of a rendered block does too |
| EffectProperties.HighBoostInertSample | Effect.h:112-130 | at phase and increment 0 the HighBoost control does not change a sample's output or memory |
| EffectProperties.HighBoostInertBlock | Effect.h:112-130 | at phase and increment 0 the HighBoost control does not change a rendered block |
| EffectProperties.BoostCellSteadyState | Effect.h:49-56 | a cell holding (y, y) fed y keeps its contents and outputs y * (1 + 2 * bassBoost) |
| EffectProperties.BoostSteadyState | Effect.h:41-47 | in steady state for a constant input the two-cell cascade multiplies it by (1 + 2 * bassBoost)² and keeps its memory |
| EffectProperties.TableAngleEvenlySpaced | Effect.h:134-136 | consecutive table entries sit 2 * pi / 4095 apart, so the angles are evenly spaced from -pi to pi |
| EffectProperties.TableAngleAntisymmetric | Effect.h:135-136 | entry 4095 - i of the table sits at minus the angle of entry i |
| EffectProperties.LookupPeriodic | Effect.h:85-88 | shifting the lookup argument by any integer does not change the result |
| EffectProperties.LookupAtNode | Effect.h:85-101 | for i below 4095, at argument i / 4095 the lookup returns entry i exactly |
| EffectProperties.LookupWrap | Effect.h:94-101 | a position in [4095, 4096) reads entry 4095 and, through the wrap of index2, entry 0, and lies between them; at exactly 4095 it is the last entry, which is also what a fractional part of exactly 1 reads |
| EffectProperties.CompressionOdd | Effect.h:63-67 | the compressor is odd at every non-zero input |
| EffectProperties.CompressionKeepsSign | Effect.h:63-67 | when powf is positive on the input's magnitude, the compressor keeps the input's sign |
| EffectProperties.DriveTwenty | Effect.h:58-61 | from a fresh engine, Drive 20 alone turns x into tanhf(tanhf(2x)) |
| EffectProperties.ClippingHundred | Effect.h:103-110 | from a fresh engine, Clipping 100 alone gives a gain of 21 clamped to [-1, 1]: 0.01 becomes tanhf(0.21); ±0.1 becomes tanhf(±1) |
| EffectProperties.ShapeSettings | Effect.h:69-80 | from a fresh engine, Shape 0 alone gives tanhf(x + lookup(x)) and Shape 50 alone gives tanhf(x) |

## Left out

- Floating point is modelled as real arithmetic. Rounding, NaN, infinities and signed zero are not modelled. The set/get round trip is exact only over reals; in `float`, `value / 100.0f * 100` can truncate to `value - 1`, and the Shape readback `((value / 100.0f * 2 - 1) + 1) * 50` misses more often: it reads back as `value - 1` for 1, 4, 7, 8, 10, 14, 20, 21, 53 and 59, and as `value + 1` (toward zero) for many negative values, such as -1, -2, -3, -7, -8 and -84.
- `tanhf`, `powf` and `sinf` are supplied as arbitrary functions in a `Libm` value. Nothing is assumed about their values, so facts that need their ranges are stated under explicit hypotheses.
- EffectProperties.SampleBound: holds only under the hypothesis that `tanhf` maps into (-1, 1).
- EffectProperties.BlockBound: holds only under the hypothesis that `tanhf` maps into (-1, 1).
- EffectProperties.CompressionKeepsSign: holds only under the hypothesis that `powf` is positive at the magnitude involved.
- `M_PI` is a decimal constant with 21 significant digits rather than the `double` value.
- EffectEngine.Effect.Process: `frames` is an unbounded natural number. The 32-bit shift `frames << 1` and its wrap-around for frames of 2^31 or more are not modelled.
- EffectEngine.Effect.Process: the `__restrict` promise is stated as `output != input`; partial overlap of the two buffers is not modelled.
- EffectSpec.SineLookupInterpolated: in `float`, `x - floor(x)` rounds to 1.0 for a negative x close to 0 (x = -1e-9, say). The position is then 4095, index1 is 4095 and index2 wraps to 0. Over reals the fractional part is below 1, so this edge is covered only by `EffectProperties.LookupWrap`, about the lower-level interpolation.
- EffectEngine.Effect.Init: the runtime descriptor argument is never read by the source, so the model has no such parameter.
- EffectSpec.GetParameterValue: the result is an unbounded integer. The `int32_t` range of the conversion is not modelled; out-of-range floats are undefined behaviour in C++.
- The sine table is an immutable sequence. The constructor fills a local array in a loop and then freezes it, because nothing writes the table after construction.
- The `level` control is initialised to 1 and never read or written, so it appears only in the parameter set.
- Commented-out code is not modelled: the single-channel loop in `Process`, the third boost cell, the older high boost, and the `tanh` and noise tables.
- `getParameterStrValue` is not part of this model. It formats a string with `snprintf` into a static buffer.
- `getParameterBmpValue` is not part of this model. It always returns `nullptr`.
- unit.cc is not part of this model. It is the SDK glue that forwards runtime callbacks to the class.
- header.c is not part of this model beyond the Shape range noted above. It is the unit descriptor.
- Concurrency and the audio runtime that calls `Process` are not modelled.
