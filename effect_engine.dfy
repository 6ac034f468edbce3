/** The `Effect` class of Effect.h: its fields, the methods that update them
    in place, and the block renderer. Every method is proved against the
    value-level definitions of module EffectSpec. */
module EffectEngine {
  import opened CTypes
  import opened EffectSpec

  /** The status codes of the unit runtime that this class can return.
      `Init` returns only `k_unit_err_none`, so this type has that one code
      and `Init`'s status clause records by its type that it cannot fail. */
  datatype UnitError = UnitErrNone

  class Effect {
    /** The math library the engine calls. */
    const libm: Libm

    var clipping: real
    var scaledClipping: real
    var level: real
    var drive: real
    var compress: real
    var bassBoost: real
    var highBoost: real
    var waveshape: real
    var prevIn1: real
    var prevOut1: real
    var prevIn2: real
    var prevOut2: real
    var prevIn3: real
    var prevOut3: real
    var boostTimeInc: real
    var boostTime: real

    /** The sine table: filled by the constructor, never written afterwards. */
    const sine: seq<real>

    /** The table has its declared size, and the high boost's phase and
        increment stay at their initial 0: nothing ever assigns the increment,
        so advancing the phase never moves it. */
    ghost predicate Valid()
      reads this`boostTimeInc, this`boostTime
    {
      |sine| == LookupTableSize as int && boostTimeInc == 0.0 && boostTime == 0.0
    }

    function Parameters(): ParameterSet
      reads this`clipping, this`scaledClipping, this`level, this`drive, this`compress, this`bassBoost, this`highBoost, this`waveshape
    {
      ParameterSet(clipping, scaledClipping, level, drive, compress, bassBoost, highBoost, waveshape)
    }

    function Memory(): FilterMemory
      reads this`prevIn1, this`prevOut1, this`prevIn2, this`prevOut2, this`prevIn3, this`prevOut3, this`boostTimeInc, this`boostTime
    {
      FilterMemory(Cell(prevIn1, prevOut1), Cell(prevIn2, prevOut2), Cell(prevIn3, prevOut3), boostTimeInc, boostTime)
    }

    /** Fills entry `i` of the table with the sine of an angle running
        linearly from -pi to pi. */
    constructor (math: Libm)
      ensures Valid() && libm == math
      ensures Parameters() == InitialParameters && Memory() == InitialMemory
      ensures forall i :: 0 <= i < |sine| ==> sine[i] == math.sinf(TableAngle(i))
    {
      var table := new real[LookupTableSize];
      for i := 0 to LookupTableSize as int
        invariant forall j :: 0 <= j < i ==> table[j] == math.sinf(TableAngle(j))
      {
        table[i] := math.sinf(TableAngle(i));
      }
      libm := math;
      clipping, scaledClipping, level := 0.0, 0.0, 1.0;
      drive, compress, bassBoost, highBoost, waveshape := 0.0, 0.0, 0.0, 0.0, 0.0;
      prevIn1, prevOut1, prevIn2, prevOut2, prevIn3, prevOut3 := 0.0, 0.0, 0.0, 0.0, 0.0, 0.0;
      boostTimeInc, boostTime := 0.0, 0.0;
      sine := table[..];
    }

    /** One bass-boost cell. The cell, passed by reference in the source,
        comes in as `prevIn`, `prevOut` and goes out as `newPrevIn`,
        `newPrevOut`. */
    method ApplyBoostSub(input: real, prevIn: real, prevOut: real) returns (r: real, newPrevIn: real, newPrevOut: real)
      ensures Boosted(r, Cell(newPrevIn, newPrevOut)) == BoostSubStep(bassBoost, Cell(prevIn, prevOut), input)
    {
      if bassBoost == 0.0 {
        return input, prevIn, prevOut;
      }
      var freq := 0.2 + 0.8 * bassBoost;
      var boosted := (1.0 - freq) * prevOut + freq * (input + prevIn) * 0.5;
      newPrevIn := input;
      newPrevOut := boosted;
      r := boosted * (1.0 + bassBoost * 2.0);
    }

    method ApplyBoost(input: real) returns (r: real)
      modifies this`prevIn1, this`prevOut1, this`prevIn2, this`prevOut2
      ensures Sample(r, Memory()) == BoostStep(bassBoost, old(Memory()), input)
    {
      if bassBoost == 0.0 {
        return input;
      }
      var out;
      out, prevIn1, prevOut1 := ApplyBoostSub(input, prevIn1, prevOut1);
      out, prevIn2, prevOut2 := ApplyBoostSub(out, prevIn2, prevOut2);
      r := out;
    }

    method HighFreqBoostSub(input: real) returns (r: real)
      modifies this`boostTime
      ensures Sample(r, Memory()) == HighFreqBoostSubStep(old(Memory()), input)
    {
      var highFreqComponent := input * boostTime;
      boostTime := boostTime + boostTimeInc;
      r := input + highFreqComponent;
    }

    method HighFreqBoost(input: real) returns (r: real)
      modifies this`boostTime
      ensures Sample(r, Memory()) == HighFreqBoostStep(highBoost, old(Memory()), input)
    {
      if highBoost == 0.0 {
        return input;
      }
      var out := HighFreqBoostSub(input);
      out := HighFreqBoostSub(out);
      r := out;
    }

    method ProcessSample(input: real) returns (r: real)
      requires Valid()
      modifies this`prevIn1, this`prevOut1, this`prevIn2, this`prevOut2, this`boostTime
      ensures Valid()
      ensures Sample(r, Memory()) == SampleStep(libm, Parameters(), sine, old(Memory()), input)
    {
      var out := input;
      out := ApplyClipping(scaledClipping, out);
      out := ApplyBoost(out);
      out := HighFreqBoost(out);
      out := ApplyDrive(libm, drive, out);
      out := ApplyCompression(libm, compress, out);
      out := ApplyWaveshape(libm, waveshape, sine, out);
      out := libm.tanhf(out);
      r := out;
    }

    /** Clears all three filter cells; the parameters, the table and the high
        boost's phase are left alone, and the memory is then the one a new
        engine starts with. The runtime descriptor the source accepts is not
        read. */
    method Init() returns (status: UnitError)
      requires Valid()
      modifies this`prevIn1, this`prevOut1, this`prevIn2, this`prevOut2, this`prevIn3, this`prevOut3
      ensures Valid() && status == UnitErrNone
      ensures Parameters() == old(Parameters())
      ensures Memory() == old(Memory()).(cell1 := ZeroCell, cell2 := ZeroCell, cell3 := ZeroCell)
      ensures Memory() == InitialMemory
    {
      prevIn1, prevOut1 := 0.0, 0.0;
      prevIn2, prevOut2 := 0.0, 0.0;
      prevIn3, prevOut3 := 0.0, 0.0;
      return UnitErrNone;
    }

    method Reset()
      requires Valid()
      modifies this`prevIn1, this`prevOut1, this`prevIn2, this`prevOut2, this`prevIn3, this`prevOut3
      ensures Valid()
      ensures Parameters() == old(Parameters())
      ensures Memory() == old(Memory()).(cell1 := ZeroCell, cell2 := ZeroCell, cell3 := ZeroCell)
      ensures Memory() == InitialMemory
    {
      prevIn1, prevOut1 := 0.0, 0.0;
      prevIn2, prevOut2 := 0.0, 0.0;
      prevIn3, prevOut3 := 0.0, 0.0;
    }

    /** `processSample` on the next sample of a block being rendered: `ys`
        are the samples rendered so far and `trace` the filter memories
        around them; the trace grows by the new output and memory. */
    method ProcessNext(input: real, ghost xs: seq<real>, ghost ys: seq<real>, ghost trace: seq<FilterMemory>)
      returns (r: real)
      requires Valid() && Traced(libm, Parameters(), sine, xs, ys, trace)
      requires |ys| < |xs| && xs[|ys|] == input && trace[|ys|] == Memory()
      modifies this`prevIn1, this`prevOut1, this`prevIn2, this`prevOut2, this`boostTime
      ensures Valid() && Traced(libm, Parameters(), sine, xs, ys + [r], trace + [Memory()])
    {
      r := ProcessSample(input);
      TracedExtend(libm, Parameters(), sine, xs, ys, trace, r, Memory());
    }

    /** Renders `frames` interleaved stereo frames: `output[2i]` from
        `input[2i]`, then `output[2i + 1]` from `input[2i + 1]`, for
        increasing `i`, with the filter memory carried from each sample to the
        next. Nothing beyond the first `2 * frames` slots is written. */
    method Process(input: array<real>, output: array<real>, frames: nat)
      requires Valid()
      requires 2 * frames <= input.Length && 2 * frames <= output.Length
      requires output != input
      modifies this`prevIn1, this`prevOut1, this`prevIn2, this`prevOut2, this`boostTime, output
      ensures Valid()
      ensures var block := RunSamples(libm, Parameters(), sine, old(Memory()), input[..2 * frames]);
        output[..2 * frames] == block.samples && Memory() == block.memory
      ensures forall j :: 2 * frames <= j < output.Length ==> output[j] == old(output[j])
    {
      ghost var p := Parameters();
      ghost var xs := input[..2 * frames];
      ghost var rendered := [];
      ghost var trace := [Memory()];
      var i := 0;
      while i < frames
        invariant i <= frames && Valid() && Parameters() == p
        invariant Traced(libm, p, sine, xs, rendered, trace) && |rendered| == 2 * i
        invariant trace[0] == old(Memory()) && trace[2 * i] == Memory()
        invariant forall j :: 0 <= j < 2 * i ==> output[j] == rendered[j]
        invariant forall j :: 2 * i <= j < output.Length ==> output[j] == old(output[j])
      {
        var k := 2 * i;
        output[k] := ProcessNext(input[k], xs, rendered, trace);
        rendered, trace := rendered + [output[k]], trace + [Memory()];
        output[k + 1] := ProcessNext(input[k + 1], xs, rendered, trace);
        rendered, trace := rendered + [output[k + 1]], trace + [Memory()];
        i := i + 1;
      }
      RunSamplesOfTrace(libm, p, sine, xs, rendered, trace);
      assert output[..2 * frames] == rendered;
    }

    /** Writes the control `id` stands for; an unknown id changes nothing. */
    method SetParameter(id: uint8, value: int32)
      modifies this`clipping, this`scaledClipping, this`drive, this`compress, this`waveshape, this`bassBoost, this`highBoost
      ensures Parameters() == WithParameter(old(Parameters()), id, value)
      ensures Memory() == old(Memory())
    {
      var pct := value as real / 100.0;
      match id {
        case 0 =>
          clipping := pct;
          scaledClipping := pct * pct * 20.0;
        case 1 => drive := pct;
        case 2 => compress := pct;
        case 3 => waveshape := pct * 2.0 - 1.0;
        case 4 => bassBoost := pct;
        case 5 => highBoost := pct;
        case _ =>
      }
    }

    /** The integer the host reads back for a control: the control scaled
        to percent and truncated toward zero; Shape maps [-1, 1] back onto
        0..100; an unknown id reads 0. The switch over the fields is kept as
        the source's `const` member writes it, and proved equal to
        EffectSpec.GetParameterValue, about which its properties are
        proved. */
    function GetParameterValue(id: uint8): (r: int)
      reads this`clipping, this`drive, this`compress, this`waveshape, this`bassBoost, this`highBoost
      ensures r == EffectSpec.GetParameterValue(Parameters(), id)
    {
      match id
      case 0 => TruncateTowardZero(clipping * 100.0)
      case 1 => TruncateTowardZero(drive * 100.0)
      case 2 => TruncateTowardZero(compress * 100.0)
      case 3 => TruncateTowardZero((waveshape + 1.0) * 50.0)
      case 4 => TruncateTowardZero(bassBoost * 100.0)
      case 5 => TruncateTowardZero(highBoost * 100.0)
      case _ => 0
    }
  }
}
