/** C and C++ scalar types and math-library calls the effect engine relies on.
    Floating-point values are modelled as `real`; the integer widths the code
    declares are newtypes; the transcendental functions of <math.h> are not
    defined here but passed in as a value of type `Libm`. */
module CTypes {

  newtype uint8 = x: int | 0 <= x < 0x100
  newtype uint16 = x: int | 0 <= x < 0x1_0000
  newtype int32 = x: int | -0x8000_0000 <= x < 0x8000_0000

  /** `M_PI` as <math.h> spells it. */
  const Pi: real := 3.14159265358979323846

  /** The library functions `tanhf`, `powf` and `sinf`. Their values are
      floating-point numerics the model does not interpret: every property
      proved below holds whatever functions are supplied here. */
  datatype Libm = Libm(tanhf: real -> real, powf: (real, real) -> real, sinf: real -> real)

  /** A C++ conversion from a floating value to an integer type (`int32_t(x)`,
      `static_cast<uint16_t>(x)`): the fractional part is discarded, rounding
      toward zero. */
  function TruncateTowardZero(x: real): (r: int)
    ensures 0.0 <= x ==> 0 <= r && r as real <= x < r as real + 1.0
    ensures x <= 0.0 ==> r <= 0 && r as real - 1.0 < x <= r as real
  {
    if 0.0 <= x then x.Floor else -((-x).Floor)
  }

  /** An integral value survives the conversion unchanged. */
  lemma TruncateIntegral(n: int)
    ensures TruncateTowardZero(n as real) == n
  {
  }
}
