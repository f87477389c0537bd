/** The machine-level values of the engine: C `int`s and `float`s as 4-byte words,
    and the float arithmetic the engine performs, kept uninterpreted. */
module Floats {

  /** A 4-byte word: the bits of one C `int` or `float` in memory or in a model file. */
  newtype Word = x: int | 0 <= x < 0x1_0000_0000

  /** A C `float`, kept as its IEEE-754 binary32 bit pattern and never inspected. */
  type Float = Word

  // The float literals of the engine, as bit patterns.
  const ZERO: Float := 0                    // 0.0f
  const ONE: Float := 0x3F80_0000           // 1.0f
  const HALF: Float := 0x3F00_0000          // 0.5f
  const TENTH: Float := 0x3DCC_CCCD         // 0.1f
  const EPSILON: Float := 0x2EDB_E6FF       // 1e-10f, keeps logf away from 0
  const HUNDRED: Float := 0x42C8_0000       // 100.0f
  const LEARNING_RATE: Float := 0x3A83_126F // 0.001f

  // The range of a 32-bit C `int`.
  const INT_MIN: int := -0x8000_0000
  const INT_MAX: int := 0x7FFF_FFFF

  predicate IsInt(x: int) {
    INT_MIN <= x <= INT_MAX
  }

  /** The two's-complement bits of a C `int`. */
  function IntToWord(x: int): Word
    requires IsInt(x)
  {
    if x < 0 then (x + 0x1_0000_0000) as Word else x as Word
  }

  /** The C `int` whose two's-complement bits are `w`. */
  function WordToInt(w: Word): (x: int)
    ensures IsInt(x)
  {
    if w < 0x8000_0000 then w as int else w as int - 0x1_0000_0000
  }

  /** Writing an `int` and reading it back gives the same `int`, and the other way round. */
  lemma IntWordRoundTrip(x: int, w: Word)
    requires IsInt(x)
    ensures WordToInt(IntToWord(x)) == x
    ensures IntToWord(WordToInt(w)) == w
  {
  }

  /** The float operations the engine uses. They are parameters of the model, so every
      property proved here holds whatever IEEE-754 rounding, NaN or infinity does. */
  datatype FloatOps = FloatOps(
    add: (Float, Float) -> Float,   // x + y
    sub: (Float, Float) -> Float,   // x - y
    mul: (Float, Float) -> Float,   // x * y
    div: (Float, Float) -> Float,   // x / y
    greater: (Float, Float) -> bool, // x > y
    exp: Float -> Float,            // expf
    log: Float -> Float,            // logf
    ofInt: int -> Float)            // (float) n

  /** relu: passes x through when it is positive, otherwise gives 0. */
  function Relu(ops: FloatOps, x: Float): (r: Float)
    ensures r == x || r == ZERO
    ensures ops.greater(x, ZERO) ==> r == x
  {
    if ops.greater(x, ZERO) then x else ZERO
  }

  /** relu_derivative: 1 where relu is the identity on a positive input, 0 elsewhere. */
  function ReluDerivative(ops: FloatOps, x: Float): (r: Float)
    ensures r == ONE || r == ZERO
  {
    if ops.greater(x, ZERO) then ONE else ZERO
  }

  /** The derivative gates exactly the inputs that relu passes through as positive. */
  lemma ReluDerivativeGates(ops: FloatOps, x: Float)
    ensures ReluDerivative(ops, x) == ONE <==> ops.greater(x, ZERO)
    ensures ReluDerivative(ops, x) == ZERO <==> !ops.greater(x, ZERO)
    ensures ReluDerivative(ops, x) == ZERO ==> Relu(ops, x) == ZERO
  {
  }
}
