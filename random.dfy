/** The integral overload of GenerateRandom in Random.hpp, for 32-bit (and narrower) integral types.
    SquirrelNoise5 is not part of this model: it is the parameter `noise`. */
module Random {

  const TwoTo32: int := 0x1_0000_0000

  type uint32 = x: int | 0 <= x < 0x1_0000_0000
  type int32 = x: int | -0x8000_0000 <= x < 0x8000_0000

  /** The hash behind `GenerateRandom(position, seed)`. */
  type NoiseFunction = (int32, uint32) -> uint32

  datatype RandomError = DivisionByZero

  datatype Result<T> = Success(value: T) | Failure(error: RandomError)

  /** The code as written: `rangeSize` and `rangeSize + 1` are uint32, so the modulus wraps to 0
      when the range spans all 2^32 values. Bounds are values of one 32-bit integral type. */
  function GenerateRandom(noise: NoiseFunction, position: int32, seed: uint32, lower: int, upper: int): (r: Result<int>)
    requires upper > lower
    requires upper - lower < TwoTo32
    ensures r.Failure? <==> upper - lower == TwoTo32 - 1
    ensures r.Success? ==> lower <= r.value <= upper
  {
    var rangeSize := (upper - lower) % TwoTo32;
    WrapsOnlyAtFullWidth(upper - lower);
    var modulus := (rangeSize + 1) % TwoTo32;
    WrapsOnlyAtFullWidth(rangeSize + 1);
    if modulus == 0 then Failure(DivisionByZero)
    else Success(lower + noise(position, seed) % modulus)
  }

  /** Reduction modulo 2^32 changes nothing below 2^32 and sends 2^32 to 0. */
  lemma WrapsOnlyAtFullWidth(x: int)
    requires 0 <= x <= TwoTo32
    ensures x % TwoTo32 == (if x == TwoTo32 then 0 else x)
  {
  }

  /** The evidently intended computation: the modulus is the number of values in the range. */
  function GenerateRandomCorrected(noise: NoiseFunction, position: int32, seed: uint32, lower: int, upper: int): (r: int)
    requires upper > lower
    requires upper - lower < TwoTo32
    ensures lower <= r <= upper
    ensures r - lower == noise(position, seed) % (upper - lower + 1)
  {
    lower + noise(position, seed) % (upper - lower + 1)
  }

  /** Below full width the code as written computes exactly the intended value. */
  lemma AsWrittenAgreesBelowFullWidth(noise: NoiseFunction, position: int32, seed: uint32, lower: int, upper: int)
    requires upper > lower
    requires upper - lower < TwoTo32 - 1
    ensures GenerateRandom(noise, position, seed, lower, upper) == Success(GenerateRandomCorrected(noise, position, seed, lower, upper))
  {
  }

  /** The full int32 range makes the code as written divide by zero. */
  lemma FullInt32RangeDividesByZero(noise: NoiseFunction, position: int32, seed: uint32)
    ensures GenerateRandom(noise, position, seed, -0x8000_0000, 0x7FFF_FFFF) == Failure(DivisionByZero)
  {
  }

  /** A two-value range: the result is the low bound exactly when the noise is even. */
  lemma TwoValueRange(noise: NoiseFunction, position: int32, seed: uint32, lower: int)
    ensures GenerateRandomCorrected(noise, position, seed, lower, lower + 1) == lower <==> noise(position, seed) % 2 == 0
  {
  }
}
