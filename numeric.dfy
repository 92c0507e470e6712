/** Fixed-width integer types of the firmware, C narrowing conversions and C's `round`. */
module Numeric {

  type u8 = x: int | 0 <= x < 0x100
  type u16 = x: int | 0 <= x < 0x1_0000
  type u32 = x: int | 0 <= x < 0x1_0000_0000
  type byte = u8

  /** Conversion of an `int` to `uint8_t`: the value modulo 256. */
  function ToU8(x: int): (r: u8)
    ensures 0 <= x < 0x100 ==> r == x
    ensures (x - r) % 0x100 == 0
  {
    x % 0x100
  }

  /** Conversion of an `int` to `uint16_t`: the value modulo 65536. */
  function ToU16(x: int): (r: u16)
    ensures 0 <= x < 0x1_0000 ==> r == x
    ensures -0x1_0000 <= x < 0 ==> r == x + 0x1_0000
  {
    x % 0x1_0000
  }

  /** Unsigned 32-bit subtraction, as `millis() - tic` is computed. */
  function SubU32(a: u32, b: u32): (r: u32)
    ensures b <= a ==> r == a - b
    ensures a < b ==> r == a - b + 0x1_0000_0000
  {
    (a - b) % 0x1_0000_0000
  }

  /** C `round` on a real value: to the nearest integer, halves away from zero. */
  function CRound(x: real): (r: int)
    ensures x >= 0.0 ==> r >= 0 && (r as real) - 0.5 <= x < (r as real) + 0.5
    ensures x < 0.0 ==> r <= 0 && (r as real) - 0.5 < x <= (r as real) + 0.5
  {
    if x >= 0.0 then (x + 0.5).Floor else -((-x + 0.5).Floor)
  }

  /** Rounding a value in [0, m] stays in [0, m] when m is a whole number. */
  lemma CRoundWithin(x: real, m: nat)
    requires 0.0 <= x <= m as real
    ensures 0 <= CRound(x) <= m
  {
  }

  /** A positive multiple d*k below d has k < 1. */
  lemma MulBelowOne(d: int, k: int)
    requires d > 0 && d * k < d
    ensures k < 1
  {
    assert d * (k - 1) < 0;
  }

  /** Euclidean division is characterised by its bounds: d*q <= x < d*q + d fixes x / d. */
  lemma DivUnique(x: int, d: int, q: int)
    requires d > 0 && d * q <= x < d * q + d
    ensures x / d == q && x % d == x - d * q
  {
    var q' := x / d;
    assert d * q' <= x < d * q' + d;
    assert d * (q' - q) < d;
    assert d * (q - q') < d;
    MulBelowOne(d, q' - q);
    MulBelowOne(d, q - q');
  }

  /** `abs` on a sample. */
  function Abs(x: real): (r: real)
    ensures r >= 0.0 && (r == x || r == -x)
  {
    if x < 0.0 then -x else x
  }

  /** Float-to-integer conversion of a non-negative value truncates toward zero. */
  function Trunc(x: real): (r: int)
    ensures x >= 0.0 ==> 0 <= r && (r as real) <= x < (r as real) + 1.0
    ensures x < 0.0 ==> r <= 0 && (r as real) - 1.0 < x <= (r as real)
  {
    if x >= 0.0 then x.Floor else -((-x).Floor)
  }
}

/** Result type used for the source's undefined-behaviour paths. */
module Wrappers {

  datatype Result<+T, +E> = Success(value: T) | Failure(error: E)

  datatype Option<+T> = None | Some(value: T)

  /** The reasons a computation of the firmware has no defined outcome. */
  datatype Fault =
    | ReadOutOfRange      // an index past the logical end of an Array (Python: IndexError)
    | DivideByZero        // a division by zero (Python: ZeroDivisionError)
    | NarrowingOutOfRange // a floating-point value converted to `uint8_t` outside 0..255
}
