/** Go's fixed-width integer arithmetic, written out over Dafny's unbounded integers. */
module GoInts {

  const U64_MODULUS: int := 0x1_0000_0000_0000_0000
  const MAX_INT64: int := 0x7FFF_FFFF_FFFF_FFFF
  const MIN_INT64: int := -0x8000_0000_0000_0000

  /** Values of Go's `uint64`. */
  type u64 = x: int | 0 <= x < 0x1_0000_0000_0000_0000

  /** Go's `a + b` on `uint64`: wraps around modulo 2^64. */
  function AddU64(a: u64, b: u64): (r: u64)
    ensures a + b < U64_MODULUS ==> r == a + b
    ensures a + b >= U64_MODULUS ==> r == a + b - U64_MODULUS
  {
    (a + b) % U64_MODULUS
  }

  /** The value an `int64` holds after arithmetic whose exact result is `x`: two's-complement wrap-around. */
  function WrapInt64(x: int): (r: int)
    ensures MIN_INT64 <= r <= MAX_INT64
    ensures MIN_INT64 <= x <= MAX_INT64 ==> r == x
  {
    (x - MIN_INT64) % U64_MODULUS + MIN_INT64
  }

  /** The `int64` value wraps rather than saturates: it is off from the exact value by a multiple of 2^64. */
  lemma WrapInt64Wraps(x: int)
    ensures (WrapInt64(x) - x) % U64_MODULUS == 0
  {
    var q := (x - MIN_INT64) / U64_MODULUS;
    assert WrapInt64(x) - x == -q * U64_MODULUS;
  }

  /** `time.Time.Sub`: the difference in nanoseconds, saturated to the range of `time.Duration`. */
  function SaturateInt64(x: int): (r: int)
    ensures MIN_INT64 <= r <= MAX_INT64
    ensures (r >= 0) == (x >= 0)
    ensures MIN_INT64 <= x <= MAX_INT64 ==> r == x
  {
    if x > MAX_INT64 then MAX_INT64 else if x < MIN_INT64 then MIN_INT64 else x
  }

  /** Outside the range, `time.Time.Sub` answers the bound on the difference's side. */
  lemma SaturateInt64Clamps(x: int)
    ensures x > MAX_INT64 ==> SaturateInt64(x) == MAX_INT64
    ensures x < MIN_INT64 ==> SaturateInt64(x) == MIN_INT64
  {
  }

  /** Adding to a value already wrapped to `int64` wraps like adding to the exact value. */
  lemma WrapInt64Add(a: int, b: int)
    ensures WrapInt64(WrapInt64(a) + b) == WrapInt64(a + b)
  {
    var q := (a - MIN_INT64) / U64_MODULUS;
    assert WrapInt64(a) == a - q * U64_MODULUS;
    ModuloShift(a + b - MIN_INT64, q);
  }

  lemma ModuloShift(x: int, q: int)
    ensures (x - q * U64_MODULUS) % U64_MODULUS == x % U64_MODULUS
  {
    var r := x % U64_MODULUS;
    var d := x / U64_MODULUS;
    assert x == d * U64_MODULUS + r;
    assert x - q * U64_MODULUS == (d - q) * U64_MODULUS + r;
  }
}
