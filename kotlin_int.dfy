/**
 * Kotlin's `Int`: a 32-bit two's-complement integer whose `+` wraps around.
 * Every sum in the layout arithmetic of ContactListItem is evaluated with
 * `Plus`, so the model overflows exactly where the Kotlin code does.
 */
module KotlinInt {

  const MIN_VALUE: int := -0x8000_0000
  const MAX_VALUE: int := 0x7fff_ffff
  const MODULUS: int := 0x1_0000_0000

  type Int = x: int | MIN_VALUE <= x <= MAX_VALUE

  /**
   * The value that a 32-bit register holds after computing `x`: `x` reduced
   * by multiples of 2^32 into the signed range.
   */
  function Wrap(x: int): (r: Int)
    ensures (r - x) % MODULUS == 0
    ensures MIN_VALUE <= x <= MAX_VALUE ==> r == x
    decreases if x > MAX_VALUE then x - MAX_VALUE else if x < MIN_VALUE then MIN_VALUE - x else 0
  {
    if x > MAX_VALUE then Wrap(x - MODULUS)
    else if x < MIN_VALUE then Wrap(x + MODULUS)
    else x
  }

  /** Kotlin's `a + b` on `Int`: exact unless it overflows, and then off by 2^32. */
  function Plus(a: Int, b: Int): (r: Int)
    ensures MIN_VALUE <= a + b <= MAX_VALUE ==> r == a + b
    ensures a + b > MAX_VALUE ==> r == a + b - MODULUS
    ensures a + b < MIN_VALUE ==> r == a + b + MODULUS
  {
    Wrap(a + b)
  }

  /** `kotlin.math.max` on `Int` (never overflows). */
  function Max(a: Int, b: Int): (r: Int)
    ensures r >= a && r >= b
    ensures r == a || r == b
  {
    if a >= b then a else b
  }

  /**
   * A pixel quantity small enough that sums of up to eight of them (plus two
   * measured sizes) stay inside the 32-bit range: |x| <= 2^26.
   */
  predicate Moderate(x: int) {
    -0x400_0000 <= x <= 0x400_0000
  }
}
