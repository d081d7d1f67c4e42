/** The Arduino platform as seen by the station engine: the pseudo-random number
    calls, C integer conversions and unsigned 32-bit time arithmetic.

    Randomness is not modelled as a generator. Every call of `random(...)` in the
    source becomes a `draw: nat` parameter standing for the raw value the PRNG
    produced; the functions here map such a draw into the range the Arduino API
    promises, so every statement about the model holds for every PRNG sequence.
 */
module Platform {

  /** A value, or none (a read the source leaves undefined, an absent choice). */
  datatype Option<T> = None | Some(value: T)

  /** 2^32: the modulus of `unsigned long` / `uint32_t` on the target. */
  const U32_MOD: int := 0x1_0000_0000
  /** ULONG_MAX on the target. */
  const U32_MAX: int := 0xFFFF_FFFF
  const I32_MAX: int := 0x7FFF_FFFF
  const I32_MIN: int := -0x8000_0000

  /** Arduino `random(howbig)`: a value in [0, howbig), or 0 when howbig is 0. */
  function Random(draw: nat, howbig: int): (v: int)
    requires howbig >= 0
    ensures howbig == 0 ==> v == 0
    ensures howbig > 0 ==> 0 <= v < howbig
  {
    if howbig == 0 then 0 else draw % howbig
  }

  /** Arduino `random(howsmall, howbig)`: a value in [howsmall, howbig), or
      howsmall itself when the range is empty. */
  function RandomRange(draw: nat, howsmall: int, howbig: int): (v: int)
    ensures howsmall >= howbig ==> v == howsmall
    ensures howsmall < howbig ==> howsmall <= v < howbig
  {
    if howsmall >= howbig then howsmall else howsmall + Random(draw, howbig - howsmall)
  }

  /** Every value of `random(howbig)` is reachable: the draw is not a restriction. */
  lemma RandomReachesAll(v: int, howbig: int)
    requires 0 <= v < howbig
    ensures Random(v as nat, howbig) == v
  {
  }

  /** C integer division: the quotient is truncated toward zero. */
  function TruncDiv(a: int, b: int): (q: int)
    requires b != 0
    ensures a >= 0 && b > 0 ==> q == a / b
    ensures b > 0 ==> (if a >= 0 then q * b <= a < q * b + b else q * b - b < a <= q * b)
  {
    if (a >= 0) == (b > 0) then Abs(a) / Abs(b) else -(Abs(a) / Abs(b))
  }

  /** Mathematical absolute value. */
  function Abs(x: int): (r: nat)
    ensures r == x || r == -x
  {
    if x < 0 then -x else x
  }

  /** A C conversion of a real value to an integer type: truncation toward zero. */
  function TruncReal(x: real): (r: int)
    ensures x >= 0.0 ==> r as real <= x < r as real + 1.0
    ensures x < 0.0 ==> r as real - 1.0 < x <= r as real
  {
    if x >= 0.0 then x.Floor else -((-x).Floor)
  }

  /** The value of an integer expression stored into an `unsigned long`. */
  function U32(x: int): (r: nat)
    ensures r < U32_MOD
    ensures 0 <= x < U32_MOD ==> r == x
  {
    x % U32_MOD
  }

  /** The low 32 bits of an integer reinterpreted as `int32_t` (two's complement). */
  function I32(x: int): (r: int)
    ensures I32_MIN <= r <= I32_MAX
    ensures I32_MIN <= x <= I32_MAX ==> r == x
  {
    var u := U32(x);
    if u <= I32_MAX then u else u - U32_MOD
  }

  /** `now - since` computed on `unsigned long`: the elapsed milliseconds since
      `since`, correct across one wrap of `millis()`. */
  function Elapsed(now: int, since: int): (d: nat)
    ensures d < U32_MOD
    ensures 0 <= since <= now < since + U32_MOD ==> d == now - since
  {
    U32(now - since)
  }

  predicate IsU32(x: int) { 0 <= x < U32_MOD }

  /** 2^k. */
  function Pow2(k: nat): (p: nat)
    ensures p >= 1
  {
    if k == 0 then 1 else 2 * Pow2(k - 1)
  }

  /** Division with remainder has one answer. */
  lemma DivModUnique(x: nat, d: nat, q: nat, r: nat)
    requires d >= 1 && x == d * q + r && r < d
    ensures x % d == r && x / d == q
  {
    var q' := x / d;
    var r' := x % d;
    assert x == d * q' + r';
    if q > q' {
      MulAtLeast(d, q - q');
    } else if q < q' {
      MulAtLeast(d, q' - q);
    }
  }

  lemma MulAtLeast(d: nat, k: nat)
    requires k >= 1
    ensures d * k >= d
  {
  }

  /** The low bits of x modulo 2p: its lowest bit, then the low bits of x / 2 modulo p. */
  lemma ModDouble(x: nat, p: nat)
    requires p >= 1
    ensures x % (2 * p) == x % 2 + 2 * ((x / 2) % p)
  {
    var q := x / 2;
    var r2 := q % p;
    assert x == 2 * q + x % 2;
    assert q == p * (q / p) + r2;
    assert x == (2 * p) * (q / p) + (2 * r2 + x % 2);
    DivModUnique(x, 2 * p, q / p, 2 * r2 + x % 2);
  }
}
