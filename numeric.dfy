/** Arithmetic shared by every kernel: C's float-to-int conversion, the
    fractional part fmodf(x, 1) computes, 32-bit wrap-around and the
    signed view of a 32-bit register. */
module Numeric {

  const TWO32: int := 0x1_0000_0000
  const TWO31: int := 0x8000_0000

  /** The value of pi the C sources use through M_PI (double precision). */
  const PI: real := 3.141592653589793
  const TWO_PI: real := 2.0 * PI

  /** C's `(int)x` for a float: truncation toward zero. */
  function Trunc(x: real): (r: int)
    ensures x >= 0.0 ==> 0 <= r && r as real <= x < r as real + 1.0
    ensures x < 0.0 ==> r <= 0 && r as real - 1.0 < x <= r as real
  {
    if x >= 0.0 then x.Floor else -((-x).Floor)
  }

  /** C's `fmodf(x, 1.0f)`: the remainder keeps the sign of x, so it lies in (-1, 1). */
  function Fmod1(x: real): (r: real)
    ensures -1.0 < r < 1.0
    ensures x >= 0.0 ==> 0.0 <= r
    ensures x < 0.0 ==> r <= 0.0
    ensures (x - r).Floor as real == x - r
  {
    x - Trunc(x) as real
  }

  /** A register of 32 bits wraps modulo 2^32 (MyHDL modbv, C unsigned). */
  function Wrap32(x: int): (r: int)
    ensures 0 <= r < TWO32
    ensures (x - r) % TWO32 == 0
  {
    x % TWO32
  }

  /** `.signed()` of a 32-bit modbv: the two's-complement reading of its bits. */
  function Signed32(x: int): (r: int)
    requires 0 <= x < TWO32
    ensures -TWO31 <= r < TWO31
    ensures (r - x) % TWO32 == 0
  {
    if x >= TWO31 then x - TWO32 else x
  }

  /** `fabs`. */
  function Abs(x: real): (r: real)
    ensures 0.0 <= r && (r == x || r == -x)
  {
    if x < 0.0 then -x else x
  }

  /** A value fits an intbv declared with `min=lo, max=hi` (hi exclusive). */
  predicate Fits(v: int, lo: int, hi: int) {
    lo <= v < hi
  }

  /** Python's `a % b`: the remainder takes the divisor's sign, so it lies in
      [0, b) for b > 0 and in (b, 0] for b < 0. */
  function PyMod(a: int, b: int): (r: int)
    requires b != 0
    ensures b > 0 ==> 0 <= r < b && r == a % b
    ensures b < 0 ==> b < r <= 0
  {
    if b > 0 then a % b else -((-a) % (-b))
  }

  /** A 32-bit accumulator k clocks after 0, stepping by f modulo 2^32 on each. */
  function Accumulated(f: int, k: nat): int
    decreases k
  {
    if k == 0 then 0 else (Accumulated(f, k - 1) + f) % TWO32
  }

  /** After k clocks the accumulator holds `k * f` modulo 2^32. */
  lemma {:induction false} AccumulatedIs(f: nat, k: nat)
    ensures Accumulated(f, k) == (k * f) % TWO32
    decreases k
  {
    if k > 0 {
      AccumulatedIs(f, k - 1);
      var q := ((k - 1) * f) / TWO32;
      var r := ((k - 1) * f) % TWO32;
      assert (k - 1) * f == q * TWO32 + r;
      assert k * f == q * TWO32 + (r + f);
      AddMultiple(r + f, q);
    }
  }

  /** Adding a multiple of 2^32 leaves the remainder alone. */
  lemma AddMultiple(x: int, q: int)
    ensures (q * TWO32 + x) % TWO32 == x % TWO32
  {
  }

  /** A counter that wraps after its limit: one up while below the limit, else 0. */
  function CounterNext(c: int, limit: int): (r: int)
    ensures c < limit ==> r == c + 1
    ensures c >= limit ==> r == 0
  {
    if c < limit then c + 1 else 0
  }

  /** A counter n clocks after it held c. */
  function Run(c: int, n: nat, limit: int): int
    decreases n
  {
    if n == 0 then c else Run(CounterNext(c, limit), n - 1, limit)
  }

  /** Running a + b clocks is running a clocks, then b more. */
  lemma {:induction false} RunSplit(c: int, a: nat, b: nat, limit: int)
    ensures Run(c, a + b, limit) == Run(Run(c, a, limit), b, limit)
    decreases a
  {
    if a > 0 {
      RunSplit(CounterNext(c, limit), a - 1, b, limit);
    }
  }

  /** Below the limit the counter just counts. */
  lemma {:induction false} RunUp(c: int, n: nat, limit: int)
    requires c + n <= limit
    ensures Run(c, n, limit) == c + n
    decreases n
  {
    if n > 0 {
      RunUp(c + 1, n - 1, limit);
    }
  }

  /** From 0 the counter reads r on clock r up to the limit, and then starts again:
      it runs 0, 1, ..., limit, 0, 1, ..., with period `limit + 1`. */
  lemma CounterCycles(r: nat, k: nat, limit: nat)
    ensures r <= limit ==> Run(0, r, limit) == r
    ensures Run(0, k + limit + 1, limit) == Run(0, k, limit)
  {
    if r <= limit {
      RunUp(0, r, limit);
    }
    RunUp(0, limit, limit);
    RunSplit(0, limit, 1, limit);
    RunSplit(0, limit + 1, k, limit);
  }

  /** The product of two non-negative reals is non-negative. */
  lemma MulNonneg(a: real, b: real)
    requires a >= 0.0 && b >= 0.0
    ensures a * b >= 0.0
  {
  }

  /** n times b, as the sum of n copies of b. */
  function Times(n: nat, b: real): real {
    if n == 0 then 0.0 else Times(n - 1, b) + b
  }

  /** n copies of b add up to the product n * b. */
  lemma {:induction false} TimesIs(n: nat, b: real)
    ensures Times(n, b) == n as real * b
    decreases n
  {
    if n > 0 {
      TimesIs(n - 1, b);
      assert (n - 1) as real * b + b == n as real * b;
    }
  }

  /** A dry value blended towards a wet one by the weight w,
      `dry*(1 - w) + wet*w`: the dry value at weight 0, the wet one at weight 1. */
  function Crossfade(dry: real, wet: real, w: real): (r: real)
    ensures w == 0.0 ==> r == dry
    ensures w == 1.0 ==> r == wet
  {
    dry * (1.0 - w) + wet * w
  }

  /** For a weight in [0, 1] the blend lies between the two values. */
  lemma CrossfadeBetween(dry: real, wet: real, w: real)
    requires 0.0 <= w <= 1.0
    ensures dry <= wet ==> dry <= Crossfade(dry, wet, w) <= wet
    ensures wet <= dry ==> wet <= Crossfade(dry, wet, w) <= dry
  {
    assert Crossfade(dry, wet, w) == dry + (wet - dry) * w;
    if dry <= wet {
      MulNonneg(wet - dry, w);
      MulNonneg(wet - dry, 1.0 - w);
    } else {
      MulNonneg(dry - wet, w);
      MulNonneg(dry - wet, 1.0 - w);
    }
  }
}
