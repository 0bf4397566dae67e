/** `sc_fold`, the triangle-wave fold-back used by both granular engines.

    The source reflects the input once off the nearer boundary; if that does
    not land inside [lo, hi] it maps the position onto a triangle wave. As
    written, the position is divided by the range instead of the doubled
    range, so the wave has period `hi - lo` where the reflections and the
    SuperCollider original have period `2 * (hi - lo)`. `ScFoldAsWritten`
    is the code; `Fold` is the evident intent and is what the engines use. */
module Folding {
  import opened Numeric

  /** Which fractional-part idiom the variant uses. */
  datatype Variant = TruncCast | FloorCall

  /** `c = x - (int)x; if (c < 0) c += 1` (C++/5.cpp). */
  function FracTrunc(y: real): (c: real)
    ensures 0.0 <= c < 1.0
    ensures (y - c).Floor as real == y - c
  {
    var t := Trunc(y);
    var c := y - t as real;
    assert -1.0 < c < 1.0;
    if c < 0.0 then
      assert y - (c + 1.0) == (t - 1) as real;
      FloorOfInt(t - 1);
      c + 1.0
    else
      assert y - c == t as real;
      FloorOfInt(t);
      c
  }

  /** An integer seen as a real is its own floor. */
  lemma FloorOfInt(n: int)
    ensures (n as real).Floor == n
  {
  }

  /** `c = x - floor(x); if (c < 0) c += 1` (OpenCL/5.cpp); the correction never fires. */
  function FracFloor(y: real): (c: real)
    ensures 0.0 <= c < 1.0
    ensures (y - c).Floor as real == y - c
  {
    var c := y - y.Floor as real;
    if c < 0.0 then c + 1.0 else c
  }

  /** Both idioms give the same fractional part on every input. */
  lemma FracVariantsAgree(y: real)
    ensures FracTrunc(y) == FracFloor(y)
  {
    var t := Trunc(y);
    if y < 0.0 && t as real != y {
      assert t == y.Floor + 1;
    }
  }

  function Frac(v: Variant, y: real): (c: real)
    ensures 0.0 <= c < 1.0
  {
    match v
    case TruncCast => FracTrunc(y)
    case FloorCall => FracFloor(y)
  }

  /** The triangle wave over one period, for a phase c in [0, 1). */
  function Triangle(c: real, lo: real, hi: real): real {
    var range2 := (hi - lo) + (hi - lo);
    if c > 0.5 then hi - range2 * (c - 0.5) else lo + range2 * c
  }

  /** The part after the two reflections; `period` is what the position is divided by. */
  function Tail(v: Variant, x: real, lo: real, hi: real, period: real): real
    requires hi - lo > 0.0 ==> period != 0.0
  {
    if hi - lo <= 0.0 then lo else Triangle(Frac(v, (x - lo) / period), lo, hi)
  }

  /** The shared shape: one reflection off the boundary crossed, else the tail. */
  function Reflect(v: Variant, x: real, lo: real, hi: real, period: real): real
    requires hi - lo > 0.0 ==> period != 0.0
  {
    if x >= hi then
      var r := hi + hi - x;
      if r >= lo then r else Tail(v, x, lo, hi, period)
    else if x < lo then
      var r := lo + lo - x;
      if r < hi then r else Tail(v, x, lo, hi, period)
    else x
  }

  /** sc_fold exactly as the two sources write it: position divided by `range`. */
  function ScFoldAsWritten(v: Variant, x: real, lo: real, hi: real): real {
    Reflect(v, x, lo, hi, hi - lo)
  }

  /** sc_fold as intended: position divided by `range2`. */
  function Fold(x: real, lo: real, hi: real): real {
    Reflect(FloorCall, x, lo, hi, (hi - lo) + (hi - lo))
  }

  /** The C++ and OpenCL versions agree on every input. */
  lemma VariantsAgree(x: real, lo: real, hi: real)
    ensures ScFoldAsWritten(TruncCast, x, lo, hi) == ScFoldAsWritten(FloorCall, x, lo, hi)
  {
    if hi - lo > 0.0 {
      FracVariantsAgree((x - lo) / (hi - lo));
    }
  }

  /** Dividing by a positive number and multiplying back: the quotient is ordered like the product. */
  lemma QuotientOrder(a: real, d: real, k: real)
    requires d > 0.0
    ensures a / d < k <==> a < d * k
    ensures a / d == k <==> a == d * k
  {
    var y := a / d;
    assert d * y == a;
    if y < k {
      assert d * (k - y) > 0.0;
    } else if y > k {
      assert d * (y - k) > 0.0;
    }
  }

  /** A product of two non-negative numbers is non-negative. */
  lemma ProductNonneg(a: real, b: real)
    requires 0.0 <= a && 0.0 <= b
    ensures 0.0 <= a * b
  {
  }

  /** The triangle wave stays within [lo, hi] over its whole period. */
  lemma TriangleInRange(c: real, lo: real, hi: real)
    requires lo < hi && 0.0 <= c < 1.0
    ensures lo <= Triangle(c, lo, hi) <= hi
  {
    var r := hi - lo;
    if c > 0.5 {
      ProductNonneg(r + r, c - 0.5);
      ProductNonneg(r + r, 1.0 - c);
      assert (r + r) * (1.0 - c) == (r + r) * 0.5 - (r + r) * (c - 0.5);
    } else {
      ProductNonneg(r + r, c);
      ProductNonneg(r + r, 0.5 - c);
      assert (r + r) * (0.5 - c) == (r + r) * 0.5 - (r + r) * c;
    }
  }

  /** Inside [lo, hi] the input comes back unchanged (at hi through the reflection). */
  lemma AsWrittenIdentity(v: Variant, x: real, lo: real, hi: real)
    requires lo <= x <= hi
    ensures ScFoldAsWritten(v, x, lo, hi) == x
  {
  }

  /** Just above hi the result is the mirror image 2*hi - x, not a clamp; symmetrically below lo. */
  lemma AsWrittenReflects(v: Variant, x: real, lo: real, hi: real)
    ensures hi <= x <= 2.0 * hi - lo ==> ScFoldAsWritten(v, x, lo, hi) == 2.0 * hi - x
    ensures 2.0 * lo - hi < x < lo ==> ScFoldAsWritten(v, x, lo, hi) == 2.0 * lo - x
  {
  }

  /** For a proper range the result always lies in [lo, hi]; for an empty one it is lo
      unless a reflection returned first. */
  lemma AsWrittenInRange(v: Variant, x: real, lo: real, hi: real)
    ensures lo < hi ==> lo <= ScFoldAsWritten(v, x, lo, hi) <= hi
    ensures hi <= lo && !(x >= hi && 2.0 * hi - x >= lo) && !(x < hi && x < lo && 2.0 * lo - x < hi)
            ==> ScFoldAsWritten(v, x, lo, hi) == lo
  {
    if lo < hi {
      TriangleInRange(Frac(v, (x - lo) / (hi - lo)), lo, hi);
    }
  }

  /** The same four facts hold of the intended fold. */
  lemma FoldInRange(x: real, lo: real, hi: real)
    ensures lo <= x <= hi ==> Fold(x, lo, hi) == x
    ensures hi <= x <= 2.0 * hi - lo ==> Fold(x, lo, hi) == 2.0 * hi - x
    ensures 2.0 * lo - hi < x < lo ==> Fold(x, lo, hi) == 2.0 * lo - x
    ensures lo < hi ==> lo <= Fold(x, lo, hi) <= hi
    ensures hi <= lo && !(x >= hi && 2.0 * hi - x >= lo) && !(x < hi && x < lo && 2.0 * lo - x < hi)
            ==> Fold(x, lo, hi) == lo
  {
    if lo < hi {
      TriangleInRange(FracFloor((x - lo) / ((hi - lo) + (hi - lo))), lo, hi);
    }
  }

  /** The engines fold each voice into [-a, a] with a = |level|; the result never leaves it,
      including a = 0, where the range is empty and the result is 0. This holds for the
      corrected fold and for `sc_fold` as written, in both fractional-part idioms. */
  lemma FoldSymmetric(x: real, a: real)
    requires 0.0 <= a
    ensures -a <= Fold(x, -a, a) <= a
    ensures -a <= ScFoldAsWritten(TruncCast, x, -a, a) <= a
    ensures -a <= ScFoldAsWritten(FloorCall, x, -a, a) <= a
  {
    FoldInRange(x, -a, a);
    AsWrittenInRange(TruncCast, x, -a, a);
    AsWrittenInRange(FloorCall, x, -a, a);
  }

  /** The periodic triangle wave the intended fold is: no reflection guards at all. */
  function Ideal(x: real, lo: real, hi: real): real
    requires lo < hi
  {
    Triangle(FracFloor((x - lo) / ((hi - lo) + (hi - lo))), lo, hi)
  }

  lemma FracFloorShift(y: real)
    ensures FracFloor(y + 1.0) == FracFloor(y)
  {
    assert (y + 1.0).Floor == y.Floor + 1;
  }

  lemma FracFloorOf(y: real, c: real)
    requires 0.0 <= c < 1.0 && (y - c).Floor as real == y - c
    ensures FracFloor(y) == c
  {
  }

  /** The position inside the first half period, [lo, hi): no fold at all. */
  lemma IdealRising(x: real, lo: real, hi: real)
    requires lo <= x < hi
    ensures Ideal(x, lo, hi) == x
  {
    var d := (hi - lo) + (hi - lo);
    var y := (x - lo) / d;
    QuotientOrder(x - lo, d, 0.0);
    QuotientOrder(x - lo, d, 0.5);
    FracFloorOf(y, y);
    assert d * y == x - lo;
  }

  /** The second half period, [hi, 2*hi - lo): the mirror image off hi. */
  lemma IdealFalling(x: real, lo: real, hi: real)
    requires lo < hi <= x < 2.0 * hi - lo
    ensures Ideal(x, lo, hi) == 2.0 * hi - x
  {
    var r := hi - lo;
    var d := r + r;
    var y := (x - lo) / d;
    QuotientOrder(x - lo, d, 0.5);
    QuotientOrder(x - lo, d, 1.0);
    FracFloorOf(y, y);
    assert d * y == x - lo;
    assert d * (y - 0.5) == d * y - r;
  }

  /** The end of the period, 2*hi - lo: back at lo. */
  lemma IdealPeriodEnd(x: real, lo: real, hi: real)
    requires lo < hi && x == 2.0 * hi - lo
    ensures Ideal(x, lo, hi) == lo
  {
    var d := (hi - lo) + (hi - lo);
    QuotientOrder(x - lo, d, 1.0);
    FracFloorOf((x - lo) / d, 0.0);
  }

  /** Half a period below lo, (2*lo - hi, lo): the mirror image off lo. */
  lemma IdealBelow(x: real, lo: real, hi: real)
    requires lo < hi && 2.0 * lo - hi < x < lo
    ensures Ideal(x, lo, hi) == 2.0 * lo - x
  {
    var r := hi - lo;
    var d := r + r;
    var y := (x - lo) / d;
    QuotientOrder(x - lo, d, 0.0);
    QuotientOrder(x - lo, d, -0.5);
    FracFloorOf(y, y + 1.0);
    assert d * y == x - lo;
    assert d * (y + 1.0 - 0.5) == d * y + r;
  }

  /** On a proper range the intended fold equals the periodic triangle wave everywhere. */
  lemma FoldIsIdeal(x: real, lo: real, hi: real)
    requires lo < hi
    ensures Fold(x, lo, hi) == Ideal(x, lo, hi)
  {
    if lo <= x < hi {
      IdealRising(x, lo, hi);
    } else if hi <= x < 2.0 * hi - lo {
      IdealFalling(x, lo, hi);
    } else if x == 2.0 * hi - lo {
      IdealPeriodEnd(x, lo, hi);
    } else if 2.0 * lo - hi < x < lo {
      IdealBelow(x, lo, hi);
    }
  }

  /** Adding the divisor adds one to the quotient. */
  lemma DivShift(a: real, d: real)
    requires d > 0.0
    ensures (a + d) / d == a / d + 1.0
  {
    assert (a + d) / d == a / d + d / d;
  }

  /** The intended fold repeats with period 2*(hi - lo). */
  lemma {:induction false} FoldPeriodic(x: real, lo: real, hi: real)
    requires lo < hi
    ensures Fold(x + 2.0 * (hi - lo), lo, hi) == Fold(x, lo, hi)
  {
    var d := (hi - lo) + (hi - lo);
    FoldIsIdeal(x, lo, hi);
    FoldIsIdeal(x + 2.0 * (hi - lo), lo, hi);
    assert x + 2.0 * (hi - lo) - lo == (x - lo) + d;
    DivShift(x - lo, d);
    FracFloorShift((x - lo) / d);
  }

  /** The source as written is not periodic with that period: 0.5 folds to itself on
      [0, 1], but 2.5 folds to 1.0 instead of 0.5. */
  lemma AsWrittenNotPeriodic()
    ensures ScFoldAsWritten(TruncCast, 0.5, 0.0, 1.0) == 0.5
    ensures ScFoldAsWritten(TruncCast, 2.5, 0.0, 1.0) == 1.0
    ensures Fold(2.5, 0.0, 1.0) == 0.5
  {
    assert Trunc(2.5) == 2;
    assert FracTrunc(2.5) == 0.5;
    assert (2.5 - 0.0) / 2.0 == 1.25;
    assert (1.25).Floor == 1;
  }
}
