/** The building blocks of the FM drone synths of C++/12.cpp: the table sine
    `sin_lut`, the LFSR white noise and its one-pole low-frequency noise, the
    rational `fast_tanh`, the resonant low-pass biquad and the one-comb-per-channel
    FreeVerb approximation. */
module FmDrone {
  import opened Numeric

  const SAMPLE_RATE: real := 44100.0
  /** C++/12.cpp spells pi with ten decimals. */
  const PI_F: real := 3.1415926535
  const TABLE_SIZE: int := 16384

  // ---------------------------------------------------------------- sin_lut

  /** The table slot `sin_lut` reads (C++/12.cpp:18-22): the fractional part of
      the phase (with its sign) scaled by the table size and truncated, moved up
      by one table length when negative, so it is always inside the table. */
  function SinIndex(phase: real): (idx: int)
    ensures 0 <= idx < TABLE_SIZE
    ensures phase >= 0.0 ==> idx == Trunc(Fmod1(phase) * TABLE_SIZE as real)
  {
    var i := Trunc(Fmod1(phase) * TABLE_SIZE as real);
    if i < 0 then i + TABLE_SIZE else i
  }

  /** `sin_lut` over a table of TABLE_SIZE entries. */
  function SinLut(table: seq<real>, phase: real): real
    requires |table| == TABLE_SIZE
  {
    table[SinIndex(phase)]
  }

  /** On non-negative phases the lookup has period 1. */
  lemma SinLutPeriodic(table: seq<real>, phase: real)
    requires |table| == TABLE_SIZE && phase >= 0.0
    ensures SinLut(table, phase + 1.0) == SinLut(table, phase)
  {
    assert Trunc(phase + 1.0) == Trunc(phase) + 1;
    assert Fmod1(phase + 1.0) == Fmod1(phase);
  }

  // ---------------------------------------------------------- white noise

  /** The static LFSR's seed. */
  const LFSR_SEED: bv32 := 0xACE1

  /** The feedback bit: bits 0, 2, 3 and 5 of the register XORed together. */
  function Tap(l: bv32): (b: bv32)
    ensures b == 0 || b == 1
    ensures b == ((l & 1) ^ ((l >> 2) & 1) ^ ((l >> 3) & 1) ^ ((l >> 5) & 1))
  {
    ((l >> 0) ^ (l >> 2) ^ (l >> 3) ^ (l >> 5)) & 1
  }

  /** One LFSR step (C++/12.cpp:27-28): shift right by one and put the feedback
      bit on top. The low 31 bits are the old register shifted, bit 31 is the
      feedback bit. */
  function NextLfsr(l: bv32): (r: bv32)
    ensures r & 0x7FFF_FFFF == l >> 1
    ensures r >> 31 == Tap(l)
  {
    (l >> 1) | (Tap(l) << 31)
  }

  /** The step is invertible on the bits it moves, so only the zero register
      maps to zero: from the non-zero seed the noise never locks up. */
  lemma NextLfsrZero(l: bv32)
    ensures NextLfsr(l) == 0 <==> l == 0
  {
    if NextLfsr(l) == 0 {
      assert l >> 1 == 0;
      assert l == 0 || l == 1;
      assert Tap(1) == 1;
    }
  }

  /** The register after k steps from l. */
  function LfsrAfter(l: bv32, k: nat): bv32 {
    if k == 0 then l else NextLfsr(LfsrAfter(l, k - 1))
  }

  /** From the seed, the register is non-zero at every step. */
  lemma {:induction false} LfsrNeverZero(k: nat)
    ensures LfsrAfter(LFSR_SEED, k) != 0
    decreases k
  {
    if k > 0 {
      LfsrNeverZero(k - 1);
      NextLfsrZero(LfsrAfter(LFSR_SEED, k - 1));
    }
  }

  /** The first feedback bit from the seed is 0, so the first noise value is -1. */
  lemma FirstNoise()
    ensures Tap(LFSR_SEED) == 0
    ensures NextLfsr(LFSR_SEED) == 0x5670
  {
  }

  /** The noise value of a feedback bit, `2*bit - 1`. */
  function NoiseValue(b: bv32): (w: real)
    requires b == 0 || b == 1
    ensures w == 1.0 || w == -1.0
    ensures w == 1.0 <==> b == 1
  {
    if b == 1 then 1.0 else -1.0
  }

  /** The one-pole low-pass step of `get_lfnoise` (C++/12.cpp:41): the old state
      weighted by the pole, the white sample by one minus the pole. */
  function OnePole(lp: real, state: real, white: real): (r: real)
    ensures r == Crossfade(white, state, lp)
  {
    lp * state + (1.0 - lp) * white
  }

  /** With a pole in [0, 1], a state in [-1, 1] stays there whatever the white
      sample (which is always -1 or +1). */
  lemma OnePoleBounded(lp: real, state: real, white: real)
    requires 0.0 <= lp <= 1.0 && -1.0 <= state <= 1.0 && -1.0 <= white <= 1.0
    ensures -1.0 <= OnePole(lp, state, white) <= 1.0
  {
    CrossfadeBetween(white, state, lp);
  }

  /** The statics of `get_white_noise` and `get_lfnoise`. `noiseState2` is
      declared by the source and never used. */
  class NoiseSource {
    var lfsr: bv32
    var noiseState1: real
    var noiseState2: real

    /** Program start: the LFSR at its seed, both filter states 0. */
    constructor ()
      ensures lfsr == LFSR_SEED && noiseState1 == 0.0 && noiseState2 == 0.0
    {
      lfsr := LFSR_SEED;
      noiseState1 := 0.0;
      noiseState2 := 0.0;
    }

    /** `get_white_noise` (C++/12.cpp:25-30): one LFSR step; the result is -1 or
        +1 by the feedback bit. */
    method WhiteNoise() returns (w: real)
      modifies this
      ensures lfsr == NextLfsr(old(lfsr))
      ensures w == NoiseValue(Tap(old(lfsr)))
      ensures noiseState1 == old(noiseState1) && noiseState2 == old(noiseState2)
    {
      var bit: bv32 := ((lfsr >> 0) ^ (lfsr >> 2) ^ (lfsr >> 3) ^ (lfsr >> 5)) & 1;
      lfsr := (lfsr >> 1) | (bit << 31);
      w := 2.0 * (bit as int) as real - 1.0;
    }

    /** `get_lfnoise` (C++/12.cpp:33-45) with `expf` as a parameter: the white
        sample is low-passed into `noiseState1`, which is returned. A state in
        [-1, 1] stays there whenever the pole lies in [0, 1]. */
    method LfNoise(rate: real, exp: real -> real) returns (noiseOut: real)
      modifies this
      ensures lfsr == NextLfsr(old(lfsr))
      ensures noiseOut == OnePole(exp(-2.0 * PI_F * rate / SAMPLE_RATE), old(noiseState1), NoiseValue(Tap(old(lfsr))))
      ensures noiseState1 == noiseOut && noiseState2 == old(noiseState2)
      ensures 0.0 <= exp(-2.0 * PI_F * rate / SAMPLE_RATE) <= 1.0 && -1.0 <= old(noiseState1) <= 1.0
              ==> -1.0 <= noiseState1 <= 1.0
    {
      var lpCoeff := exp(-2.0 * PI_F * rate / SAMPLE_RATE);
      var white := WhiteNoise();
      noiseOut := lpCoeff * noiseState1 + (1.0 - lpCoeff) * white;
      if 0.0 <= lpCoeff <= 1.0 && -1.0 <= noiseState1 <= 1.0 {
        OnePoleBounded(lpCoeff, noiseState1, white);
      }
      noiseState1 := noiseOut;
    }
  }

  // ------------------------------------------------------------- fast_tanh

  /** `fast_tanh` (C++/12.cpp:48-53): -1 below -3, 1 above 3, and the rational
      `x(27 + x^2)/(27 + 9x^2)` between. */
  function FastTanh(x: real): (r: real)
    ensures x < -3.0 ==> r == -1.0
    ensures x > 3.0 ==> r == 1.0
  {
    if x < -3.0 then -1.0
    else if x > 3.0 then 1.0
    else x * (27.0 + x * x) / (27.0 + 9.0 * x * x)
  }

  /** The approximation is odd. */
  lemma FastTanhOdd(x: real)
    ensures FastTanh(-x) == -FastTanh(x)
  {
    if -3.0 <= x <= 3.0 {
      assert (-x) * (-x) == x * x;
      assert (-x) * (27.0 + x * x) == -(x * (27.0 + x * x));
    }
  }

  /** It meets the clamps continuously: exactly 1 at 3 and -1 at -3. */
  lemma FastTanhEnds()
    ensures FastTanh(3.0) == 1.0 && FastTanh(-3.0) == -1.0
  {
  }

  /** Its magnitude never exceeds 1, since 27 + 9x^2 - x(27 + x^2) = (3 - x)^3
      is non-negative on [0, 3]. */
  lemma FastTanhBounded(x: real)
    ensures -1.0 <= FastTanh(x) <= 1.0
  {
    if 0.0 <= x <= 3.0 {
      RationalBound(x);
    } else if -3.0 <= x < 0.0 {
      RationalBound(-x);
      FastTanhOdd(x);
      FastTanhOdd(-x);
    }
  }

  /** The rational part lies in [0, 1] on [0, 3]. */
  lemma RationalBound(x: real)
    requires 0.0 <= x <= 3.0
    ensures 0.0 <= x * (27.0 + x * x) / (27.0 + 9.0 * x * x) <= 1.0
  {
    var d := 27.0 + 9.0 * x * x;
    var n := x * (27.0 + x * x);
    MulNonneg(x, x);
    MulNonneg(x, 27.0 + x * x);
    var y := 3.0 - x;
    MulNonneg(y, y);
    MulNonneg(y * y, y);
    assert y * y * y == d - n;
    assert n <= d;
  }

  // ------------------------------------------------------------- BiquadLPF

  /** The five coefficients of a biquad section. */
  datatype Coeffs = Coeffs(a0: real, a1: real, a2: real, b1: real, b2: real)

  /** The denominator `1 + K/Q + K^2` that `update_coeffs` normalises by. */
  function Denominator(k: real, q: real): real
    requires q != 0.0
  {
    1.0 + k / q + k * k
  }

  /** `update_coeffs` (C++/12.cpp:72-80) for K = tan(pi*Fc): the low-pass
      numerator is K^2*(1, 2, 1) and the whole section is scaled by the
      denominator, so its gain at DC, (a0 + a1 + a2)/(1 + b1 + b2), is 1. */
  function Design(k: real, q: real): (c: Coeffs)
    requires q != 0.0 && Denominator(k, q) != 0.0
    ensures c.a1 == 2.0 * c.a0 && c.a2 == c.a0
  {
    var norm := 1.0 / Denominator(k, q);
    var a0 := k * k * norm;
    Coeffs(a0, 2.0 * a0, a0, 2.0 * (k * k - 1.0) * norm, (1.0 - k / q + k * k) * norm)
  }

  /** Every designed section has unity gain at DC. */
  lemma DesignUnityDc(k: real, q: real)
    requires q != 0.0 && Denominator(k, q) != 0.0
    ensures var c := Design(k, q); c.a0 + c.a1 + c.a2 == 1.0 + c.b1 + c.b2
  {
    UnityDc(k, q, 1.0 / Denominator(k, q));
  }

  /** The arithmetic behind the unity gain at DC. */
  lemma UnityDc(k: real, q: real, norm: real)
    requires q != 0.0 && Denominator(k, q) != 0.0 && norm == 1.0 / Denominator(k, q)
    ensures 4.0 * (k * k * norm) == 1.0 + 2.0 * (k * k - 1.0) * norm + (1.0 - k / q + k * k) * norm
  {
    var d := Denominator(k, q);
    assert norm * d == 1.0;
    assert 1.0 + 2.0 * (k * k - 1.0) * norm + (1.0 - k / q + k * k) * norm
        == 1.0 + (3.0 * k * k - 1.0 - k / q) * norm;
    assert (3.0 * k * k - 1.0 - k / q) * norm == (4.0 * k * k - d) * norm;
  }

  /** For Q above 1/2 the denominator is positive for every K, so the source's
      default Q = 0.707 and the drones' Q = 1/0.3 never divide by zero. A ghost
      method rather than a lemma: the positivity of a real quadratic is a goal
      the solver does not give up on when the completed square below is absent. */
  ghost method DenominatorPositive(k: real, q: real)
    requires q > 0.5
    ensures Denominator(k, q) > 0.0
  {
    var h := k + 1.0 / (2.0 * q);
    MulNonneg(Abs(h), Abs(h));
    assert h * h == Abs(h) * Abs(h);
    assert 1.0 / (2.0 * q) < 1.0;
    assert 1.0 / (2.0 * q) * (1.0 / (2.0 * q)) < 1.0;
    assert Denominator(k, q) == h * h + 1.0 - 1.0 / (2.0 * q) * (1.0 / (2.0 * q));
  }

  /** One sample through the transposed direct form II section
      (C++/12.cpp:82-87): the output and the two new state values. */
  datatype Section = Section(out: real, z1: real, z2: real)

  function BiquadStep(c: Coeffs, z1: real, z2: real, x: real): (s: Section)
    ensures s.out == x * c.a0 + z1
    ensures s.z1 == x * c.a1 + z2 - c.b1 * s.out
    ensures s.z2 == x * c.a2 - c.b2 * s.out
  {
    var out := x * c.a0 + z1;
    Section(out, x * c.a1 + z2 - c.b1 * out, x * c.a2 - c.b2 * out)
  }

  /** A section with unity DC gain has, for a constant input x, the steady state
      (x*(1 - a0), x*(a2 - b2)): from it the output is x and the state stays. */
  lemma BiquadDcSteady(c: Coeffs, x: real)
    requires c.a0 + c.a1 + c.a2 == 1.0 + c.b1 + c.b2
    ensures BiquadStep(c, x * (1.0 - c.a0), x * (c.a2 - c.b2), x)
         == Section(x, x * (1.0 - c.a0), x * (c.a2 - c.b2))
  {
    var s := BiquadStep(c, x * (1.0 - c.a0), x * (c.a2 - c.b2), x);
    assert s.out == x;
    assert s.z1 == x * (c.a1 + c.a2 - c.b2 - c.b1);
  }

  /** Design composed with the step: the filter passes DC unchanged. */
  lemma DesignPassesDc(k: real, q: real, x: real)
    requires q != 0.0 && Denominator(k, q) != 0.0
    ensures var c := Design(k, q);
            BiquadStep(c, x * (1.0 - c.a0), x * (c.a2 - c.b2), x).out == x
  {
    DesignUnityDc(k, q);
    BiquadDcSteady(Design(k, q), x);
  }

  /** `BiquadLPF` and its fields. */
  class BiquadLpf {
    var a0: real
    var a1: real
    var a2: real
    var b1: real
    var b2: real
    var z1: real
    var z2: real
    var fc: real
    var q: real

    function Coefficients(): Coeffs
      reads this
    {
      Coeffs(a0, a1, a2, b1, b2)
    }

    /** The constructor (C++/12.cpp:62-64): zero state, Fc = 0.5, Q = 0.707, and
        the coefficients designed from them with `tanf` as a parameter. */
    constructor (tan: real -> real)
      ensures z1 == 0.0 && z2 == 0.0 && fc == 0.5 && q == 0.707
      ensures Denominator(tan(PI_F * 0.5), 0.707) > 0.0
      ensures Coefficients() == Design(tan(PI_F * 0.5), 0.707)
    {
      z1, z2 := 0.0, 0.0;
      fc, q := 0.5, 0.707;
      new;
      DenominatorPositive(tan(PI_F * fc), q);
      UpdateCoeffs(tan);
    }

    /** `setFcQ` (C++/12.cpp:66-70): the cutoff is stored as a fraction of the
        sample rate, then the coefficients are redesigned. */
    method SetFcQ(newFc: real, newQ: real, tan: real -> real)
      requires newQ != 0.0 && Denominator(tan(PI_F * (newFc / SAMPLE_RATE)), newQ) != 0.0
      modifies this
      ensures fc == newFc / SAMPLE_RATE && q == newQ
      ensures Coefficients() == Design(tan(PI_F * fc), q)
      ensures z1 == old(z1) && z2 == old(z2)
    {
      fc := newFc / SAMPLE_RATE;
      q := newQ;
      UpdateCoeffs(tan);
    }

    /** `update_coeffs` (C++/12.cpp:72-80). */
    method UpdateCoeffs(tan: real -> real)
      requires q != 0.0 && Denominator(tan(PI_F * fc), q) != 0.0
      modifies this
      ensures z1 == old(z1) && z2 == old(z2) && fc == old(fc) && q == old(q)
      ensures Coefficients() == Design(tan(PI_F * fc), q)
    {
      var k := tan(PI_F * fc);
      assert Denominator(k, q) == 1.0 + k / q + k * k;
      var norm := 1.0 / (1.0 + k / q + k * k);
      a0 := k * k * norm;
      a1 := 2.0 * a0;
      a2 := a0;
      b1 := 2.0 * (k * k - 1.0) * norm;
      b2 := (1.0 - k / q + k * k) * norm;
    }

    /** `process` (C++/12.cpp:82-87): one sample through the section. */
    method Process(x: real) returns (out: real)
      modifies this
      ensures Section(out, z1, z2) == BiquadStep(old(Coefficients()), old(z1), old(z2), x)
      ensures Coefficients() == old(Coefficients()) && fc == old(fc) && q == old(q)
    {
      out := x * a0 + z1;
      z1 := x * a1 + z2 - b1 * out;
      z2 := x * a2 - b2 * out;
    }
  }

  // -------------------------------------------------------- SimpleFreeVerb

  const DELAY_LEN: int := 1000

  /** The slot half a line ahead of p, read by the damping filter. */
  function Opposite(p: int): (r: int)
    requires 0 <= p < DELAY_LEN
    ensures 0 <= r < DELAY_LEN && r != p
    ensures r == if p < DELAY_LEN / 2 then p + DELAY_LEN / 2 else p - DELAY_LEN / 2
  {
    (p + DELAY_LEN / 2) % DELAY_LEN
  }

  /** The value a comb writes back: the input plus the comb coefficient times
      the delayed sample damped towards the tap half a line ahead. */
  function Feedback(input: real, comb: real, damp: real, delayed: real, tap: real): real {
    input + comb * Crossfade(tap, delayed, damp)
  }

  /** The constructor's nested loops: every slot of both lines set to 0. */
  method Clear(lines: array2<real>)
    requires lines.Length0 == 2 && lines.Length1 == DELAY_LEN
    modifies lines
    ensures forall ch, i :: 0 <= ch < 2 && 0 <= i < DELAY_LEN ==> lines[ch, i] == 0.0
  {
    for ch := 0 to 2
      invariant forall c, i :: 0 <= c < ch && 0 <= i < DELAY_LEN ==> lines[c, i] == 0.0
    {
      for i := 0 to DELAY_LEN
        invariant forall c, j :: 0 <= c < ch && 0 <= j < DELAY_LEN ==> lines[c, j] == 0.0
        invariant forall j :: 0 <= j < i ==> lines[ch, j] == 0.0
      {
        lines[ch, i] := 0.0;
      }
    }
  }

  /** `SimpleFreeVerb`: two delay lines of 1000 samples with one read/write
      pointer each, and the five parameters. */
  class SimpleFreeVerb {
    const delayLine: array2<real>
    const delayPtr: array<int>
    var roomSize: real
    var damp: real
    var mix: real
    var combCoeff: real
    var dampCoeff: real

    predicate Valid()
      reads this, delayPtr
    {
      delayLine.Length0 == 2 && delayLine.Length1 == DELAY_LEN && delayPtr.Length == 2
      && 0 <= delayPtr[0] < DELAY_LEN && 0 <= delayPtr[1] < DELAY_LEN
    }

    /** The constructor (C++/12.cpp:99-108): room 0.6, damping 0.3, mix 0.4, the
        derived comb and damping coefficients, both pointers 0 and both lines
        all zero. */
    constructor ()
      ensures Valid() && fresh(delayLine) && fresh(delayPtr)
      ensures roomSize == 0.6 && damp == 0.3 && mix == 0.4
      ensures combCoeff == 0.6 && dampCoeff == 0.7
      ensures delayPtr[0] == 0 && delayPtr[1] == 0
      ensures forall ch, i :: 0 <= ch < 2 && 0 <= i < DELAY_LEN ==> delayLine[ch, i] == 0.0
    {
      var r, d := 0.6, 0.3;
      roomSize, damp, mix := r, d, 0.4;
      combCoeff := r;
      dampCoeff := 1.0 - d;
      delayLine := new real[2, DELAY_LEN];
      delayPtr := new int[2];
      new;
      delayPtr[0], delayPtr[1] := 0, 0;
      Clear(delayLine);
    }

    /** `setParams` (C++/12.cpp:110-116): the comb coefficient follows the room
        size and the damping coefficient is one minus the damping. */
    method SetParams(m: real, r: real, d: real)
      modifies this
      ensures mix == m && roomSize == r && damp == d
      ensures combCoeff == r && dampCoeff == 1.0 - d
    {
      mix := m;
      roomSize := r;
      damp := d;
      combCoeff := roomSize;
      dampCoeff := 1.0 - damp;
    }

    /** One channel's comb (C++/12.cpp:123-128 and 131-136): read the slot at the
        pointer, write the feedback value there, advance the pointer modulo the
        line length; no other slot and no other pointer changes. */
    method Comb(ch: int, input: real) returns (delayed: real)
      requires Valid() && 0 <= ch < 2
      modifies delayLine, delayPtr
      ensures Valid()
      ensures delayed == old(delayLine[ch, delayPtr[ch]])
      ensures delayLine[ch, old(delayPtr[ch])]
           == Feedback(input, combCoeff, dampCoeff, delayed, old(delayLine[ch, Opposite(delayPtr[ch])]))
      ensures forall c, i :: 0 <= c < 2 && 0 <= i < DELAY_LEN && (c != ch || i != old(delayPtr[ch]))
                ==> delayLine[c, i] == old(delayLine[c, i])
      ensures delayPtr[ch] == (old(delayPtr[ch]) + 1) % DELAY_LEN
      ensures delayPtr[1 - ch] == old(delayPtr[1 - ch])
    {
      var p := delayPtr[ch];
      delayed := delayLine[ch, p];
      var filtered := dampCoeff * delayed + (1.0 - dampCoeff) * delayLine[ch, (p + DELAY_LEN / 2) % DELAY_LEN];
      var feedback := input + combCoeff * filtered;
      delayLine[ch, p] := feedback;
      delayPtr[ch] := (p + 1) % DELAY_LEN;
    }

    /** `process` (C++/12.cpp:118-140): the mono input feeds both combs, each
        channel's reverb is the sample its comb read, and each output is the
        dry/wet crossfade by `mix`. Only the two slots at the old pointers are
        written; the parameters do not change. */
    method Process(left: real, right: real) returns (newLeft: real, newRight: real)
      requires Valid()
      modifies delayLine, delayPtr
      ensures Valid()
      ensures newLeft == Crossfade(left, old(delayLine[0, delayPtr[0]]), mix)
      ensures newRight == Crossfade(right, old(delayLine[1, delayPtr[1]]), mix)
      ensures forall ch :: 0 <= ch < 2 ==> delayPtr[ch] == (old(delayPtr[ch]) + 1) % DELAY_LEN
      ensures forall ch :: 0 <= ch < 2 ==>
                delayLine[ch, old(delayPtr[ch])]
                == Feedback((left + right) * 0.5, combCoeff, dampCoeff, old(delayLine[ch, delayPtr[ch]]),
                            old(delayLine[ch, Opposite(delayPtr[ch])]))
      ensures forall ch, i :: 0 <= ch < 2 && 0 <= i < DELAY_LEN && i != old(delayPtr[ch])
                ==> delayLine[ch, i] == old(delayLine[ch, i])
    {
      var input := (left + right) * 0.5;
      ghost var first, second := delayLine[0, delayPtr[0]], delayLine[1, delayPtr[1]];
      var reverbLeft := Comb(0, input);
      assert reverbLeft == first;
      assert delayLine[1, delayPtr[1]] == second;
      var reverbRight := Comb(1, input);
      assert reverbRight == second;
      newLeft := Crossfade(left, reverbLeft, mix);
      newRight := Crossfade(right, reverbRight, mix);
    }
  }
}
