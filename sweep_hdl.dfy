/** The MyHDL `audio_synth` of pythonMyHDLdsp07092025.py: 32 direct digital
    synthesis oscillators on 32-bit phase registers, each with a phase increment
    that itself grows by a per-oscillator `delta_inc` on every clock (a linear
    frequency sweep), read through a 256-entry 12-bit sine table at bits 30..23
    of the phase and mixed with floor division by 16. The registers are `intbv`
    of 32 unsigned bits, not `modbv`: a sum that leaves the range raises, which
    `Clock` reports as `ok == false` with nothing changed. The sine table
    `round(sin(2*pi*i/256) * 2047)` is a parameter. */
module SweepHdl {
  import opened Numeric

  const NUM_OSC: int := 32
  const LUT_DEPTH: int := 256
  /** `2**(LUT_WIDTH - 1) - 1`. */
  const LUT_MAX: int := 2047
  /** `NUM_OSC // 2`. */
  const DIVISOR: int := 16
  /** `2**23`: the weight of the address's lowest bit. */
  const ADDR_UNIT: int := 0x80_0000

  /** The table's entries within 12 signed bits; entry 0 is `round(sin(0)) = 0`. */
  predicate TableOk(lut: seq<int>) {
    |lut| == LUT_DEPTH && lut[0] == 0
    && forall k :: 0 <= k < LUT_DEPTH ==> -LUT_MAX <= lut[k] <= LUT_MAX
  }

  /** `phase[31:23]`: the 8 bits 30 down to 23. Bit 31 does not take part, so the
      address is that of the phase's low 31 bits. */
  function LutAddr(p: int): (r: int)
    requires 0 <= p < TWO32
    ensures 0 <= r < LUT_DEPTH
    ensures r * ADDR_UNIT <= p % TWO31 < (r + 1) * ADDR_UNIT
  {
    (p / ADDR_UNIT) % LUT_DEPTH
  }

  /** A phase and the same phase with bit 31 flipped share their address. */
  lemma TopBitIgnored(p: int)
    requires 0 <= p < TWO31
    ensures LutAddr(p) == LutAddr(p + TWO31)
  {
    assert (p + TWO31) / ADDR_UNIT == p / ADDR_UNIT + LUT_DEPTH;
  }

  /** `sine_val // (NUM_OSC // 2)`: floor division takes a 12-bit entry to
      [-128, 127]. */
  function Term(v: int): (r: int)
    requires -LUT_MAX <= v <= LUT_MAX
    ensures -128 <= r <= 127
    ensures r * DIVISOR <= v < (r + 1) * DIVISOR
  {
    v / DIVISOR
  }

  /** `mix` after the first k oscillators, read at the old phases. */
  function MixSum(lut: seq<int>, ps: seq<int>, k: int): int
    requires TableOk(lut) && 0 <= k <= |ps|
    requires forall i :: 0 <= i < k ==> 0 <= ps[i] < TWO32
  {
    if k == 0 then 0 else MixSum(lut, ps, k - 1) + Term(lut[LutAddr(ps[k - 1])])
  }

  /** The sum of k terms lies in [-128 k, 127 k]: the 32-oscillator mix fits the
      16-bit signed `audio_out` in [-4096, 4064]. */
  lemma {:induction false} MixBound(lut: seq<int>, ps: seq<int>, k: int)
    requires TableOk(lut) && 0 <= k <= |ps|
    requires forall i :: 0 <= i < k ==> 0 <= ps[i] < TWO32
    ensures -128 * k <= MixSum(lut, ps, k) <= 127 * k
    decreases k
  {
    if k > 0 {
      MixBound(lut, ps, k - 1);
    }
  }

  /** Whether oscillator i's two sums fit their 32-bit registers. */
  predicate VoiceFits(ps: seq<int>, incs: seq<int>, deltas: seq<int>, i: int)
    requires 0 <= i < |ps| && i < |incs| && i < |deltas|
  {
    Fits(incs[i] + deltas[i], 0, TWO32) && Fits(ps[i] + incs[i], 0, TWO32)
  }

  /** Whether the first k oscillators' sums all fit. */
  predicate FitsUpTo(ps: seq<int>, incs: seq<int>, deltas: seq<int>, k: int)
    requires 0 <= k <= |ps| && k <= |incs| && k <= |deltas|
  {
    forall i :: 0 <= i < k ==> VoiceFits(ps, incs, deltas, i)
  }

  /** Every increment after a clock: grown by its delta. */
  function NextIncs(incs: seq<int>, deltas: seq<int>): (r: seq<int>)
    requires |incs| == NUM_OSC && |deltas| == NUM_OSC
    ensures |r| == NUM_OSC
  {
    seq(NUM_OSC, i requires 0 <= i < NUM_OSC => incs[i] + deltas[i])
  }

  /** Every phase after a clock: advanced by its old increment. */
  function NextPhases(ps: seq<int>, incs: seq<int>): (r: seq<int>)
    requires |ps| == NUM_OSC && |incs| == NUM_OSC
    ensures |r| == NUM_OSC
  {
    seq(NUM_OSC, i requires 0 <= i < NUM_OSC => ps[i] + incs[i])
  }

  /** A per-oscillator sweep after k clocks that all fit: the increment and the
      phase, starting from `inc0` and `p0`. */
  function IncAfter(inc0: int, delta: int, k: nat): int
    decreases k
  {
    if k == 0 then inc0 else IncAfter(inc0, delta, k - 1) + delta
  }

  function PhaseAfter(p0: int, inc0: int, delta: int, k: nat): int
    decreases k
  {
    if k == 0 then p0 else PhaseAfter(p0, inc0, delta, k - 1) + IncAfter(inc0, delta, k - 1)
  }

  /** The increment is a linear ramp and, because each clock advances the phase
      by the increment as it was at the edge, the phase after k clocks is
      `p0 + k * inc0 + delta * k * (k - 1) / 2`. */
  lemma {:induction false} RampClosedForm(p0: int, inc0: int, delta: int, k: nat)
    ensures IncAfter(inc0, delta, k) == inc0 + k * delta
    ensures 2 * PhaseAfter(p0, inc0, delta, k) == 2 * p0 + 2 * k * inc0 + delta * k * (k - 1)
    decreases k
  {
    if k > 0 {
      RampClosedForm(p0, inc0, delta, k - 1);
      assert IncAfter(inc0, delta, k - 1) == inc0 + (k - 1) * delta;
      assert delta * k * (k - 1) == delta * (k - 1) * (k - 2) + 2 * (k - 1) * delta;
    }
  }

  /** The block's registers, the `delta_inc` signals it reads, its output and its
      sine table. */
  class Synth {
    const lut: seq<int>
    var phase: seq<int>
    var phaseInc: seq<int>
    var deltaInc: seq<int>
    var audioOut: int

    predicate Valid()
      reads this
    {
      TableOk(lut) && |phase| == NUM_OSC && |phaseInc| == NUM_OSC && |deltaInc| == NUM_OSC
      && (forall i :: 0 <= i < NUM_OSC ==> 0 <= phase[i] < TWO32 && 0 <= phaseInc[i] < TWO32)
      && (forall i :: 0 <= i < NUM_OSC ==> 0 <= deltaInc[i] < TWO32)
    }

    /** The signals' initial values (Python/89876c571a5a12b48602f010d2ac86d7/
        pythonMyHDLdsp07092025.py:20-22). In the source nothing ever drives
        `delta_inc`, which stays all 0; `deltas` is the value a host interface would
        give it. */
    constructor (table: seq<int>, deltas: seq<int>)
      requires TableOk(table) && |deltas| == NUM_OSC
      requires forall i :: 0 <= i < NUM_OSC ==> 0 <= deltas[i] < TWO32
      ensures Valid() && lut == table && deltaInc == deltas && audioOut == 0
      ensures phase == seq(NUM_OSC, _ => 0) && phaseInc == seq(NUM_OSC, _ => 0)
    {
      lut := table;
      phase, phaseInc := seq(NUM_OSC, _ => 0), seq(NUM_OSC, _ => 0);
      deltaInc := deltas;
      audioOut := 0;
    }

    /** The `always_seq` reset: the registers the process drives back to 0. */
    method Reset()
      requires Valid()
      modifies this
      ensures Valid() && deltaInc == old(deltaInc) && audioOut == 0
      ensures phase == seq(NUM_OSC, _ => 0) && phaseInc == seq(NUM_OSC, _ => 0)
    {
      phase, phaseInc := seq(NUM_OSC, _ => 0), seq(NUM_OSC, _ => 0);
      audioOut := 0;
    }

    /** One rising edge of `logic` (lines 31-40): every increment grows by its
        delta, every phase advances by its OLD increment, and the output takes the
        mix of the table entries at the old phases. The clock raises, and nothing
        changes, exactly when some sum leaves 32 unsigned bits. */
    method Clock() returns (ok: bool)
      requires Valid()
      modifies this
      ensures Valid() && deltaInc == old(deltaInc)
      ensures ok <==> FitsUpTo(old(phase), old(phaseInc), deltaInc, NUM_OSC)
      ensures ok ==> phaseInc == NextIncs(old(phaseInc), deltaInc) && phase == NextPhases(old(phase), old(phaseInc))
                     && audioOut == MixSum(lut, old(phase), NUM_OSC)
      ensures !ok ==> phase == old(phase) && phaseInc == old(phaseInc) && audioOut == old(audioOut)
    {
      var nextInc: seq<int> := [];
      var nextPhase: seq<int> := [];
      var mix := 0;
      ok := true;
      for osc := 0 to NUM_OSC
        invariant unchanged(this)
        invariant |nextInc| == osc && |nextPhase| == osc
        invariant forall j :: 0 <= j < osc ==> nextInc[j] == phaseInc[j] + deltaInc[j]
        invariant forall j :: 0 <= j < osc ==> nextPhase[j] == phase[j] + phaseInc[j]
        invariant ok <==> FitsUpTo(phase, phaseInc, deltaInc, osc)
        invariant mix == MixSum(lut, phase, osc)
      {
        var inc, p, term := Voice(osc);
        ok := ok && Fits(inc, 0, TWO32) && Fits(p, 0, TWO32);
        assert FitsUpTo(phase, phaseInc, deltaInc, osc + 1)
               <==> FitsUpTo(phase, phaseInc, deltaInc, osc) && VoiceFits(phase, phaseInc, deltaInc, osc);
        nextInc, nextPhase := nextInc + [inc], nextPhase + [p];
        mix := mix + term;
      }
      if ok {
        assert nextInc == NextIncs(phaseInc, deltaInc) && nextPhase == NextPhases(phase, phaseInc);
        FitsAll(phase, phaseInc, deltaInc);
        phaseInc, phase, audioOut := nextInc, nextPhase, mix;
      }
    }

    /** Lines 34-38 for one oscillator: its two sums and its share of the mix. */
    method Voice(osc: int) returns (inc: int, p: int, term: int)
      requires Valid() && 0 <= osc < NUM_OSC
      ensures inc == phaseInc[osc] + deltaInc[osc] && p == phase[osc] + phaseInc[osc]
      ensures term == Term(lut[LutAddr(phase[osc])])
    {
      inc, p := phaseInc[osc] + deltaInc[osc], phase[osc] + phaseInc[osc];
      var lutAddr := (phase[osc] / ADDR_UNIT) % LUT_DEPTH;
      var sineVal := lut[lutAddr];
      term := sineVal / DIVISOR;
    }
  }

  /** When every oscillator's sums fit, the next increments and phases all lie
      in 32 unsigned bits. */
  lemma FitsAll(ps: seq<int>, incs: seq<int>, deltas: seq<int>)
    requires |ps| == NUM_OSC && |incs| == NUM_OSC && |deltas| == NUM_OSC
    requires FitsUpTo(ps, incs, deltas, NUM_OSC)
    ensures forall i :: 0 <= i < NUM_OSC ==> 0 <= NextIncs(incs, deltas)[i] < TWO32
    ensures forall i :: 0 <= i < NUM_OSC ==> 0 <= NextPhases(ps, incs)[i] < TWO32
  {
    forall i | 0 <= i < NUM_OSC
      ensures 0 <= NextIncs(incs, deltas)[i] < TWO32 && 0 <= NextPhases(ps, incs)[i] < TWO32
    {
      assert VoiceFits(ps, incs, deltas, i);
    }
  }

  /** As the source elaborates it, with `delta_inc` left at 0, the block is
      silent: from the all-zero state a clock succeeds, keeps every register at 0
      and outputs 0, since entry 0 of the table is 0. */
  lemma ZeroStateStays(lut: seq<int>)
    requires TableOk(lut)
    ensures FitsUpTo(seq(NUM_OSC, _ => 0), seq(NUM_OSC, _ => 0), seq(NUM_OSC, _ => 0), NUM_OSC)
    ensures MixSum(lut, seq(NUM_OSC, _ => 0), NUM_OSC) == 0
  {
    ZeroMix(lut, seq(NUM_OSC, _ => 0), NUM_OSC);
  }

  /** Every oscillator at phase 0 reads entry 0. */
  lemma {:induction false} ZeroMix(lut: seq<int>, ps: seq<int>, k: int)
    requires TableOk(lut) && 0 <= k <= |ps|
    requires forall i :: 0 <= i < |ps| ==> ps[i] == 0
    ensures MixSum(lut, ps, k) == 0
    decreases k
  {
    if k > 0 {
      ZeroMix(lut, ps, k - 1);
    }
  }
}
