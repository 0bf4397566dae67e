/** The clocked MyHDL sketch of the granular engine (Python/5.py): 16.16 fixed
    point, a parallel-xor LFSR, first-free-slot activation of grains and
    two-phase register updates. `sin_lookup`, `cos_lookup` and `sc_fold_impl`
    are never defined in the source; they are parameters here. The four per-grain
    signal lists `counter`, `car_phase`, `mod_phase` and `active` are held as one
    array of grain registers. */
module GrainHdl {
  import opened Numeric
  import Xorshift

  const VOICES: int := 5
  const GRAINS: int := 32
  const SR: int := 44100
  const DENSITY: int := 100
  /** 2^16, the unit of the 16.16 fixed point. */
  const ONE: int := 0x1_0000
  /** `int(0.1 * 2**16)`. */
  const LINE_INIT: int := 6553
  /** `int((20 - 0.1) * 2**16 / (5 * SR))`. */
  const LINE_SLOPE: int := 5
  /** `int(20 * 2**16)`. */
  const LINE_CAP: int := 20 * 0x1_0000
  /** `int(2 * 3.1416 * 20 / SR * 2**16)`. */
  const SIN_INC: int := 186
  /** `int(0.02 * SR)`, a grain's length in cycles. */
  const GRAIN_LEN: int := 882
  /** `int(0.1 * 2**16)`, the gain applied to each folded voice. */
  const GAIN: int := 6553

  /** `freqs[v]` and `modFreqs[v]`. */
  function Freq(v: int): int {
    100 + v * 1000
  }

  function ModFreq(v: int): int {
    200 + v * 1000
  }

  /** `2 * 3.1416 * f // SR`: the floor of the phase increment, pi taken as 3.1416. */
  function PhaseInc(f: nat): (r: nat)
    ensures r as real <= 2.0 * 3.1416 * f as real / SR as real < r as real + 1.0
  {
    (2 * 31416 * f) / (10000 * SR)
  }

  /** Every voice's increments floor to 0: the grain phases never move. */
  lemma IncrementsVanish(v: int)
    requires 0 <= v < VOICES
    ensures PhaseInc(Freq(v)) == 0 && PhaseInc(ModFreq(v)) == 0
  {
  }

  /** `lfsr ^ (lfsr << 13) ^ (lfsr >> 17) ^ (lfsr << 5)` stored in 32 bits: all
      three shifts are of the old value. Truncating after the xor is truncating
      each operand, so the 32-bit shifts give the same register. */
  function ParallelNext(l: bv32): bv32 {
    l ^ (l << 13) ^ (l >> 17) ^ (l << 5)
  }

  /** This is not the sequential xorshift of the C++ engine: from the seed 1 the
      two generators already part after one step. */
  lemma ParallelIsNotSequential()
    ensures ParallelNext(1) == 8225
    ensures Xorshift.Next(1) == 270369
    ensures ParallelNext(1) != Xorshift.Next(1)
  {
    Xorshift.FirstSteps();
  }

  /** `dust_counter.signed() <= 0`: the counter is 0 or its top bit is set. */
  predicate Fires(dc: int)
    requires 0 <= dc < TWO32
  {
    Signed32(dc) <= 0
  }

  lemma FiresIff(dc: int)
    requires 0 <= dc < TWO32
    ensures Fires(dc) <==> dc == 0 || dc >= TWO31
  {
  }

  /** The dust counter's next value: reloaded with `lfsr // density` when it fires,
      one less (modulo 2^32) otherwise. */
  function NextDust(dc: int, l: bv32): (r: int)
    requires 0 <= dc < TWO32
    ensures 0 <= r < TWO32
    ensures Fires(dc) ==> r == l as int / DENSITY
    ensures !Fires(dc) ==> r == dc - 1
  {
    if Fires(dc) then l as int / DENSITY else Wrap32(dc - 1)
  }

  /** `trig`: 0 unless the counter fires, then `lfsr - 2^31`, a value in
      [-2^31, 2^31) that is its own `.signed()` reading. */
  function Trig(dc: int, l: bv32): (t: int)
    requires 0 <= dc < TWO32
    ensures -TWO31 <= t < TWO31
    ensures t > 0 ==> Fires(dc) && l as int > TWO31
  {
    if Fires(dc) then l as int - TWO31 else 0
  }

  /** Activation happens on a positive trigger after a cycle without one. */
  predicate Rising(dc: int, l: bv32, prevTrig: bool)
    requires 0 <= dc < TWO32
  {
    Trig(dc, l) > 0 && !prevTrig
  }

  /** `line_level`'s next value: the old one plus the slope, or the cap when the
      old value was already above it. The test looks at the old value, so the
      level can exceed the cap by one slope for one cycle, and no more. */
  function NextLine(ll: int): (r: int)
    requires 0 <= ll <= LINE_CAP + LINE_SLOPE
    ensures 0 <= r <= LINE_CAP + LINE_SLOPE
    ensures ll > LINE_CAP ==> r == LINE_CAP
    ensures ll <= LINE_CAP ==> r == ll + LINE_SLOPE
  {
    if ll > LINE_CAP then LINE_CAP else Wrap32(ll + LINE_SLOPE)
  }

  /** The four registers of one grain slot. */
  datatype GrainReg = GrainReg(counter: int, carPhase: int, modPhase: int, active: bool)

  /** A slot as a fresh activation leaves it. */
  const FRESH: GrainReg := GrainReg(GRAIN_LEN, 0, 0, true)

  /** The register file as `reset` leaves it. */
  const IDLE: GrainReg := GrainReg(0, 0, 0, false)

  /** The position of `counter[v][g]` and its siblings in the flattened register file. */
  function Slot(v: int, g: int): int {
    v * GRAINS + g
  }

  /** Different (voice, grain) pairs have different slots. */
  lemma SlotsDiffer(u: int, h: int, v: int, g: int)
    requires 0 <= h < GRAINS && 0 <= g < GRAINS
    ensures Slot(u, h) == Slot(v, g) <==> u == v && h == g
  {
    if u < v {
      assert Slot(u, h) < Slot(u + 1, 0) <= Slot(v, 0) <= Slot(v, g);
    } else if v < u {
      assert Slot(v, g) < Slot(v + 1, 0) <= Slot(u, 0) <= Slot(u, h);
    }
  }

  /** Every register within 32 bits, and an active grain's counter within its length. */
  predicate RegOk(r: GrainReg) {
    0 <= r.counter < TWO32 && 0 <= r.carPhase < TWO32 && 0 <= r.modPhase < TWO32
    && (r.active ==> r.counter <= GRAIN_LEN)
  }

  predicate RegsOk(s: seq<GrainReg>) {
    |s| == VOICES * GRAINS && forall i :: 0 <= i < |s| ==> RegOk(s[i])
  }

  /** The first slot of voice v from g on that is inactive, or GRAINS if there is none. */
  function FirstFreeFrom(s: seq<GrainReg>, v: int, g: int): (f: int)
    requires |s| == VOICES * GRAINS && 0 <= v < VOICES && 0 <= g <= GRAINS
    ensures g <= f <= GRAINS
    ensures f < GRAINS ==> !s[Slot(v, f)].active
    ensures forall h :: g <= h < f ==> s[Slot(v, h)].active
    decreases GRAINS - g
  {
    if g == GRAINS then GRAINS
    else if !s[Slot(v, g)].active then g
    else FirstFreeFrom(s, v, g + 1)
  }

  /** A slot with only active slots before it, and itself inactive or past the
      row's end, is where the search from k stops. */
  lemma {:induction false} FirstFreeIs(s: seq<GrainReg>, v: int, k: int, g: int)
    requires |s| == VOICES * GRAINS && 0 <= v < VOICES && 0 <= k <= g <= GRAINS
    requires forall h :: k <= h < g ==> s[Slot(v, h)].active
    requires g < GRAINS ==> !s[Slot(v, g)].active
    ensures FirstFreeFrom(s, v, k) == g
    decreases g - k
  {
    if k < g {
      FirstFreeIs(s, v, k + 1, g);
    }
  }

  /** Slot g of voice v is the one a rising edge activates: the first inactive
      slot of the voice (the search stops at it with `break`). */
  predicate Claimed(s: seq<GrainReg>, rising: bool, v: int, g: int)
    requires |s| == VOICES * GRAINS && 0 <= v < VOICES && 0 <= g < GRAINS
  {
    rising && FirstFreeFrom(s, v, 0) == g
  }

  /** A slot after the activation loop: fresh if claimed, as before otherwise. */
  function AfterClaim(s: seq<GrainReg>, rising: bool, v: int, g: int): GrainReg
    requires |s| == VOICES * GRAINS && 0 <= v < VOICES && 0 <= g < GRAINS
  {
    if Claimed(s, rising, v, g) then FRESH else s[Slot(v, g)]
  }

  /** An active grain's next registers: counter down by one, phases on by their
      increments (all modulo 2^32), and inactive after the cycle its counter was 0. */
  function Advance(r: GrainReg, v: int): GrainReg
    requires 0 <= v < VOICES
  {
    GrainReg(Wrap32(r.counter - 1), Wrap32(r.carPhase + PhaseInc(Freq(v))),
             Wrap32(r.modPhase + PhaseInc(ModFreq(v))), r.counter != 0)
  }

  /** A slot's next registers: every assignment reads the old values, activation
      touches only an inactive slot and the grain loop only active ones. */
  function NextAt(s: seq<GrainReg>, rising: bool, v: int, g: int): GrainReg
    requires |s| == VOICES * GRAINS && 0 <= v < VOICES && 0 <= g < GRAINS
  {
    if s[Slot(v, g)].active then Advance(s[Slot(v, g)], v) else AfterClaim(s, rising, v, g)
  }

  /** The whole register file after one clock. */
  function NextRegs(s: seq<GrainReg>, rising: bool): (t: seq<GrainReg>)
    requires |s| == VOICES * GRAINS
    ensures |t| == |s|
  {
    seq(VOICES * GRAINS, i requires 0 <= i < VOICES * GRAINS => NextAt(s, rising, i / GRAINS, i % GRAINS))
  }

  /** Every slot of the flattened file is `Slot(v, g)` of one voice and grain. */
  lemma SlotOf(i: int)
    requires 0 <= i < VOICES * GRAINS
    ensures 0 <= i / GRAINS < VOICES && 0 <= i % GRAINS < GRAINS
    ensures i == Slot(i / GRAINS, i % GRAINS)
  {
  }

  /** NextRegs at a slot is NextAt of that slot's voice and grain. */
  lemma NextRegsAt(s: seq<GrainReg>, rising: bool, v: int, g: int)
    requires |s| == VOICES * GRAINS && 0 <= v < VOICES && 0 <= g < GRAINS
    ensures NextRegs(s, rising)[Slot(v, g)] == NextAt(s, rising, v, g)
  {
    var i := Slot(v, g);
    assert i / GRAINS == v && i % GRAINS == g;
  }

  /** A rising edge activates at most one grain per voice, an inactive one, and
      every slot before it is active. */
  lemma OneClaimPerVoice(s: seq<GrainReg>, rising: bool, v: int, g: int, h: int)
    requires |s| == VOICES * GRAINS && 0 <= v < VOICES && 0 <= g < GRAINS && 0 <= h < GRAINS
    requires Claimed(s, rising, v, g)
    ensures !s[Slot(v, g)].active && forall k :: 0 <= k < g ==> s[Slot(v, k)].active
    ensures Claimed(s, rising, v, h) ==> g == h
  {
  }

  /** A voice gains a grain exactly when the edge is rising and it has an inactive slot. */
  lemma ClaimExists(s: seq<GrainReg>, rising: bool, v: int)
    requires |s| == VOICES * GRAINS && 0 <= v < VOICES
    ensures (exists g :: 0 <= g < GRAINS && Claimed(s, rising, v, g))
        <==> rising && exists g :: 0 <= g < GRAINS && !s[Slot(v, g)].active
  {
    var f := FirstFreeFrom(s, v, 0);
    if rising && exists g :: 0 <= g < GRAINS && !s[Slot(v, g)].active {
      var g :| 0 <= g < GRAINS && !s[Slot(v, g)].active;
      assert f <= g;
      assert Claimed(s, rising, v, f);
    }
  }

  /** An active grain whose counter is 0 is inactive after the next clock, and one
      with a positive counter stays active with its counter one lower. */
  lemma ExpiredGoesIdle(s: seq<GrainReg>, rising: bool, v: int, g: int)
    requires |s| == VOICES * GRAINS && 0 <= v < VOICES && 0 <= g < GRAINS
    requires s[Slot(v, g)].active && 0 <= s[Slot(v, g)].counter < TWO32
    ensures s[Slot(v, g)].counter == 0 ==> !NextRegs(s, rising)[Slot(v, g)].active
    ensures s[Slot(v, g)].counter > 0 ==>
              NextRegs(s, rising)[Slot(v, g)].active
              && NextRegs(s, rising)[Slot(v, g)].counter == s[Slot(v, g)].counter - 1
  {
    NextRegsAt(s, rising, v, g);
  }

  /** One clock keeps every register within bounds. */
  lemma NextRegsOk(s: seq<GrainReg>, rising: bool)
    requires RegsOk(s)
    ensures RegsOk(NextRegs(s, rising))
  {
    var t := NextRegs(s, rising);
    forall i | 0 <= i < |t|
      ensures RegOk(t[i])
    {
      SlotOf(i);
      assert RegOk(s[Slot(i / GRAINS, i % GRAINS)]);
    }
  }

  /** With every phase register at 0, they stay at 0: a grain here never leaves the
      start of its sine. */
  predicate PhasesZero(s: seq<GrainReg>) {
    forall i :: 0 <= i < |s| ==> s[i].carPhase == 0 && s[i].modPhase == 0
  }

  lemma PhasesStayZero(s: seq<GrainReg>, rising: bool)
    requires |s| == VOICES * GRAINS && PhasesZero(s)
    ensures PhasesZero(NextRegs(s, rising))
  {
    var t := NextRegs(s, rising);
    forall i | 0 <= i < |t|
      ensures t[i].carPhase == 0 && t[i].modPhase == 0
    {
      SlotOf(i);
      IncrementsVanish(i / GRAINS);
      assert s[Slot(i / GRAINS, i % GRAINS)].carPhase == 0;
    }
  }

  /** `(int(0.02 * SR) - counter) // int(0.02 * SR)` of an active grain is 1 on its
      last cycle and 0 before: the envelope lookup sees only two arguments. */
  lemma FractionBinary(c: int)
    requires 0 <= c <= GRAIN_LEN
    ensures (GRAIN_LEN - c) / GRAIN_LEN == (if c == 0 then 1 else 0)
  {
  }

  /** Python's `abs` on an int. */
  function AbsInt(x: int): (r: int)
    ensures 0 <= r && (r == x || r == -x)
  {
    if x < 0 then -x else x
  }

  /** One active grain's term `(sig * env) // 2**16`. */
  function Contribution(r: GrainReg, ll: int, sinL: int -> int, cosL: int -> int): int {
    var m := sinL(r.modPhase);
    var phase := r.carPhase + (m * ll) / ONE;
    var sig := sinL(phase);
    var fraction := (GRAIN_LEN - r.counter) / GRAIN_LEN;
    var env := ONE - cosL(fraction * 2);
    (sig * env) / ONE
  }

  /** The sum `out` of voice v over its first g slots. */
  function RowOut(s: seq<GrainReg>, v: int, g: int, ll: int, sinL: int -> int, cosL: int -> int): int
    requires |s| == VOICES * GRAINS && 0 <= v < VOICES && 0 <= g <= GRAINS
  {
    if g == 0 then 0
    else RowOut(s, v, g - 1, ll, sinL, cosL)
         + (if s[Slot(v, g - 1)].active then Contribution(s[Slot(v, g - 1)], ll, sinL, cosL) else 0)
  }

  /** A voice's sum folded into [-|sin|, |sin|] and scaled by 0.1 in fixed point. */
  function Folded(out: int, sp: int, sinL: int -> int, foldL: (int, int, int) -> int): int {
    var a := AbsInt(sinL(sp));
    (foldL(out, -a, a) * GAIN) / ONE
  }

  /** Every voice's sum `out`. */
  function VoiceOuts(s: seq<GrainReg>, ll: int, sinL: int -> int, cosL: int -> int): (o: seq<int>)
    requires |s| == VOICES * GRAINS
    ensures |o| == VOICES
  {
    seq(VOICES, v requires 0 <= v < VOICES => RowOut(s, v, GRAINS, ll, sinL, cosL))
  }

  /** The sum of the first k voices' folded shares. */
  function MixOf(outs: seq<int>, k: int, sp: int, sinL: int -> int, foldL: (int, int, int) -> int): int
    requires 0 <= k <= |outs|
  {
    if k == 0 then 0
    else MixOf(outs, k - 1, sp, sinL, foldL) + Folded(outs[k - 1], sp, sinL, foldL)
  }

  /** Only active grains sound: a voice with no active grain contributes the fold of 0. */
  lemma {:induction false} SilentRow(s: seq<GrainReg>, v: int, g: int, ll: int, sinL: int -> int, cosL: int -> int)
    requires |s| == VOICES * GRAINS && 0 <= v < VOICES && 0 <= g <= GRAINS
    requires forall h :: 0 <= h < g ==> !s[Slot(v, h)].active
    ensures RowOut(s, v, g, ll, sinL, cosL) == 0
  {
    if g > 0 {
      SilentRow(s, v, g - 1, ll, sinL, cosL);
    }
  }

  /** The register file has its voices' rows [0, v) through the activation loop and
      the others as they were. */
  predicate ClaimedRows(a: seq<GrainReg>, s: seq<GrainReg>, rising: bool, v: int)
    requires |s| == VOICES * GRAINS
  {
    |a| == |s|
    && forall u, g :: 0 <= u < VOICES && 0 <= g < GRAINS ==>
         a[Slot(u, g)] == (if u < v then AfterClaim(s, rising, u, g) else s[Slot(u, g)])
  }

  /** A rising edge finds no free slot in voice v: its row stays as it was. */
  lemma ClaimNone(a: seq<GrainReg>, s: seq<GrainReg>, v: int)
    requires |s| == VOICES * GRAINS && 0 <= v < VOICES
    requires ClaimedRows(a, s, true, v) && FirstFreeFrom(s, v, 0) == GRAINS
    ensures ClaimedRows(a, s, true, v + 1)
  {
  }

  /** A rising edge claims voice v's first free slot g, which becomes fresh. */
  lemma ClaimAt(a: seq<GrainReg>, s: seq<GrainReg>, v: int, g: int)
    requires |s| == VOICES * GRAINS && 0 <= v < VOICES && 0 <= g < GRAINS
    requires ClaimedRows(a, s, true, v) && FirstFreeFrom(s, v, 0) == g
    ensures ClaimedRows(a[Slot(v, g) := FRESH], s, true, v + 1)
  {
    forall u, h | 0 <= u < VOICES && 0 <= h < GRAINS
      ensures a[Slot(v, g) := FRESH][Slot(u, h)] == (if u < v + 1 then AfterClaim(s, true, u, h) else s[Slot(u, h)])
    {
      SlotsDiffer(u, h, v, g);
    }
  }

  /** The rows [0, v) are through the grain loop as well. */
  predicate PlayedRows(a: seq<GrainReg>, s: seq<GrainReg>, rising: bool, v: int)
    requires |s| == VOICES * GRAINS
  {
    |a| == |s|
    && forall u, g :: 0 <= u < VOICES && 0 <= g < GRAINS ==>
         a[Slot(u, g)] == (if u < v then NextAt(s, rising, u, g) else AfterClaim(s, rising, u, g))
  }

  /** Without a rising edge the activation loop leaves everything as it was. */
  lemma NoClaims(s: seq<GrainReg>)
    requires |s| == VOICES * GRAINS
    ensures ClaimedRows(s, s, false, VOICES)
  {
  }

  lemma ClaimsThenPlays(a: seq<GrainReg>, s: seq<GrainReg>, rising: bool)
    requires |s| == VOICES * GRAINS && ClaimedRows(a, s, rising, VOICES)
    ensures PlayedRows(a, s, rising, 0)
  {
  }

  /** After every row's grain loop the file is the next register file. */
  lemma PlayedAll(a: seq<GrainReg>, s: seq<GrainReg>, rising: bool)
    requires |s| == VOICES * GRAINS && PlayedRows(a, s, rising, VOICES)
    ensures a == NextRegs(s, rising)
  {
    forall i | 0 <= i < |a|
      ensures a[i] == NextRegs(s, rising)[i]
    {
      SlotOf(i);
      NextRegsAt(s, rising, i / GRAINS, i % GRAINS);
    }
  }

  /** The `synth` block's registers. */
  class GrainSynth {
    const regs: array<GrainReg>
    var lfsr: bv32
    var dustCounter: int
    var lineLevel: int
    var sinPhase: int
    var prevTrig: bool
    var scale: int
    var left: int
    var right: int

    predicate Valid()
      reads this, regs
    {
      RegsOk(regs[..])
      && 0 <= dustCounter < TWO32 && 0 <= sinPhase < TWO32
      && 0 <= lineLevel <= LINE_CAP + LINE_SLOPE
    }

    /** The registers' initial values (Python/5.py:9-23); the output ports start at 0. */
    constructor ()
      ensures Valid() && fresh(regs)
      ensures lfsr == 1 && dustCounter == 0 && lineLevel == LINE_INIT && sinPhase == 0
      ensures !prevTrig && scale == 0 && left == 0 && right == 0
      ensures forall i :: 0 <= i < regs.Length ==> regs[i] == IDLE
    {
      regs := new GrainReg[VOICES * GRAINS](_ => IDLE);
      lfsr := 1;
      dustCounter := 0;
      lineLevel := LINE_INIT;
      sinPhase := 0;
      prevTrig := false;
      scale := 0;
      left := 0;
      right := 0;
    }

    /** The activation loop of voice v (Python/5.py:39-45): the first slot inactive
        at the start of the cycle is made fresh, and the search stops there. */
    method ClaimRow(v: int, ghost s: seq<GrainReg>)
      requires |s| == VOICES * GRAINS && 0 <= v < VOICES && regs.Length == VOICES * GRAINS
      requires ClaimedRows(regs[..], s, true, v)
      modifies regs
      ensures ClaimedRows(regs[..], s, true, v + 1)
    {
      var g := 0;
      while g < GRAINS && regs[Slot(v, g)].active
        invariant 0 <= g <= GRAINS
        invariant forall h :: 0 <= h < g ==> s[Slot(v, h)].active
        invariant regs[..] == old(regs[..])
      {
        g := g + 1;
      }
      FirstFreeIs(s, v, 0, g);
      if g < GRAINS {
        ghost var a := regs[..];
        regs[Slot(v, g)] := FRESH;
        assert regs[..] == a[Slot(v, g) := FRESH];
        ClaimAt(a, s, v, g);
      } else {
        ClaimNone(regs[..], s, v);
      }
    }

    /** The grain loop of voice v (Python/5.py:50-62): every slot active at the start
        of the cycle adds its term to `out` and advances. */
    method PlayRow(v: int, s: seq<GrainReg>, ghost rising: bool, ll: int, sinL: int -> int, cosL: int -> int)
      returns (out: int)
      requires |s| == VOICES * GRAINS && 0 <= v < VOICES && regs.Length == VOICES * GRAINS
      requires PlayedRows(regs[..], s, rising, v)
      modifies regs
      ensures PlayedRows(regs[..], s, rising, v + 1)
      ensures out == RowOut(s, v, GRAINS, ll, sinL, cosL)
    {
      out := 0;
      for g := 0 to GRAINS
        invariant out == RowOut(s, v, g, ll, sinL, cosL)
        invariant |regs[..]| == |s|
        invariant forall u, h :: 0 <= u < VOICES && 0 <= h < GRAINS ==>
          regs[Slot(u, h)] == (if u < v || (u == v && h < g) then NextAt(s, rising, u, h) else AfterClaim(s, rising, u, h))
      {
        if s[Slot(v, g)].active {
          out := out + Contribution(s[Slot(v, g)], ll, sinL, cosL);
          regs[Slot(v, g)] := Advance(s[Slot(v, g)], v);
        }
      }
    }

    /** The activation loop of a rising edge (Python/5.py:37-45), voice by voice. */
    method ClaimAll(ghost s: seq<GrainReg>)
      requires |s| == VOICES * GRAINS && regs.Length == VOICES * GRAINS
      requires regs[..] == s
      modifies regs
      ensures ClaimedRows(regs[..], s, true, VOICES)
    {
      for v := 0 to VOICES
        invariant ClaimedRows(regs[..], s, true, v)
      {
        ClaimRow(v, s);
      }
    }

    /** The grain loops of all voices and the folded mix (Python/5.py:47-67). */
    method PlayAll(s: seq<GrainReg>, ghost rising: bool, ll: int, sp: int,
                   sinL: int -> int, cosL: int -> int, foldL: (int, int, int) -> int) returns (mix: int)
      requires |s| == VOICES * GRAINS && regs.Length == VOICES * GRAINS
      requires PlayedRows(regs[..], s, rising, 0)
      modifies regs
      ensures PlayedRows(regs[..], s, rising, VOICES)
      ensures mix == MixOf(VoiceOuts(s, ll, sinL, cosL), VOICES, sp, sinL, foldL)
    {
      mix := 0;
      ghost var outs := VoiceOuts(s, ll, sinL, cosL);
      for v := 0 to VOICES
        invariant PlayedRows(regs[..], s, rising, v)
        invariant mix == MixOf(outs, v, sp, sinL, foldL)
      {
        var out := PlayRow(v, s, rising, ll, sinL, cosL);
        var a := AbsInt(sinL(sp));
        var folded := (foldL(out, -a, a) * GAIN) / ONE;
        mix := mix + folded;
      }
    }

    /** The activation and grain loops of one clock (Python/5.py:37-67), on the
        register file as it was at the edge: on a rising edge each voice's first
        inactive slot becomes fresh, every active grain advances, and the voices'
        folded sums add up to the mix. */
    method Voices(rising: bool, ll: int, sp: int, sinL: int -> int, cosL: int -> int, foldL: (int, int, int) -> int)
      returns (mix: int)
      requires RegsOk(regs[..])
      modifies regs
      ensures RegsOk(regs[..])
      ensures regs[..] == NextRegs(old(regs[..]), rising)
      ensures mix == MixOf(VoiceOuts(old(regs[..]), ll, sinL, cosL), VOICES, sp, sinL, foldL)
    {
      var s := regs[..];
      if rising {
        ClaimAll(s);
      } else {
        NoClaims(s);
      }
      ClaimsThenPlays(regs[..], s, rising);
      mix := PlayAll(s, rising, ll, sp, sinL, cosL, foldL);
      PlayedAll(regs[..], s, rising);
      NextRegsOk(s, rising);
    }

    /** The scalar registers' next values (Python/5.py:27-36, 64-65), all computed
        from the old values and written together. */
    method Control()
      requires 0 <= dustCounter < TWO32 && 0 <= lineLevel <= LINE_CAP + LINE_SLOPE
      modifies this
      ensures 0 <= dustCounter < TWO32 && 0 <= sinPhase < TWO32
      ensures 0 <= lineLevel <= LINE_CAP + LINE_SLOPE
      ensures lfsr == ParallelNext(old(lfsr))
      ensures dustCounter == NextDust(old(dustCounter), old(lfsr))
      ensures lineLevel == NextLine(old(lineLevel))
      ensures sinPhase == Wrap32(old(sinPhase) + SIN_INC)
      ensures prevTrig == (Trig(old(dustCounter), old(lfsr)) > 0)
      ensures scale == 0
    {
      Draw();
      Ramp();
    }

    /** The dust countdown, reloaded from the old xorshift word when the signed
        counter is not positive, the trigger flag, and the parallel xorshift word
        (Python/5.py:27-32, 64-65). */
    method Draw()
      requires 0 <= dustCounter < TWO32
      modifies this
      ensures lfsr == ParallelNext(old(lfsr))
      ensures dustCounter == NextDust(old(dustCounter), old(lfsr))
      ensures prevTrig == (Trig(old(dustCounter), old(lfsr)) > 0)
      ensures lineLevel == old(lineLevel) && sinPhase == old(sinPhase)
    {
      Dust();
      Shift();
    }

    /** The dust countdown and the trigger flag (Python/5.py:28-32, 65). */
    method Dust()
      requires 0 <= dustCounter < TWO32
      modifies this
      ensures dustCounter == NextDust(old(dustCounter), lfsr)
      ensures prevTrig == (Trig(old(dustCounter), lfsr) > 0)
      ensures lfsr == old(lfsr) && lineLevel == old(lineLevel) && sinPhase == old(sinPhase)
    {
      var trig := 0;
      var dust := Wrap32(dustCounter - 1);
      if Signed32(dustCounter) <= 0 {
        dust := lfsr as int / DENSITY;
        trig := lfsr as int - TWO31;
      }
      dustCounter, prevTrig := dust, trig > 0;
    }

    /** The xorshift word's three shifts, applied to the old word at once
        (Python/5.py:27). */
    method Shift()
      modifies this
      ensures lfsr == ParallelNext(old(lfsr))
      ensures dustCounter == old(dustCounter) && prevTrig == old(prevTrig)
      ensures lineLevel == old(lineLevel) && sinPhase == old(sinPhase)
    {
      lfsr := lfsr ^ (lfsr << 13) ^ (lfsr >> 17) ^ (lfsr << 5);
    }

    /** The depth ramp, which grows by its slope unless the old level is above the
        cap, which it then takes, the folding sine's phase, which wraps modulo 2^32,
        and the (integer) density scale (Python/5.py:33-36, 64). */
    method Ramp()
      requires 0 <= lineLevel <= LINE_CAP + LINE_SLOPE
      modifies this
      ensures lineLevel == NextLine(old(lineLevel))
      ensures sinPhase == Wrap32(old(sinPhase) + SIN_INC)
      ensures scale == 0
      ensures lfsr == old(lfsr) && dustCounter == old(dustCounter) && prevTrig == old(prevTrig)
    {
      var line := Wrap32(lineLevel + LINE_SLOPE);
      if lineLevel > LINE_CAP {
        line := LINE_CAP;
      }
      lineLevel := line;
      sinPhase := Wrap32(sinPhase + SIN_INC);
      scale := DENSITY / SR / ONE;
    }

    /** One rising clock edge (Python/5.py:25-69): every next value is computed from
        the old registers, then all of them change together. */
    method Clock(sinL: int -> int, cosL: int -> int, foldL: (int, int, int) -> int)
      requires Valid()
      modifies this, regs
      ensures Valid()
      ensures lfsr == ParallelNext(old(lfsr))
      ensures dustCounter == NextDust(old(dustCounter), old(lfsr))
      ensures lineLevel == NextLine(old(lineLevel))
      ensures sinPhase == Wrap32(old(sinPhase) + SIN_INC)
      ensures prevTrig == (Trig(old(dustCounter), old(lfsr)) > 0)
      ensures scale == 0
      ensures regs[..] == NextRegs(old(regs[..]), Rising(old(dustCounter), old(lfsr), old(prevTrig)))
      ensures left == right
      ensures left == MixOf(VoiceOuts(old(regs[..]), old(lineLevel), sinL, cosL), VOICES, old(sinPhase), sinL, foldL)
    {
      var mix := Voices(Rising(dustCounter, lfsr, prevTrig), lineLevel, sinPhase, sinL, cosL, foldL);
      Control();
      left, right := mix, mix;
    }
  }
}
