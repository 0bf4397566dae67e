/** The clocked MyHDL `tone_generator` of Python/1.py: 32 oscillators, each
    with an LFO, on 32-bit phase accumulators that wrap modulo 2^32, a 256-entry
    16-bit sine table read at the top byte of each phase, and a fixed-point sum
    of `osc * lfo * AMPLITUDE >> 30` over the phases as they were at the clock
    edge. The table `int(sin(2*pi*i/256) * 2**15)` is a parameter. The block
    drives a local signal named `output` (line 21 rebinds the name), never the
    port it was given; both are fields here. */
module ToneHdl {
  import opened Numeric

  const NUM_OSC: int := 32
  const LUT_SIZE: int := 256
  /** `int(0.01 * 2**15)`. */
  const AMPLITUDE: int := 327
  /** The table's entries lie in [-2^15, 2^15]. */
  const FULL: int := 0x8000
  /** `2**30`, the scale `>> 30` divides by. */
  const SCALE: int := 0x4000_0000
  /** `2**(PHASE_WIDTH - 8)`, the weight of a phase's top byte. */
  const TOP_BYTE: int := 0x100_0000

  /** `int(20 + i * 1980 / NUM_OSC)`: 1980/32 = 61.875 is exact in binary, so this
      is the floor of the exact quotient. */
  function OscFreq(i: int): int
    requires 0 <= i < NUM_OSC
  {
    20 + (i * 1980) / NUM_OSC
  }

  /** The oscillator frequencies rise strictly from 20 Hz to 1938 Hz. */
  lemma OscFreqRises(i: int, j: int)
    requires 0 <= i < j < NUM_OSC
    ensures OscFreq(0) == 20 && OscFreq(NUM_OSC - 1) == 1938
    ensures OscFreq(i) < OscFreq(j)
  {
    assert i * 1980 + 1980 <= j * 1980;
  }

  /** `int(0.01 + i * 0.09 / NUM_OSC * SAMPLE_RATE)`, that is `135 * i` phase units
      per clock: from 0 to 4185 Hz-units, not the 0.01 to 0.1 Hz the comment on
      line 16 announces. */
  function LfoFreq(i: int): int
    requires 0 <= i < NUM_OSC
  {
    135 * i
  }

  /** The LFO of oscillator 0 never moves, and every other LFO steps by at least
      135, more than a thousand times the 0.1 Hz the comment promises. */
  lemma LfoFreqRange(i: int)
    requires 0 <= i < NUM_OSC
    ensures LfoFreq(0) == 0
    ensures i > 0 ==> 135 <= LfoFreq(i) <= 4185
  {
  }

  /** The index as written, `(phase >> 24)[:8]`: a MyHDL slice `[:8]` keeps the
      bits from 8 upward, so this is `phase >> 32`. */
  function LutIndexAsWritten(p: int): int
    requires 0 <= p < TWO32
  {
    (p / TOP_BYTE) / 0x100
  }

  /** Every 32-bit phase gives index 0 under the index as written. */
  lemma IndexAsWrittenIsZero(p: int)
    requires 0 <= p < TWO32
    ensures LutIndexAsWritten(p) == 0
  {
  }

  /** The intended index, the phase's top byte `(phase >> 24) % 256`: it lies in
      [0, 256) and is the byte b with `b * 2^24 <= phase < (b + 1) * 2^24`. */
  function LutIndex(p: int): (r: int)
    requires 0 <= p < TWO32
    ensures 0 <= r < LUT_SIZE
    ensures r * TOP_BYTE <= p < (r + 1) * TOP_BYTE
  {
    (p / TOP_BYTE) % LUT_SIZE
  }

  /** Table entries within 16 bits. */
  predicate TableOk(lut: seq<int>) {
    |lut| == LUT_SIZE && forall k :: 0 <= k < LUT_SIZE ==> -FULL <= lut[k] <= FULL
  }

  /** One oscillator's share `(osc_val * lfo_val * AMPLITUDE) >> 30`, for the two
      table entries read. */
  function Term(oscVal: int, lfoVal: int): int {
    (oscVal * lfoVal * AMPLITUDE) / SCALE
  }

  /** Two entries within 2^15 have a product within 2^30. */
  lemma ProductBound(a: int, b: int)
    requires -FULL <= a <= FULL && -FULL <= b <= FULL
    ensures -SCALE <= a * b <= SCALE
  {
    var x, y := if a < 0 then -a else a, if b < 0 then -b else b;
    MagnitudeBound(x, y);
    if (a < 0) == (b < 0) {
      assert a * b == x * y;
    } else {
      assert a * b == -(x * y);
    }
  }

  /** The product of two magnitudes within 2^15. */
  lemma MagnitudeBound(x: int, y: int)
    requires 0 <= x <= FULL && 0 <= y <= FULL
    ensures 0 <= x * y <= SCALE
  {
    var d := FULL - x;
    assert d * y >= 0;
    assert x * y == FULL * y - d * y;
  }

  /** A term lies in [-327, 327]: below one AMPLITUDE in magnitude. */
  lemma TermBound(a: int, b: int)
    requires -FULL <= a <= FULL && -FULL <= b <= FULL
    ensures -AMPLITUDE <= Term(a, b) <= AMPLITUDE
  {
    ProductBound(a, b);
    var p := a * b;
    assert a * b * AMPLITUDE == p * AMPLITUDE;
  }

  /** `sum_out` after the first k oscillators, read at the old phases through the
      intended index. */
  function SumTo(lut: seq<int>, ps: seq<int>, ls: seq<int>, k: int): int
    requires |lut| == LUT_SIZE && 0 <= k <= |ps| && k <= |ls|
    requires forall i :: 0 <= i < k ==> 0 <= ps[i] < TWO32 && 0 <= ls[i] < TWO32
  {
    if k == 0 then 0
    else SumTo(lut, ps, ls, k - 1) + Term(lut[LutIndex(ps[k - 1])], lut[LutIndex(ls[k - 1])])
  }

  /** `sum_out` through the index as written. */
  function SumAsWritten(lut: seq<int>, ps: seq<int>, ls: seq<int>, k: int): int
    requires |lut| == LUT_SIZE && 0 <= k <= |ps| && k <= |ls|
    requires forall i :: 0 <= i < k ==> 0 <= ps[i] < TWO32 && 0 <= ls[i] < TWO32
  {
    if k == 0 then 0
    else SumAsWritten(lut, ps, ls, k - 1)
         + Term(lut[LutIndexAsWritten(ps[k - 1])], lut[LutIndexAsWritten(ls[k - 1])])
  }

  /** As written the generator is silent: every lookup reads entry 0, which is
      `int(sin(0) * 2**15) = 0`, so every term and the whole sum are 0, whatever
      the phases. */
  lemma {:induction false} AsWrittenIsSilent(lut: seq<int>, ps: seq<int>, ls: seq<int>, k: int)
    requires |lut| == LUT_SIZE && lut[0] == 0 && 0 <= k <= |ps| && k <= |ls|
    requires forall i :: 0 <= i < k ==> 0 <= ps[i] < TWO32 && 0 <= ls[i] < TWO32
    ensures SumAsWritten(lut, ps, ls, k) == 0
    decreases k
  {
    if k > 0 {
      AsWrittenIsSilent(lut, ps, ls, k - 1);
      IndexAsWrittenIsZero(ps[k - 1]);
      IndexAsWrittenIsZero(ls[k - 1]);
    }
  }

  /** With the intended index the sum over k oscillators stays within k
      amplitudes, so all 32 fit the signed 16-bit output. */
  lemma {:induction false} SumBound(lut: seq<int>, ps: seq<int>, ls: seq<int>, k: int)
    requires TableOk(lut) && 0 <= k <= |ps| && k <= |ls|
    requires forall i :: 0 <= i < k ==> 0 <= ps[i] < TWO32 && 0 <= ls[i] < TWO32
    ensures -AMPLITUDE * k <= SumTo(lut, ps, ls, k) <= AMPLITUDE * k
    decreases k
  {
    if k > 0 {
      SumBound(lut, ps, ls, k - 1);
      TermBound(lut[LutIndex(ps[k - 1])], lut[LutIndex(ls[k - 1])]);
    }
  }

  /** Every oscillator phase after one clock. */
  function NextPhases(ps: seq<int>): (r: seq<int>)
    requires |ps| == NUM_OSC
    ensures |r| == NUM_OSC
  {
    seq(NUM_OSC, i requires 0 <= i < NUM_OSC => (ps[i] + OscFreq(i)) % TWO32)
  }

  /** Every LFO phase after one clock. */
  function NextLfoPhases(ls: seq<int>): (r: seq<int>)
    requires |ls| == NUM_OSC
    ensures |r| == NUM_OSC
  {
    seq(NUM_OSC, i requires 0 <= i < NUM_OSC => (ls[i] + LfoFreq(i)) % TWO32)
  }

  /** The block's state: the sine table, both phase lists, the local `output`
      signal the block drives, and the port it was given. */
  class Synth {
    const lut: seq<int>
    var phase: seq<int>
    var lfoPhase: seq<int>
    var output: int
    var port: int

    predicate Valid()
      reads this
    {
      TableOk(lut) && |phase| == NUM_OSC && |lfoPhase| == NUM_OSC
      && (forall i :: 0 <= i < NUM_OSC ==> 0 <= phase[i] < TWO32 && 0 <= lfoPhase[i] < TWO32)
      && -FULL <= output < FULL
    }

    /** The signals' initial values (Python/1.py:19-21), with the sine table and
        the port's value as parameters. */
    constructor (table: seq<int>, portValue: int)
      requires TableOk(table)
      ensures Valid() && lut == table && port == portValue
      ensures phase == seq(NUM_OSC, _ => 0) && lfoPhase == seq(NUM_OSC, _ => 0) && output == 0
    {
      lut := table;
      phase := seq(NUM_OSC, _ => 0);
      lfoPhase := seq(NUM_OSC, _ => 0);
      output := 0;
      port := portValue;
    }

    /** One rising edge (Python/1.py:28-42), with the table read at the top
        byte of each phase: every phase and LFO phase steps by its frequency
        modulo 2^32, and the local output takes the sum of the terms read at the
        old phases, which always fits its signed 16 bits. The port never changes. */
    method Clock()
      requires Valid()
      modifies this
      ensures Valid()
      ensures phase == NextPhases(old(phase)) && lfoPhase == NextLfoPhases(old(lfoPhase))
      ensures output == SumTo(lut, old(phase), old(lfoPhase), NUM_OSC)
      ensures port == old(port)
    {
      var nextPhase: seq<int> := [];
      var nextLfo: seq<int> := [];
      var sumOut := 0;
      for i := 0 to NUM_OSC
        invariant |nextPhase| == i && |nextLfo| == i
        invariant forall j :: 0 <= j < i ==> nextPhase[j] == (phase[j] + OscFreq(j)) % TWO32
        invariant forall j :: 0 <= j < i ==> nextLfo[j] == (lfoPhase[j] + LfoFreq(j)) % TWO32
        invariant sumOut == SumTo(lut, phase, lfoPhase, i)
      {
        nextPhase := nextPhase + [(phase[i] + 20 + (i * 1980) / NUM_OSC) % TWO32];
        nextLfo := nextLfo + [(lfoPhase[i] + 135 * i) % TWO32];
        var phaseIdx := (phase[i] / TOP_BYTE) % LUT_SIZE;
        var lfoIdx := (lfoPhase[i] / TOP_BYTE) % LUT_SIZE;
        var oscVal := lut[phaseIdx];
        var lfoVal := lut[lfoIdx];
        sumOut := sumOut + (oscVal * lfoVal * AMPLITUDE) / SCALE;
      }
      SumBound(lut, phase, lfoPhase, NUM_OSC);
      phase, lfoPhase, output := nextPhase, nextLfo, sumOut;
    }
  }
}
