/** The MyHDL `fm_synth` of Python/9.py: eight oscillators, each with an LFO,
    on 32-bit accumulators masked with 0xFFFFFFFF, stepped once every 2267
    clocks of a 100 MHz clock (`int(100e6 / 44100)`). On that divider cycle
    each LFO reads the sine table to pick the oscillator's frequency, 46, 47 or
    48 Hz, whose increment is written straight into the `phase_inc` list; the
    eight table values at the old oscillator phases are mixed with floor
    division by 8. Both stereo outputs follow the mixed signal. The sine table,
    the random base frequency and the random LFO choices are parameters; the
    float expressions are evaluated on reals. */
module FmHdl {
  import opened Numeric

  const NUM_OSC: int := 8
  const SAMPLE_RATE: real := 44100.0
  const TABLE_SIZE: int := 1024
  /** `2**15 - 1`. */
  const MAX_VALUE: int := 32767
  const SAMPLES_PER_CYCLE: int := 2267
  /** `1.0 / (8 * 4)`. */
  const MOD_DEPTH: real := 1.0 / 32.0
  /** `[3.14 * x for x in [0.5, 1, 2]]`. */
  const LFO_CHOICES: seq<real> := [1.57, 3.14, 6.28]
  /** `2**22`: the weight of a phase's top 10 bits. */
  const INDEX_UNIT: int := 0x40_0000

  /** The table entries within the 16-bit signed range. */
  predicate TableOk(table: seq<int>) {
    |table| == TABLE_SIZE && forall k :: 0 <= k < TABLE_SIZE ==> -MAX_VALUE <= table[k] <= MAX_VALUE
  }

  /** `int((freq / SAMPLE_RATE) * SINE_TABLE_SIZE * 2**32)`, before any mask. */
  function RawInc(freq: real): int {
    Trunc(freq / SAMPLE_RATE * 1024.0 * 4294967296.0)
  }

  /** The same increment masked with 0xFFFFFFFF: Python's `&` on the two's
      complement bits, that is the value modulo 2^32. */
  function IncFor(freq: real): (r: int)
    ensures 0 <= r < TWO32
    ensures (RawInc(freq) - r) % TWO32 == 0
  {
    Wrap32(RawInc(freq))
  }

  /** The extra factor 1024 makes every frequency the LFOs can pick, 46 to 48 Hz,
      an increment above 2^32: the mask drops its top bit. */
  lemma ModIncWraps(m: int)
    requires 46 <= m <= 48
    ensures TWO32 <= RawInc(m as real) < 2 * TWO32
    ensures IncFor(m as real) == RawInc(m as real) - TWO32
  {
  }

  /** The index as written, `phase[31:32-BIT_WIDTH]`: the 15 bits 30 down to 16. */
  function IndexAsWritten(p: int): (r: int)
    requires 0 <= p < TWO32
    ensures 0 <= r < 0x8000
  {
    (p / 0x1_0000) % 0x8000
  }

  /** Each LFO choice's increment lies in [2^26, 2^31): one divider cycle from
      phase 0 puts the LFO at that increment, whose 15-bit index is at least 1024,
      past the end of the 1024-entry table. As written, the second divider cycle
      raises IndexError. */
  lemma LfoLookupOverruns(c: int)
    requires 0 <= c < |LFO_CHOICES|
    ensures 0x400_0000 <= RawInc(LFO_CHOICES[c]) < TWO31
    ensures IndexAsWritten(Accumulated(RawInc(LFO_CHOICES[c]), 1)) >= TABLE_SIZE
  {
    var inc := RawInc(LFO_CHOICES[c]);
    assert 0x400_0000 <= inc < TWO31;
    assert Accumulated(inc, 1) == inc % TWO32 == inc;
  }

  /** The intended index, the phase's top 10 bits: it always falls inside the
      table. */
  function TableIndex(p: int): (r: int)
    requires 0 <= p < TWO32
    ensures 0 <= r < TABLE_SIZE
    ensures r * INDEX_UNIT <= p < (r + 1) * INDEX_UNIT
  {
    p / INDEX_UNIT
  }

  /** `int(BASE_FREQ + MOD_DEPTH * lfo_value / MAX_VALUE)`: with the base frequency
      in [47, 48) and an LFO value within 16 bits, 46, 47 or 48. */
  function ModFreq(base: real, lfoValue: int): (r: int)
    requires 47.0 <= base < 48.0 && -MAX_VALUE <= lfoValue <= MAX_VALUE
    ensures 46 <= r <= 48
  {
    assert -1.0 / 32.0 <= MOD_DEPTH * lfoValue as real / MAX_VALUE as real <= 1.0 / 32.0;
    Trunc(base + MOD_DEPTH * lfoValue as real / MAX_VALUE as real)
  }

  /** Every LFO phase after a divider cycle. */
  function NextLfo(ls: seq<int>, lfoInc: seq<int>): (r: seq<int>)
    requires |ls| == NUM_OSC && |lfoInc| == NUM_OSC
    ensures |r| == NUM_OSC && forall i :: 0 <= i < NUM_OSC ==> 0 <= r[i] < TWO32
  {
    seq(NUM_OSC, i requires 0 <= i < NUM_OSC => (ls[i] + lfoInc[i]) % TWO32)
  }

  /** The increments a divider cycle writes into `phase_inc`, from the LFO phases
      as they were at the edge. */
  function NewIncs(base: real, table: seq<int>, ls: seq<int>): (r: seq<int>)
    requires 47.0 <= base < 48.0 && TableOk(table)
    requires |ls| == NUM_OSC && forall i :: 0 <= i < NUM_OSC ==> 0 <= ls[i] < TWO32
    ensures |r| == NUM_OSC && forall i :: 0 <= i < NUM_OSC ==> 0 <= r[i] < TWO32
  {
    seq(NUM_OSC, i requires 0 <= i < NUM_OSC => IncFor(ModFreq(base, table[TableIndex(ls[i])]) as real))
  }

  /** Every oscillator phase after a divider cycle, by the increments just written. */
  function NextAcc(ps: seq<int>, incs: seq<int>): (r: seq<int>)
    requires |ps| == NUM_OSC && |incs| == NUM_OSC
    ensures |r| == NUM_OSC && forall i :: 0 <= i < NUM_OSC ==> 0 <= r[i] < TWO32
  {
    seq(NUM_OSC, i requires 0 <= i < NUM_OSC => (ps[i] + incs[i]) % TWO32)
  }

  /** `mixed` after the first k oscillators. */
  function MixSum(table: seq<int>, ps: seq<int>, k: int): int
    requires |table| == TABLE_SIZE && 0 <= k <= |ps|
    requires forall i :: 0 <= i < k ==> 0 <= ps[i] < TWO32
  {
    if k == 0 then 0 else MixSum(table, ps, k - 1) + table[TableIndex(ps[k - 1])]
  }

  /** The partial sums stay within k table amplitudes. */
  lemma {:induction false} MixSumBound(table: seq<int>, ps: seq<int>, k: int)
    requires TableOk(table) && 0 <= k <= |ps|
    requires forall i :: 0 <= i < k ==> 0 <= ps[i] < TWO32
    ensures -MAX_VALUE * k <= MixSum(table, ps, k) <= MAX_VALUE * k
    decreases k
  {
    if k > 0 {
      MixSumBound(table, ps, k - 1);
    }
  }

  /** `mixed // NUM_OSCILLATORS`: it lies in the 16-bit range of the test bench's
      outputs, well inside the wider `mixed_signal` register. */
  function Mixed(table: seq<int>, ps: seq<int>): (r: int)
    requires TableOk(table) && |ps| == NUM_OSC
    requires forall i :: 0 <= i < NUM_OSC ==> 0 <= ps[i] < TWO32
    ensures -MAX_VALUE <= r <= MAX_VALUE
    ensures r * NUM_OSC <= MixSum(table, ps, NUM_OSC) < (r + 1) * NUM_OSC
  {
    MixSumBound(table, ps, NUM_OSC);
    MixSum(table, ps, NUM_OSC) / NUM_OSC
  }

  /** `int((lfo_freqs[i] / SAMPLE_RATE) * SINE_TABLE_SIZE * 2**32)` for the i-th
      LFO's choice. */
  function LfoIncs(choices: seq<int>): (r: seq<int>)
    requires |choices| == NUM_OSC && forall i :: 0 <= i < NUM_OSC ==> 0 <= choices[i] < |LFO_CHOICES|
    ensures |r| == NUM_OSC
  {
    seq(NUM_OSC, i requires 0 <= i < NUM_OSC => RawInc(LFO_CHOICES[choices[i]]))
  }

  /** The block's registers and lists, with its sine table, its LFO increments
      and its base frequency. */
  class Synth {
    const table: seq<int>
    const lfoInc: seq<int>
    const base: real
    var sampleCounter: int
    var lfoPhase: seq<int>
    var phaseAcc: seq<int>
    var phaseInc: seq<int>
    var mixedSignal: int

    /** What the divider cycle reads: the table, the LFO increments, the base
        frequency and both phase lists within 32 bits. */
    predicate Inputs()
      reads this
    {
      TableOk(table) && |lfoInc| == NUM_OSC && 47.0 <= base < 48.0
      && |lfoPhase| == NUM_OSC && |phaseAcc| == NUM_OSC
      && forall i :: 0 <= i < NUM_OSC ==> 0 <= lfoPhase[i] < TWO32 && 0 <= phaseAcc[i] < TWO32
    }

    /** Every register within its width, the counter below its period, and the
        mixed signal within 16 bits. */
    predicate Valid()
      reads this
    {
      Inputs() && |phaseInc| == NUM_OSC && (forall i :: 0 <= i < NUM_OSC ==> 0 <= phaseInc[i] < TWO32)
      && 0 <= sampleCounter < SAMPLES_PER_CYCLE && -MAX_VALUE <= mixedSignal <= MAX_VALUE
    }

    /** The block as elaborated (Python/9.py:23-31): `choices` are the indices
        `choice(FREQ_CHOICES)` picked, `baseFreq` is `BASE_FREQ`, and `initialInc`
        the list the comprehension on lines 30-31 builds, which every divider cycle
        overwrites before it is read. */
    constructor (sineTable: seq<int>, choices: seq<int>, baseFreq: real, initialInc: seq<int>)
      requires TableOk(sineTable) && 47.0 <= baseFreq < 48.0
      requires |choices| == NUM_OSC && forall i :: 0 <= i < NUM_OSC ==> 0 <= choices[i] < |LFO_CHOICES|
      requires |initialInc| == NUM_OSC && forall i :: 0 <= i < NUM_OSC ==> 0 <= initialInc[i] < TWO32
      ensures Valid() && table == sineTable && lfoInc == LfoIncs(choices) && base == baseFreq
      ensures sampleCounter == 0 && mixedSignal == 0 && phaseInc == initialInc
      ensures lfoPhase == seq(NUM_OSC, _ => 0) && phaseAcc == seq(NUM_OSC, _ => 0)
    {
      table, lfoInc, base := sineTable, LfoIncs(choices), baseFreq;
      sampleCounter, mixedSignal := 0, 0;
      lfoPhase, phaseAcc := seq(NUM_OSC, _ => 0), seq(NUM_OSC, _ => 0);
      phaseInc := initialInc;
    }

    /** The `always_seq` reset: every signal back to its initial value. The
        `phase_inc` list is not a signal and keeps its values. */
    method Reset()
      requires Valid()
      modifies this
      ensures Valid() && sampleCounter == 0 && mixedSignal == 0 && phaseInc == old(phaseInc)
      ensures lfoPhase == seq(NUM_OSC, _ => 0) && phaseAcc == seq(NUM_OSC, _ => 0)
    {
      sampleCounter, mixedSignal := 0, 0;
      lfoPhase, phaseAcc := seq(NUM_OSC, _ => 0), seq(NUM_OSC, _ => 0);
    }

    /** One rising edge of `synth_logic` (Python/9.py:34-54), with the table read
        at each phase's top 10 bits. The counter counts up and wraps after 2266.
        Off the divider cycle nothing else changes; on it the LFOs step by their
        increments, `phase_inc` takes the increments picked from the old LFO
        phases, the oscillators step by those new increments, and the mixed signal
        takes the mix of the old oscillator phases. */
    method Clock()
      requires Valid()
      modifies this
      ensures Valid()
      ensures sampleCounter == CounterNext(old(sampleCounter), SAMPLES_PER_CYCLE - 1)
      ensures old(sampleCounter) < SAMPLES_PER_CYCLE - 1 ==>
                lfoPhase == old(lfoPhase) && phaseAcc == old(phaseAcc)
                && phaseInc == old(phaseInc) && mixedSignal == old(mixedSignal)
      ensures old(sampleCounter) >= SAMPLES_PER_CYCLE - 1 ==>
                lfoPhase == NextLfo(old(lfoPhase), lfoInc)
                && phaseInc == NewIncs(base, table, old(lfoPhase))
                && phaseAcc == NextAcc(old(phaseAcc), phaseInc)
                && mixedSignal == Mixed(table, old(phaseAcc))
    {
      var nextCounter := sampleCounter + 1;
      if sampleCounter >= SAMPLES_PER_CYCLE - 1 {
        nextCounter := 0;
        var nextLfo, nextAcc := Update();
        var mixed := MixPhases();
        assert mixed / NUM_OSC == Mixed(table, phaseAcc);
        lfoPhase, phaseAcc, mixedSignal := nextLfo, nextAcc, mixed / NUM_OSC;
      }
      sampleCounter := nextCounter;
    }

    /** The update loop (Python/9.py:41-46): it writes each new increment into
        `phase_inc` at once and returns the LFO and oscillator phases' next values. */
    method Update() returns (nextLfo: seq<int>, nextAcc: seq<int>)
      requires Valid()
      modifies this
      ensures Valid()
      ensures lfoPhase == old(lfoPhase) && phaseAcc == old(phaseAcc)
      ensures sampleCounter == old(sampleCounter) && mixedSignal == old(mixedSignal)
      ensures phaseInc == NewIncs(base, table, lfoPhase)
      ensures nextLfo == NextLfo(lfoPhase, lfoInc) && nextAcc == NextAcc(phaseAcc, phaseInc)
    {
      nextLfo, nextAcc := [], [];
      ghost var incs := NewIncs(base, table, lfoPhase);
      for i := 0 to NUM_OSC
        invariant Inputs() && unchanged(`lfoPhase, `phaseAcc, `sampleCounter, `mixedSignal)
        invariant |phaseInc| == NUM_OSC && 0 <= sampleCounter < SAMPLES_PER_CYCLE && -MAX_VALUE <= mixedSignal <= MAX_VALUE
        invariant |nextLfo| == i && |nextAcc| == i
        invariant forall j :: 0 <= j < i ==> nextLfo[j] == (lfoPhase[j] + lfoInc[j]) % TWO32
        invariant forall j :: 0 <= j < i ==> phaseInc[j] == incs[j]
        invariant forall j :: i <= j < NUM_OSC ==> phaseInc[j] == old(phaseInc[j])
        invariant forall j :: 0 <= j < i ==> nextAcc[j] == (phaseAcc[j] + phaseInc[j]) % TWO32
      {
        nextLfo := nextLfo + [(lfoPhase[i] + lfoInc[i]) % TWO32];
        var inc := Retune(i);
        phaseInc := phaseInc[i := inc];
        nextAcc := nextAcc + [(phaseAcc[i] + inc) % TWO32];
      }
    }

    /** Lines 43-45 for one oscillator: the LFO's table value picks the frequency,
        whose masked increment is returned. */
    method Retune(i: int) returns (inc: int)
      requires Inputs() && 0 <= i < NUM_OSC
      ensures inc == NewIncs(base, table, lfoPhase)[i]
    {
      var lfoValue := table[lfoPhase[i] / INDEX_UNIT];
      var modFreq := ModFreq(base, lfoValue);
      inc := Trunc(modFreq as real / SAMPLE_RATE * 1024.0 * 4294967296.0) % TWO32;
    }

    /** The mix loop (Python/9.py:49-52) over the oscillator phases. */
    method MixPhases() returns (mixed: int)
      requires Valid()
      ensures mixed == MixSum(table, phaseAcc, NUM_OSC)
    {
      mixed := 0;
      for i := 0 to NUM_OSC
        invariant mixed == MixSum(table, phaseAcc, i)
      {
        mixed := mixed + table[phaseAcc[i] / INDEX_UNIT];
      }
    }

    /** `output_logic` (Python/9.py:57-59): both outputs follow the mixed signal,
        which always fits their 16-bit signed range. */
    function Outputs(): (r: (int, int))
      requires Valid()
      reads this
      ensures r.0 == r.1 && Fits(r.0, -MAX_VALUE, MAX_VALUE + 1)
    {
      (mixedSignal, mixedSignal)
    }
  }
}
