/** The MyHDL `sine_oscillator` of Python/11.py and the mix of its `patch1`.
    The oscillator is three processes over three signals: the combinational
    `calc_phase_inc` sets the increment from the frequency input, the clocked
    `phase_acc` steps the 32-bit phase and latches its top 10 bits as the table
    index, and the combinational `output_logic` scales the table entry at that
    index by the amplitude input. The 1024-entry table
    `int(sin(2*pi*i/1024) * 32767)` is a parameter. */
module SineOscHdl {
  import opened Numeric

  const SAMPLE_RATE: int := 44100
  const LUT_SIZE: int := 1024
  /** `2**15 - 1`. */
  const MAX_VAL: int := 32767
  /** `2**22`: the phase's low 22 bits lie below the index. */
  const INDEX_UNIT: int := 0x40_0000

  /** Every entry of the sine table within the 16-bit signed range; entry 0 is
      `int(sin(0) * 32767) = 0`. */
  predicate TableOk(lut: seq<int>) {
    |lut| == LUT_SIZE && lut[0] == 0
    && forall k :: 0 <= k < LUT_SIZE ==> -MAX_VAL <= lut[k] <= MAX_VAL
  }

  /** `(freq * lut_size) // sample_rate`, Python's floor division: the largest
      increment whose 44100-fold does not pass `freq * 1024`. */
  function PhaseInc(freq: int): (r: int)
    ensures r * SAMPLE_RATE <= freq * LUT_SIZE < (r + 1) * SAMPLE_RATE
  {
    (freq * LUT_SIZE) / SAMPLE_RATE
  }

  /** A non-negative frequency gets increment 0, and so an oscillator that never
      advances, exactly when `freq * 1024 < 44100`, that is below 44 Hz. */
  lemma StallsBelow44(freq: int)
    requires freq >= 0
    ensures PhaseInc(freq) == 0 <==> freq * LUT_SIZE < SAMPLE_RATE
    ensures PhaseInc(freq) == 0 <==> freq <= 43
  {
  }

  /** The latched index `phase[32:22]`, the top 10 bits of the 32-bit phase. */
  function LutIndex(p: int): (r: int)
    requires 0 <= p < TWO32
    ensures 0 <= r < LUT_SIZE
    ensures r * INDEX_UNIT <= p < (r + 1) * INDEX_UNIT
  {
    p / INDEX_UNIT
  }

  /** `(sine_val * amplitude) // MAX_VAL`, floor division: a non-negative amplitude
      bounds the output in magnitude. */
  function Output(sineVal: int, amplitude: int): (r: int)
    requires -MAX_VAL <= sineVal <= MAX_VAL
    ensures amplitude >= 0 ==> -amplitude <= r <= amplitude
    ensures sineVal == 0 ==> r == 0
  {
    if amplitude >= 0 then
      assert -MAX_VAL * amplitude <= sineVal * amplitude <= MAX_VAL * amplitude by {
        assert (MAX_VAL - sineVal) * amplitude >= 0 && (MAX_VAL + sineVal) * amplitude >= 0;
      }
      (sineVal * amplitude) / MAX_VAL
    else
      (sineVal * amplitude) / MAX_VAL
  }

  /** One oscillator's three signals, with its sine table. */
  class SineOscillator {
    const lut: seq<int>
    var phase: int
    var phaseInc: int
    var lutIndex: int

    /** Each signal within its declared width. */
    predicate Valid()
      reads this
    {
      TableOk(lut) && Fits(phase, 0, TWO32) && Fits(phaseInc, 0, TWO32) && Fits(lutIndex, 0, LUT_SIZE)
    }

    /** The signals' initial values (Python/11.py:14-16). */
    constructor (table: seq<int>)
      requires TableOk(table)
      ensures Valid() && lut == table && phase == 0 && phaseInc == 0 && lutIndex == 0
    {
      lut := table;
      phase, phaseInc, lutIndex := 0, 0, 0;
    }

    /** `calc_phase_inc` (Python/11.py:19-21) on a new frequency input: the
        increment signal takes `PhaseInc(freq)`, and the assignment raises, nothing
        changing, when that does not fit its 32 unsigned bits (a negative
        frequency, or one of 2^32 * 44100 / 1024 or more). */
    method SetFreq(freq: int) returns (ok: bool)
      requires Valid()
      modifies this
      ensures Valid()
      ensures ok <==> Fits(PhaseInc(freq), 0, TWO32)
      ensures phaseInc == (if ok then PhaseInc(freq) else old(phaseInc))
      ensures phase == old(phase) && lutIndex == old(lutIndex)
    {
      var inc := (freq * LUT_SIZE) / SAMPLE_RATE;
      ok := Fits(inc, 0, TWO32);
      if ok {
        phaseInc := inc;
      }
    }

    /** One rising edge of `phase_acc` (Python/11.py:24-27): the phase steps by the
        increment modulo `1024 << 22 = 2^32`, and the index latches the top 10 bits
        of the phase as it was at the edge. */
    method Clock()
      requires Valid()
      modifies this
      ensures Valid()
      ensures phase == (old(phase) + phaseInc) % TWO32 && phaseInc == old(phaseInc)
      ensures lutIndex == LutIndex(old(phase))
    {
      phase, lutIndex := (phase + phaseInc) % (LUT_SIZE * INDEX_UNIT), phase / INDEX_UNIT;
    }

    /** `output_logic` (Python/11.py:30-33): the table entry at the latched index
        scaled by the amplitude input. */
    function Out(amplitude: int): (r: int)
      requires Valid()
      reads this
      ensures amplitude >= 0 ==> -amplitude <= r <= amplitude
      ensures lutIndex == 0 ==> r == 0
    {
      Output(lut[lutIndex], amplitude)
    }
  }

  /** patch1's frequencies and its amplitude `int(32767 / 8 / 4)`. */
  const PATCH1_FREQS: seq<int> := [20, 40, 60, 80, 100, 120, 160, 200]
  const PATCH1_AMPLITUDE: int := 1023
  const VOICES: int := 8

  /** `sum(outputs)`. */
  function Sum(outputs: seq<int>): int {
    if outputs == [] then 0 else Sum(outputs[..|outputs| - 1]) + outputs[|outputs| - 1]
  }

  /** A sum of values each within an amplitude stays within that many amplitudes. */
  lemma {:induction false} SumBound(outputs: seq<int>, amplitude: int)
    requires forall k :: 0 <= k < |outputs| ==> -amplitude <= outputs[k] <= amplitude
    ensures -amplitude * |outputs| <= Sum(outputs) <= amplitude * |outputs|
    decreases |outputs|
  {
    if outputs != [] {
      SumBound(outputs[..|outputs| - 1], amplitude);
    }
  }

  /** patch1's `mix` (Python/11.py:46-50): the outputs' sum floor-divided by 8. */
  function Mix(outputs: seq<int>): (r: int)
    requires |outputs| == VOICES
    ensures r * VOICES <= Sum(outputs) < (r + 1) * VOICES
  {
    Sum(outputs) / VOICES
  }

  /** With eight outputs each within an amplitude, the mix is within that
      amplitude. */
  lemma MixBound(outputs: seq<int>, amplitude: int)
    requires |outputs| == VOICES
    requires forall k :: 0 <= k < VOICES ==> -amplitude <= outputs[k] <= amplitude
    ensures -amplitude <= Mix(outputs) <= amplitude
  {
    SumBound(outputs, amplitude);
  }

  /** patch1's oscillators: each output lies within 1023, inside the
      `intbv(min=-32767, max=32768)` signal it drives, and so does the mix. The
      increments are 0, 0, 1, 1, 2, 2, 3 and 4: the 20 Hz and 40 Hz voices never
      advance. */
  lemma Patch1Ranges(lut: seq<int>, idx: int)
    requires TableOk(lut) && 0 <= idx < LUT_SIZE
    ensures -PATCH1_AMPLITUDE <= Output(lut[idx], PATCH1_AMPLITUDE) <= PATCH1_AMPLITUDE
    ensures Fits(Output(lut[idx], PATCH1_AMPLITUDE), -MAX_VAL, MAX_VAL + 1)
    ensures seq(VOICES, i requires 0 <= i < VOICES => PhaseInc(PATCH1_FREQS[i])) == [0, 0, 1, 1, 2, 2, 3, 4]
  {
  }

  /** With an increment of at most 4, the phase stays below 2^22 for fewer than
      2^20 clocks from 0, so the latched index stays 0 and, entry 0 of the table
      being 0, the output stays 0: in the 44100 clocks patch1's testbench runs,
      each of its voices is silent. */
  lemma SlowVoiceSilent(lut: seq<int>, inc: nat, k: nat, amplitude: int)
    requires TableOk(lut) && inc <= 4 && k < 0x10_0000
    ensures LutIndex(Accumulated(inc, k)) == 0
    ensures Output(lut[LutIndex(Accumulated(inc, k))], amplitude) == 0
  {
    AccumulatedIs(inc, k);
    var p := k * inc;
    assert 0 <= p < INDEX_UNIT by {
      assert (0x10_0000 - k) * inc > 0 || inc == 0;
      assert k * (4 - inc) >= 0;
    }
    assert p % TWO32 == p;
  }
}
