/** The clocked MyHDL block `fm_synth_three_carriers` of Python/13.py: two LFO
    counters that trigger bounded random walks of the modulation frequency and
    index, a modulator and three carriers whose "phase" is the previous sine
    sample plus an increment, a 30 Hz sub oscillator, and a chain of
    pass-through registers. Every read sees the registers as they were at the
    edge and the last `.next` assignment wins. The registers are unsigned 32-bit
    `intbv`s, so a negative sine sample raises; `Clock` reports that as
    `ok == false` with nothing changed. `math.sin` is the parameter `sin`, and
    `np.random.randint` draws are the parameters `stepF` and `stepI`. */
module ThreeCarrierHdl {
  import opened Numeric

  const SAMPLE_RATE: int := 44100
  /** `int(SAMPLE_RATE * 0.2)` and `int(SAMPLE_RATE * 0.1)`. */
  const FREQ_PERIOD: int := 8820
  const INDEX_PERIOD: int := 4410
  /** `mod_freq`'s range `[50, 401)` and `mod_index`'s `[20, 81)`. */
  const FREQ_MIN: int := 50
  const FREQ_MAX: int := 401
  const INDEX_MIN: int := 20
  const INDEX_MAX: int := 81
  const NUM_CARRIERS: int := 3
  /** `int(440 * 2**((n - 69)/12))` for the notes 60, 62 and 90. */
  const CARRIERS: seq<int> := [261, 293, 1479]
  /** `int(2**32 * 30 / SAMPLE_RATE)`, the sub oscillator's increment. */
  const SUB_INC: int := 2921746
  const MOD_SCALE: real := 2147483648.0
  /** `0.1 * 2**31`. */
  const CARRIER_SCALE: real := 0.1 * 2147483648.0
  /** `intbv(0)[16:]`. */
  const WORD: int := 0x1_0000

  /** A random-walk step: the new value is taken only when it lies in [lo, hi). */
  function WalkNext(v: int, step: int, lo: int, hi: int): (r: int)
    ensures lo <= v + step < hi ==> r == v + step
    ensures !(lo <= v + step < hi) ==> r == v
  {
    if lo <= v + step && v + step < hi then v + step else v
  }

  /** A value in [lo, hi) stays there whatever the step. */
  lemma WalkStays(v: int, step: int, lo: int, hi: int)
    requires lo <= v < hi
    ensures lo <= WalkNext(v, step, lo, hi) < hi
  {
  }

  /** `int(2**32 * f / SAMPLE_RATE)` for a non-negative frequency: with the
      numerator below 2^53 the float quotient truncates to the integer floor. */
  function PhaseInc(f: int): int
    requires f >= 0
  {
    (TWO32 * f) / SAMPLE_RATE
  }

  /** `int(scale * sin(2*pi*p / 2**32))` for `p = (inc + reg) % 2**32`: the
      oscillators add their increment to their own previous sample. */
  function Osc(inc: int, reg: int, scale: real, sin: real -> real): int {
    Trunc(scale * sin(2.0 * PI * ((inc + reg) % TWO32) as real / TWO32 as real))
  }

  lemma ProductNonneg(a: int, b: int)
    requires a >= 0 && b >= 0
    ensures a * b >= 0
  {
  }

  /** `(mod_signal * mod_index) >> 15`, Python's shift being floor division. */
  function Deviation(ms: int, mi: int): (r: int)
    requires ms >= 0 && mi >= 0
    ensures r >= 0
  {
    ProductNonneg(ms, mi);
    (ms * mi) / 0x8000
  }

  /** Carrier i's frequency, `carriers[i] + (fm_deviation >> 8)`: never below its note. */
  function CarrierFreq(i: int, ms: int, mi: int): (r: int)
    requires 0 <= i < NUM_CARRIERS && ms >= 0 && mi >= 0
    ensures r >= CARRIERS[i]
  {
    CARRIERS[i] + Deviation(ms, mi) / 256
  }

  /** With the modulator a 32-bit word and the index in range, a carrier's
      frequency lies between its note and the note plus 40960 Hz. */
  lemma CarrierFreqRange(i: int, ms: int, mi: int)
    requires 0 <= i < NUM_CARRIERS && 0 <= ms < TWO32 && INDEX_MIN <= mi < INDEX_MAX
    ensures CARRIERS[i] <= CarrierFreq(i, ms, mi) <= CARRIERS[i] + 40960
  {
    ProductNonneg(ms, mi);
    ProductNonneg(ms, 80 - mi);
    assert ms * (80 - mi) == ms * 80 - ms * mi;
    assert 0 <= ms * mi <= (TWO32 - 1) * 80;
  }

  /** The gain stage, `(saturated_signal * 3) // 10`. */
  function Gain(s: int): (r: int)
  {
    (s * 3) / 10
  }

  /** The gain stage shrinks every positive value and keeps 0 at 0, so the
      saturation register, which starts at 0, stays there. */
  lemma GainShrinks(s: int)
    requires s >= 0
    ensures 0 <= Gain(s) <= s
    ensures s > 0 ==> Gain(s) < s
    ensures s == 0 ==> Gain(s) == 0
  {
  }

  /** The next values of the three carrier registers, from the old carrier,
      modulator and index registers. */
  function NextCarriers(cs: seq<int>, ms: int, mi: int, sin: real -> real): (r: seq<int>)
    requires |cs| == NUM_CARRIERS && ms >= 0 && mi >= 0
    ensures |r| == NUM_CARRIERS
  {
    seq(NUM_CARRIERS, i requires 0 <= i < NUM_CARRIERS =>
      Osc(PhaseInc(CarrierFreq(i, ms, mi)), cs[i], CARRIER_SCALE, sin))
  }

  /** The block's registers; `audio_out` is the output port. `lfo_mod_freq` and
      `lfo_mod_index` are declared but never read or driven. */
  class Synth {
    var modFreq: int
    var modIndex: int
    var modSignal: int
    var carrierSignals: seq<int>
    var mixedSignal: int
    var subSignal: int
    var filteredSignal: int
    var saturatedSignal: int
    var reverbedSignal: int
    var counterModFreq: int
    var counterModIndex: int
    var audioOut: int

    /** Every register within its declared range, and the counters within their
        cycles. */
    predicate Valid()
      reads this
    {
      Fits(modFreq, FREQ_MIN, FREQ_MAX) && Fits(modIndex, INDEX_MIN, INDEX_MAX)
      && Fits(modSignal, 0, TWO32) && |carrierSignals| == NUM_CARRIERS
      && (forall i :: 0 <= i < NUM_CARRIERS ==> Fits(carrierSignals[i], 0, TWO32))
      && Fits(mixedSignal, 0, TWO32) && Fits(subSignal, 0, TWO32)
      && Fits(filteredSignal, 0, TWO32) && Fits(saturatedSignal, 0, TWO32)
      && Fits(reverbedSignal, 0, TWO32)
      && 0 <= counterModFreq <= FREQ_PERIOD && 0 <= counterModIndex <= INDEX_PERIOD
    }

    /** The registers' initial values (Python/13.py:15-38), every one 0 except
        the modulation frequency and index, which start at f and m. */
    constructor (f: int, m: int)
      requires Fits(f, FREQ_MIN, FREQ_MAX) && Fits(m, INDEX_MIN, INDEX_MAX)
      ensures Valid() && modFreq == f && modIndex == m
      ensures modSignal == 0 && carrierSignals == [0, 0, 0] && mixedSignal == 0 && subSignal == 0
      ensures filteredSignal == 0 && saturatedSignal == 0 && reverbedSignal == 0
      ensures counterModFreq == 0 && counterModIndex == 0 && audioOut == 0
    {
      modFreq, modIndex := f, m;
      modSignal, carrierSignals, mixedSignal, subSignal := 0, [0, 0, 0], 0, 0;
      filteredSignal, saturatedSignal, reverbedSignal := 0, 0, 0;
      counterModFreq, counterModIndex, audioOut := 0, 0, 0;
    }

    /** One rising edge (Python/13.py:41-107). The clock succeeds exactly when the
        modulator's, the carriers' and the sub oscillator's new samples fit their
        unsigned 32-bit registers. Then: each counter counts up to its limit and
        returns to 0, a counter at its limit lets its random walk take a step that
        stays in range, the oscillators take their new samples, the mix is the
        floor third of the old carriers, the filter register takes half the old
        mix plus the old sub, and the saturation register takes 3/10 of its own
        old value: the clamp of lines 93-98 is always overridden. The remaining
        registers pass their inputs on by one clock. */
    method Clock(sin: real -> real, stepF: int, stepI: int) returns (ok: bool)
      requires Valid()
      modifies this
      ensures Valid()
      ensures ok <==> Fits(Osc(PhaseInc(old(modFreq)), old(modSignal), MOD_SCALE, sin), 0, TWO32)
                      && Fits(Osc(SUB_INC, old(subSignal), CARRIER_SCALE, sin), 0, TWO32)
                      && (forall i :: 0 <= i < NUM_CARRIERS ==>
                            Fits(NextCarriers(old(carrierSignals), old(modSignal), old(modIndex), sin)[i], 0, TWO32))
      ensures !ok ==> modFreq == old(modFreq) && modIndex == old(modIndex) && modSignal == old(modSignal)
                      && carrierSignals == old(carrierSignals) && saturatedSignal == old(saturatedSignal)
                      && counterModFreq == old(counterModFreq) && counterModIndex == old(counterModIndex)
                      && mixedSignal == old(mixedSignal) && subSignal == old(subSignal)
                      && filteredSignal == old(filteredSignal) && reverbedSignal == old(reverbedSignal)
                      && audioOut == old(audioOut)
      ensures ok ==> counterModFreq == CounterNext(old(counterModFreq), FREQ_PERIOD)
                     && counterModIndex == CounterNext(old(counterModIndex), INDEX_PERIOD)
      ensures ok ==> modFreq == (if old(counterModFreq) < FREQ_PERIOD then old(modFreq)
                                 else WalkNext(old(modFreq), stepF, FREQ_MIN, FREQ_MAX))
      ensures ok ==> modIndex == (if old(counterModIndex) < INDEX_PERIOD then old(modIndex)
                                  else WalkNext(old(modIndex), stepI, INDEX_MIN, INDEX_MAX))
      ensures ok ==> modSignal == Osc(PhaseInc(old(modFreq)), old(modSignal), MOD_SCALE, sin)
                     && carrierSignals == NextCarriers(old(carrierSignals), old(modSignal), old(modIndex), sin)
                     && subSignal == Osc(SUB_INC, old(subSignal), CARRIER_SCALE, sin)
      ensures ok ==> mixedSignal == (old(carrierSignals[0]) + old(carrierSignals[1]) + old(carrierSignals[2])) / 3
                     && filteredSignal == (old(mixedSignal) + old(subSignal)) / 2
      ensures ok ==> saturatedSignal == Gain(old(saturatedSignal))
                     && reverbedSignal == old(saturatedSignal) && audioOut == old(reverbedSignal)
    {
      var f, m, cf, ci := Lfos(stepF, stepI);
      var ms, cs, sub := Oscillators(sin);
      ok := Fits(ms, 0, TWO32) && Fits(sub, 0, TWO32)
            && forall i :: 0 <= i < NUM_CARRIERS ==> Fits(cs[i], 0, TWO32);
      if ok {
        var mixed, combined, sat := Chain();
        Commit(f, m, cf, ci, ms, cs, sub, mixed, combined, sat);
      }
    }

    /** The end of a cycle without overflow: every next value takes effect, the
        reverb and output registers taking the old saturation and reverb values. */
    method Commit(f: int, m: int, cf: int, ci: int, ms: int, cs: seq<int>, sub: int,
                  mixed: int, combined: int, sat: int)
      requires Fits(f, FREQ_MIN, FREQ_MAX) && Fits(m, INDEX_MIN, INDEX_MAX)
      requires 0 <= cf <= FREQ_PERIOD && 0 <= ci <= INDEX_PERIOD
      requires Fits(ms, 0, TWO32) && Fits(sub, 0, TWO32) && |cs| == NUM_CARRIERS
      requires forall i :: 0 <= i < NUM_CARRIERS ==> Fits(cs[i], 0, TWO32)
      requires Fits(mixed, 0, TWO32) && Fits(combined, 0, TWO32) && Fits(sat, 0, TWO32)
      requires Fits(saturatedSignal, 0, TWO32)
      modifies this
      ensures Valid()
      ensures modFreq == f && modIndex == m && counterModFreq == cf && counterModIndex == ci
      ensures modSignal == ms && carrierSignals == cs && subSignal == sub
      ensures mixedSignal == mixed && filteredSignal == combined && saturatedSignal == sat
      ensures reverbedSignal == old(saturatedSignal) && audioOut == old(reverbedSignal)
    {
      modFreq, modIndex, counterModFreq, counterModIndex := f, m, cf, ci;
      modSignal, carrierSignals, subSignal := ms, cs, sub;
      mixedSignal, filteredSignal, audioOut, reverbedSignal, saturatedSignal :=
        mixed, combined, reverbedSignal, saturatedSignal, sat;
    }

    /** The mix, the combination of mix and sub, and the saturation and gain
        stages (Python/13.py:76, 84-101), on the old registers. The clamp's
        result is overwritten by the gain's assignment. */
    method Chain() returns (mixed: int, combined: int, sat: int)
      requires Valid()
      ensures mixed == (carrierSignals[0] + carrierSignals[1] + carrierSignals[2]) / 3
      ensures combined == (mixedSignal + subSignal) / 2
      ensures sat == Gain(saturatedSignal)
      ensures Fits(mixed, 0, TWO32) && Fits(combined, 0, TWO32) && Fits(sat, 0, TWO32)
    {
      mixed := (carrierSignals[0] + carrierSignals[1] + carrierSignals[2]) / 3;
      combined := (mixedSignal + subSignal) / 2;
      var saturated := (filteredSignal * 5) / WORD;
      if saturated > 0x8000 {
        sat := 0x8000;
      } else if saturated < -0x8000 {
        sat := -0x8000;
      } else {
        sat := saturated;
      }
      sat := (saturatedSignal * 3) / 10;
      GainShrinks(saturatedSignal);
    }

    /** The two LFO counters and their random walks (Python/13.py:43-59). */
    method Lfos(stepF: int, stepI: int) returns (f: int, m: int, cf: int, ci: int)
      requires Valid()
      ensures cf == CounterNext(counterModFreq, FREQ_PERIOD) && ci == CounterNext(counterModIndex, INDEX_PERIOD)
      ensures f == (if counterModFreq < FREQ_PERIOD then modFreq else WalkNext(modFreq, stepF, FREQ_MIN, FREQ_MAX))
      ensures m == (if counterModIndex < INDEX_PERIOD then modIndex else WalkNext(modIndex, stepI, INDEX_MIN, INDEX_MAX))
      ensures Fits(f, FREQ_MIN, FREQ_MAX) && Fits(m, INDEX_MIN, INDEX_MAX)
      ensures 0 <= cf <= FREQ_PERIOD && 0 <= ci <= INDEX_PERIOD
    {
      f, m := modFreq, modIndex;
      if counterModFreq < FREQ_PERIOD {
        cf := counterModFreq + 1;
      } else {
        cf := 0;
        var newVal := modFreq + stepF;
        if newVal >= FREQ_MIN && newVal < FREQ_MAX {
          f := newVal;
        }
      }
      if counterModIndex < INDEX_PERIOD {
        ci := counterModIndex + 1;
      } else {
        ci := 0;
        var newVal := modIndex + stepI;
        if newVal >= INDEX_MIN && newVal < INDEX_MAX {
          m := newVal;
        }
      }
    }

    /** The modulator, the carrier loop and the sub oscillator (Python/13.py:62-81),
        all on the old registers. */
    method Oscillators(sin: real -> real) returns (ms: int, cs: seq<int>, sub: int)
      requires Valid()
      ensures ms == Osc(PhaseInc(modFreq), modSignal, MOD_SCALE, sin)
      ensures cs == NextCarriers(carrierSignals, modSignal, modIndex, sin)
      ensures sub == Osc(SUB_INC, subSignal, CARRIER_SCALE, sin)
    {
      var modPhaseInc := (TWO32 * modFreq) / SAMPLE_RATE;
      ms := Sample(modPhaseInc, modSignal, MOD_SCALE, sin);
      cs := [];
      for i := 0 to NUM_CARRIERS
        invariant |cs| == i
        invariant forall j :: 0 <= j < i ==>
          cs[j] == Osc(PhaseInc(CarrierFreq(j, modSignal, modIndex)), carrierSignals[j], CARRIER_SCALE, sin)
      {
        var fmDeviation := (modSignal * modIndex) / 0x8000;
        var carrierFreq := CARRIERS[i] + fmDeviation / 256;
        assert carrierFreq == CarrierFreq(i, modSignal, modIndex);
        var carrierPhaseInc := (TWO32 * carrierFreq) / SAMPLE_RATE;
        var c := Sample(carrierPhaseInc, carrierSignals[i], CARRIER_SCALE, sin);
        cs := cs + [c];
      }
      sub := Sample(SUB_INC, subSignal, CARRIER_SCALE, sin);
    }
  }

  /** One oscillator's new sample (Python/13.py:63-64, 72-73, 80-81): the
      increment plus the register modulo 2^32 read as a fraction of a turn, its
      sine scaled and truncated toward zero by `int`. */
  method Sample(inc: int, reg: int, scale: real, sin: real -> real) returns (s: int)
    ensures s == Osc(inc, reg, scale, sin)
  {
    var phase := (inc + reg) % TWO32;
    s := Trunc(scale * sin(2.0 * PI * phase as real / TWO32 as real));
  }
}
