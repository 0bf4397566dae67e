/** The armed wavetable synth `audio_synth` of C++/11.cpp: eight table-lookup
    sine oscillators, each amplitude-modulated by a slow table-lookup LFO, whose
    phases live in [0, 1). The first armed call only zeroes the phases; every
    later armed call writes one 24-bit sample to both stereo streams. */
module ArmedWavetable {
  import opened Numeric
  import PhaseBank

  const NUM_OSC: int := 8
  const TABLE_SIZE: int := 16384
  const SAMPLE_RATE: real := 44100.0
  const BASE_FREQ: seq<real> := [30.0, 55.0, 80.0, 110.0, 140.0, 165.0, 185.0, 195.0]
  const MOD_FREQ: seq<real> := [0.01, 0.04, 0.02, 0.08, 0.01, 0.02, 0.04, 0.08]
  const AMP_SCALE: real := 1.0 / 8.0 / 4.0
  const AMP_OFFSET: real := 0.01
  /** The scale from [-1, 1] to the 24-bit range, 2^23 - 1. */
  const FULL_SCALE: real := 8388607.0
  const TWO23: int := 0x80_0000
  const TWO24: int := 0x100_0000

  /** Every phase of a bank lies in [0, 1). */
  predicate InUnit(s: seq<real>) {
    forall i :: 0 <= i < |s| ==> 0.0 <= s[i] < 1.0
  }

  /** The per-sample increments, f / 44100, are all below 1 (and not negative),
      so the subtract-wrap keeps every phase in [0, 1). */
  lemma IncrementsBelowOne(i: int)
    requires 0 <= i < NUM_OSC
    ensures 0.0 <= BASE_FREQ[i] / SAMPLE_RATE < 1.0 && 0.0 <= MOD_FREQ[i] / SAMPLE_RATE < 1.0
  {
  }

  /** The table index of a phase, `(int)(phase * TABLE_SIZE)`: inside the table
      for every phase in [0, 1). */
  function Index(p: real): (idx: int)
    ensures 0.0 <= p < 1.0 ==> 0 <= idx < TABLE_SIZE
  {
    Trunc(p * TABLE_SIZE as real)
  }

  /** The LFO's amplitude for a table value. */
  function ModAmp(w: real): real {
    w * AMP_SCALE + AMP_OFFSET
  }

  /** One oscillator's term: the carrier's table value times the LFO's amplitude,
      both read at their phases' indices. */
  function Term(p: real, m: real, wavetable: seq<real>): real
    requires 0.0 <= p < 1.0 && 0.0 <= m < 1.0 && |wavetable| >= TABLE_SIZE
  {
    wavetable[Index(p)] * ModAmp(wavetable[Index(m)])
  }

  /** The accumulated sum of the first n oscillators' terms. */
  function Sum(ps: seq<real>, ms: seq<real>, wavetable: seq<real>, n: int): real
    requires 0 <= n <= |ps| && n <= |ms| && InUnit(ps) && InUnit(ms) && |wavetable| >= TABLE_SIZE
  {
    if n == 0 then 0.0 else Sum(ps, ms, wavetable, n - 1) + Term(ps[n - 1], ms[n - 1], wavetable)
  }

  /** The sum over the first n oscillators depends on their phases only. */
  lemma {:induction false} SumFrame(ps: seq<real>, ms: seq<real>, qs: seq<real>, rs: seq<real>,
                                    wavetable: seq<real>, n: int)
    requires 0 <= n <= |ps| && n <= |ms| && n <= |qs| && n <= |rs| && |wavetable| >= TABLE_SIZE
    requires InUnit(ps) && InUnit(ms) && InUnit(qs) && InUnit(rs)
    requires forall j :: 0 <= j < n ==> ps[j] == qs[j]
    requires forall j :: 0 <= j < n ==> ms[j] == rs[j]
    ensures Sum(ps, ms, wavetable, n) == Sum(qs, rs, wavetable, n)
    decreases n
  {
    if n > 0 {
      SumFrame(ps, ms, qs, rs, wavetable, n - 1);
    }
  }

  /** `ap_int<24>` of a float: the fraction is truncated, then the integer wraps
      to 24-bit two's complement. Values already in range are kept. */
  function Wrap24(x: int): (r: int)
    ensures -TWO23 <= r < TWO23
    ensures (r - x) % TWO24 == 0
    ensures -TWO23 <= x < TWO23 ==> r == x
  {
    (x + TWO23) % TWO24 - TWO23
  }

  /** The 24-bit sample written for the (already advanced) phases. */
  function Sample(ps: seq<real>, ms: seq<real>, wavetable: seq<real>): int
    requires |ps| == NUM_OSC && |ms| == NUM_OSC && InUnit(ps) && InUnit(ms) && |wavetable| >= TABLE_SIZE
  {
    Wrap24(Trunc(Sum(ps, ms, wavetable, NUM_OSC) * FULL_SCALE))
  }

  /** A table of values in [-1, 1] adds per oscillator at most 1 * (1/32 + 0.01). */
  lemma {:induction false} SumBound(ps: seq<real>, ms: seq<real>, wavetable: seq<real>, n: int)
    requires 0 <= n <= |ps| && n <= |ms| && InUnit(ps) && InUnit(ms) && |wavetable| >= TABLE_SIZE
    requires forall k :: 0 <= k < |wavetable| ==> -1.0 <= wavetable[k] <= 1.0
    ensures Abs(Sum(ps, ms, wavetable, n)) <= Times(n, AMP_SCALE + AMP_OFFSET)
    decreases n
  {
    if n > 0 {
      SumBound(ps, ms, wavetable, n - 1);
      TermBound(ps[n - 1], ms[n - 1], wavetable);
    }
  }

  /** With table values in [-1, 1], one term is at most 1/32 + 0.01 in magnitude. */
  lemma TermBound(p: real, m: real, wavetable: seq<real>)
    requires 0.0 <= p < 1.0 && 0.0 <= m < 1.0 && |wavetable| >= TABLE_SIZE
    requires forall k :: 0 <= k < |wavetable| ==> -1.0 <= wavetable[k] <= 1.0
    ensures Abs(Term(p, m, wavetable)) <= AMP_SCALE + AMP_OFFSET
  {
    var w := wavetable[Index(p)];
    var a := ModAmp(wavetable[Index(m)]);
    assert -(AMP_SCALE + AMP_OFFSET) <= a <= AMP_SCALE + AMP_OFFSET;
    assert Abs(a) <= AMP_SCALE + AMP_OFFSET;
    var t := Term(p, m, wavetable);
    assert t == w * 1.0 * a;
    PhaseBank.TermBound(w, 1.0, a);
    assert Abs(t) <= Abs(a);
  }

  /** For a table of values in [-1, 1] the sum stays below 0.33, so the 24-bit
      conversion never wraps: the sample is the truncated scaled sum. */
  lemma NoWrap(ps: seq<real>, ms: seq<real>, wavetable: seq<real>)
    requires |ps| == NUM_OSC && |ms| == NUM_OSC && InUnit(ps) && InUnit(ms) && |wavetable| >= TABLE_SIZE
    requires forall k :: 0 <= k < |wavetable| ==> -1.0 <= wavetable[k] <= 1.0
    ensures Sample(ps, ms, wavetable) == Trunc(Sum(ps, ms, wavetable, NUM_OSC) * FULL_SCALE)
    ensures -TWO23 < Sample(ps, ms, wavetable) < TWO23
  {
    var s := Sum(ps, ms, wavetable, NUM_OSC);
    SumBound(ps, ms, wavetable, NUM_OSC);
    TimesIs(NUM_OSC, AMP_SCALE + AMP_OFFSET);
    assert -0.33 <= s <= 0.33;
    assert -0.33 * FULL_SCALE <= s * FULL_SCALE <= 0.33 * FULL_SCALE;
  }

  /** One phase's step in place: add the increment, and take 1 off once the sum
      reaches 1. */
  method Advance(phase: array<real>, i: int, inc: real)
    requires 0 <= i < phase.Length && 0.0 <= inc < 1.0 && InUnit(phase[..])
    modifies phase
    ensures phase[i] == PhaseBank.Wrap(old(phase[i]), inc, 1.0)
    ensures forall j :: 0 <= j < phase.Length && j != i ==> phase[j] == old(phase[j])
    ensures InUnit(phase[..])
  {
    assert 0.0 <= phase[..][i] < 1.0;
    phase[i] := phase[i] + inc;
    if phase[i] >= 1.0 {
      phase[i] := phase[i] - 1.0;
    }
  }

  /** The statics of `audio_synth` and the two output streams it writes. */
  class AudioSynth {
    var initialized: bool
    const phaseMain: array<real>
    const phaseMod: array<real>
    var audioLeft: seq<int>
    var audioRight: seq<int>

    predicate Valid()
      reads this, phaseMain, phaseMod
    {
      phaseMain.Length == NUM_OSC && phaseMod.Length == NUM_OSC && phaseMain != phaseMod
      && InUnit(phaseMain[..]) && InUnit(phaseMod[..])
    }

    /** Program start (C++/11.cpp:30-32): not initialised, the static phase
        arrays zero, nothing written yet. */
    constructor ()
      ensures Valid() && fresh(phaseMain) && fresh(phaseMod)
      ensures !initialized && audioLeft == [] && audioRight == []
      ensures forall i :: 0 <= i < NUM_OSC ==> phaseMain[i] == 0.0 && phaseMod[i] == 0.0
    {
      initialized := false;
      phaseMain := new real[NUM_OSC](_ => 0.0);
      phaseMod := new real[NUM_OSC](_ => 0.0);
      audioLeft := [];
      audioRight := [];
    }

    /** The eight oscillators of one sample (C++/11.cpp:49-69): each carrier and
        LFO phase takes its wrapped step, and the sum accumulates the carrier's
        table value times the LFO's amplitude at the advanced phases. */
    method Oscillators(wavetable: seq<real>) returns (sum: real)
      requires Valid() && |wavetable| >= TABLE_SIZE
      modifies phaseMain, phaseMod
      ensures Valid()
      ensures forall i :: 0 <= i < NUM_OSC ==> phaseMain[i] == PhaseBank.Wrap(old(phaseMain[i]), BASE_FREQ[i] / SAMPLE_RATE, 1.0)
      ensures forall i :: 0 <= i < NUM_OSC ==> phaseMod[i] == PhaseBank.Wrap(old(phaseMod[i]), MOD_FREQ[i] / SAMPLE_RATE, 1.0)
      ensures sum == Sum(phaseMain[..], phaseMod[..], wavetable, NUM_OSC)
    {
      sum := 0.0;
      for i := 0 to NUM_OSC
        invariant Valid()
        invariant forall j :: 0 <= j < i ==> phaseMain[j] == PhaseBank.Wrap(old(phaseMain[j]), BASE_FREQ[j] / SAMPLE_RATE, 1.0)
        invariant forall j :: i <= j < NUM_OSC ==> phaseMain[j] == old(phaseMain[j])
        invariant forall j :: 0 <= j < i ==> phaseMod[j] == PhaseBank.Wrap(old(phaseMod[j]), MOD_FREQ[j] / SAMPLE_RATE, 1.0)
        invariant forall j :: i <= j < NUM_OSC ==> phaseMod[j] == old(phaseMod[j])
        invariant sum == Sum(phaseMain[..], phaseMod[..], wavetable, i)
      {
        ghost var ps, ms := phaseMain[..], phaseMod[..];
        var term := Voice(i, wavetable);
        SumFrame(ps, ms, phaseMain[..], phaseMod[..], wavetable, i);
        sum := sum + term;
      }
    }

    /** Oscillator i of one sample (C++/11.cpp:53-68): both of its phases step,
        and its term is the carrier's table value times the LFO's amplitude at
        the advanced phases. */
    method Voice(i: int, wavetable: seq<real>) returns (term: real)
      requires Valid() && |wavetable| >= TABLE_SIZE && 0 <= i < NUM_OSC
      modifies phaseMain, phaseMod
      ensures Valid()
      ensures phaseMain[i] == PhaseBank.Wrap(old(phaseMain[i]), BASE_FREQ[i] / SAMPLE_RATE, 1.0)
      ensures phaseMod[i] == PhaseBank.Wrap(old(phaseMod[i]), MOD_FREQ[i] / SAMPLE_RATE, 1.0)
      ensures forall j :: 0 <= j < NUM_OSC && j != i ==> phaseMain[j] == old(phaseMain[j]) && phaseMod[j] == old(phaseMod[j])
      ensures 0.0 <= phaseMain[i] < 1.0 && 0.0 <= phaseMod[i] < 1.0
      ensures term == Term(phaseMain[i], phaseMod[i], wavetable)
    {
      IncrementsBelowOne(i);
      var incrMain := BASE_FREQ[i] / SAMPLE_RATE;
      Advance(phaseMain, i, incrMain);
      assert 0.0 <= phaseMain[..][i] < 1.0;
      var idxMain := Trunc(phaseMain[i] * TABLE_SIZE as real);
      var osc := wavetable[idxMain];
      var incrMod := MOD_FREQ[i] / SAMPLE_RATE;
      Advance(phaseMod, i, incrMod);
      assert 0.0 <= phaseMod[..][i] < 1.0;
      var idxMod := Trunc(phaseMod[i] * TABLE_SIZE as real);
      var modAmp := wavetable[idxMod] * AMP_SCALE + AMP_OFFSET;
      term := osc * modAmp;
    }

    /** The phase reset of the first armed call (C++/11.cpp:42-45). */
    method Zero()
      requires Valid()
      modifies phaseMain, phaseMod
      ensures Valid()
      ensures forall i :: 0 <= i < NUM_OSC ==> phaseMain[i] == 0.0 && phaseMod[i] == 0.0
    {
      for i := 0 to NUM_OSC
        invariant forall j :: 0 <= j < i ==> phaseMain[j] == 0.0 && phaseMod[j] == 0.0
        invariant forall j :: i <= j < NUM_OSC ==> phaseMain[j] == old(phaseMain[j]) && phaseMod[j] == old(phaseMod[j])
      {
        phaseMain[i] := 0.0;
        phaseMod[i] := 0.0;
      }
    }

    /** One call of `audio_synth` (C++/11.cpp:18-78). Unarmed, nothing changes and
        nothing is written. The first armed call zeroes every phase and sets
        `initialized`, writing nothing. Every later armed call advances the
        phases and appends the same 24-bit sample to both streams. */
    method Call(wavetable: seq<real>, armOk: bool)
      requires Valid() && |wavetable| >= TABLE_SIZE
      modifies this, phaseMain, phaseMod
      ensures Valid()
      ensures !armOk ==> initialized == old(initialized) && audioLeft == old(audioLeft) && audioRight == old(audioRight)
      ensures !armOk ==> phaseMain[..] == old(phaseMain[..]) && phaseMod[..] == old(phaseMod[..])
      ensures armOk ==> initialized
      ensures armOk && !old(initialized) ==> audioLeft == old(audioLeft) && audioRight == old(audioRight)
      ensures armOk && !old(initialized) ==> forall i :: 0 <= i < NUM_OSC ==> phaseMain[i] == 0.0 && phaseMod[i] == 0.0
      ensures armOk && old(initialized) ==>
        forall i :: 0 <= i < NUM_OSC ==> phaseMain[i] == PhaseBank.Wrap(old(phaseMain[i]), BASE_FREQ[i] / SAMPLE_RATE, 1.0)
      ensures armOk && old(initialized) ==>
        forall i :: 0 <= i < NUM_OSC ==> phaseMod[i] == PhaseBank.Wrap(old(phaseMod[i]), MOD_FREQ[i] / SAMPLE_RATE, 1.0)
      ensures armOk && old(initialized) ==>
        audioLeft == old(audioLeft) + [Sample(phaseMain[..], phaseMod[..], wavetable)]
        && audioRight == old(audioRight) + [Sample(phaseMain[..], phaseMod[..], wavetable)]
    {
      if armOk {
        if !initialized {
          Zero();
          initialized := true;
        } else {
          var sum := Oscillators(wavetable);
          var outSample := Wrap24(Trunc(sum * FULL_SCALE));
          audioLeft := audioLeft + [outSample];
          audioRight := audioRight + [outSample];
        }
      }
    }
  }
}
