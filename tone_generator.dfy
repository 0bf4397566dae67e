/** The HLS `tone_generator` of C++/2.cpp: the global frequency tables that
    `init_frequencies` fills, the amplitude 0.01, and the two static phase
    arrays that persist between calls, each call producing one sample. */
module ToneGenerator {
  import opened Numeric
  import opened PhaseBank

  const AMPLITUDE: real := 0.01

  /** Oscillator i's frequency as `init_frequencies` sets it: 20 Hz plus i/32 of
      1980 Hz, so 20 Hz for the first oscillator and below 2000 Hz for all. */
  function OscFreqAt(i: int): (f: real)
    requires 0 <= i < NUM_OSC
    ensures i == 0 ==> f == 20.0
    ensures 20.0 <= f < 2000.0
  {
    20.0 + i as real * 1980.0 / NUM_OSC as real
  }

  /** LFO i's rate: 0.01 Hz plus i/32 of 0.09 Hz. */
  function LfoFreqAt(i: int): (f: real)
    requires 0 <= i < NUM_OSC
    ensures i == 0 ==> f == 0.01
    ensures 0.01 <= f < 0.1
  {
    0.01 + i as real * 0.09 / NUM_OSC as real
  }

  /** The oscillator frequencies rise strictly with the index. */
  lemma OscFreqsIncrease(i: int, j: int)
    requires 0 <= i < j < NUM_OSC
    ensures OscFreqAt(i) < OscFreqAt(j)
  {
    assert (j - i) as real * 1980.0 / 32.0 > 0.0;
  }

  /** The LFO rates rise strictly with the index too. */
  lemma LfoFreqsIncrease(i: int, j: int)
    requires 0 <= i < j < NUM_OSC
    ensures LfoFreqAt(i) < LfoFreqAt(j)
  {
    assert (j - i) as real * 0.09 / 32.0 > 0.0;
  }

  /** The globals and statics of C++/2.cpp. */
  class Generator {
    const oscFreq: array<real>
    const lfoFreq: array<real>
    const phase: array<real>
    const lfoPhase: array<real>
    const amplitude: real

    predicate Valid()
      reads this
    {
      oscFreq.Length == NUM_OSC && lfoFreq.Length == NUM_OSC
      && phase.Length == NUM_OSC && lfoPhase.Length == NUM_OSC
      && phase != lfoPhase && oscFreq != lfoFreq && amplitude == AMPLITUDE
      && oscFreq != phase && oscFreq != lfoPhase && lfoFreq != phase && lfoFreq != lfoPhase
    }

    /** Program start (C++/2.cpp:11-13, 20-21): empty initialisers leave both
        frequency tables zero, the static phases start at 0, amplitude is 0.01. */
    constructor ()
      ensures Valid() && fresh(oscFreq) && fresh(lfoFreq) && fresh(phase) && fresh(lfoPhase)
      ensures forall i :: 0 <= i < NUM_OSC ==> oscFreq[i] == 0.0 && lfoFreq[i] == 0.0
      ensures forall i :: 0 <= i < NUM_OSC ==> phase[i] == 0.0 && lfoPhase[i] == 0.0
    {
      oscFreq := new real[NUM_OSC](_ => 0.0);
      lfoFreq := new real[NUM_OSC](_ => 0.0);
      phase := new real[NUM_OSC](_ => 0.0);
      lfoPhase := new real[NUM_OSC](_ => 0.0);
      amplitude := AMPLITUDE;
    }

    /** `init_frequencies` (C++/2.cpp:44-48): both tables take their linear
        spacing; the phases are not touched. */
    method InitFrequencies()
      requires Valid()
      modifies oscFreq, lfoFreq
      ensures forall i :: 0 <= i < NUM_OSC ==> oscFreq[i] == OscFreqAt(i) && lfoFreq[i] == LfoFreqAt(i)
      ensures Audible(oscFreq[..]) && Audible(lfoFreq[..])
    {
      for i := 0 to NUM_OSC
        invariant forall j :: 0 <= j < i ==> oscFreq[j] == OscFreqAt(j) && lfoFreq[j] == LfoFreqAt(j)
      {
        oscFreq[i] := 20.0 + i as real * 1980.0 / NUM_OSC as real;
        lfoFreq[i] := 0.01 + i as real * 0.09 / NUM_OSC as real;
      }
    }

    /** One call of `tone_generator` (C++/2.cpp:17-41): every phase and LFO phase
        takes its wrapped step, the sample is the modulated sum over the advanced
        phases, and phases in [0, 2*pi) stay there while the frequencies are
        below the sample rate. */
    method Generate(sin: real -> real) returns (outputSample: real)
      requires Valid()
      modifies phase, lfoPhase
      ensures forall i :: 0 <= i < NUM_OSC ==> phase[i] == Wrap(old(phase[i]), Inc(oscFreq[i]), TWO_PI_F)
      ensures forall i :: 0 <= i < NUM_OSC ==> lfoPhase[i] == Wrap(old(lfoPhase[i]), Inc(lfoFreq[i]), TWO_PI_F)
      ensures outputSample == Mix(phase[..], lfoPhase[..], amplitude, sin, NUM_OSC)
      ensures InRange(old(phase[..])) && Audible(oscFreq[..]) ==> InRange(phase[..])
      ensures InRange(old(lfoPhase[..])) && Audible(lfoFreq[..]) ==> InRange(lfoPhase[..])
    {
      ghost var p0 := phase[..];
      ghost var l0 := lfoPhase[..];
      outputSample := Step(phase, lfoPhase, oscFreq[..], lfoFreq[..], amplitude, sin);
      if InRange(p0) && Audible(oscFreq[..]) {
        StepInRange(p0, phase[..], oscFreq[..]);
      }
      if InRange(l0) && Audible(lfoFreq[..]) {
        StepInRange(l0, lfoPhase[..], lfoFreq[..]);
      }
    }
  }

  /** The output of a call is bounded by 32 * 0.01 = 0.32 for a sine bounded by 1. */
  lemma SampleBound(ps: seq<real>, ls: seq<real>, sin: real -> real)
    requires |ps| == NUM_OSC && |ls| == NUM_OSC
    requires forall x :: -1.0 <= sin(x) <= 1.0
    ensures Abs(Mix(ps, ls, AMPLITUDE, sin, NUM_OSC)) <= 0.32
  {
    MixBound(ps, ls, AMPLITUDE, sin, NUM_OSC);
    TimesIs(NUM_OSC, AMPLITUDE);
  }
}
