/** The bank of 32 float oscillators, each with an amplitude LFO, that the HLS
    `tone_generator` (C++/2.cpp) and its OpenCL kernel port
    (OpenCL/6bc1cbf7f4fdddff0a8f408bf67d40d9/1_1.cpp) advance once per sample:
    both phases move by 2*pi*f/48000 and drop by 2*pi once they reach it, and the
    sample is the sum of sin(phase)*sin(lfo phase)*amplitude over the updated
    phases. */
module PhaseBank {
  import opened Numeric

  const NUM_OSC: int := 32
  const SAMPLE_RATE: real := 48000.0
  /** Both sources spell 2*pi as this literal rather than computing it. */
  const TWO_PI_F: real := 6.28318530718

  /** A phase accumulator step with a subtract-wrap: the increment is added, and
      the period is taken off once when the sum reaches it. A phase in
      [0, period) stays there whenever the increment is below the period. */
  function Wrap(p: real, inc: real, period: real): (r: real)
    ensures 0.0 <= p < period && 0.0 <= inc < period ==> 0.0 <= r < period
    ensures p + inc < period ==> r == p + inc
    ensures p + inc >= period ==> r == p + inc - period
  {
    if p + inc >= period then p + inc - period else p + inc
  }

  /** The phase increment of a frequency, 2*pi*f / 48000: below one period
      exactly for the frequencies below the sample rate. */
  function Inc(f: real): (r: real)
    ensures 0.0 <= f < SAMPLE_RATE ==> 0.0 <= r < TWO_PI_F
    ensures f < 0.0 ==> r < 0.0
  {
    TWO_PI_F * f / SAMPLE_RATE
  }

  /** Every phase of a bank lies in one period. */
  predicate InRange(s: seq<real>) {
    forall i :: 0 <= i < |s| ==> 0.0 <= s[i] < TWO_PI_F
  }

  /** Frequencies whose increments are below one period. */
  predicate Audible(fs: seq<real>) {
    forall i :: 0 <= i < |fs| ==> 0.0 <= fs[i] < SAMPLE_RATE
  }

  /** The sum over the first n oscillators of sin(phase)*sin(lfo phase)*amp. */
  function Mix(ps: seq<real>, ls: seq<real>, amp: real, sin: real -> real, n: int): real
    requires 0 <= n <= |ps| && n <= |ls|
  {
    if n == 0 then 0.0 else Mix(ps, ls, amp, sin, n - 1) + sin(ps[n - 1]) * sin(ls[n - 1]) * amp
  }

  /** A product of two values of magnitude at most 1 and an amplitude is at most
      the amplitude's magnitude. */
  lemma TermBound(x: real, y: real, amp: real)
    requires -1.0 <= x <= 1.0 && -1.0 <= y <= 1.0
    ensures Abs(x * y * amp) <= Abs(amp)
  {
    UnitProduct(x, y);
    var xy := x * y;
    UnitProduct(xy, 1.0);
    var a := Abs(amp);
    MulNonneg(1.0 - xy, a);
    MulNonneg(1.0 + xy, a);
    assert -a <= xy * a <= a;
    assert x * y * amp == xy * amp;
    if amp < 0.0 {
      assert xy * amp == -(xy * a);
    }
  }

  /** Two values of magnitude at most 1 have a product of magnitude at most 1. */
  lemma UnitProduct(x: real, y: real)
    requires -1.0 <= x <= 1.0 && -1.0 <= y <= 1.0
    ensures -1.0 <= x * y <= 1.0
  {
    var ax, ay := Abs(x), Abs(y);
    MulNonneg(ax, 1.0 - ay);
    assert ax * ay <= ax;
    assert x * y == ax * ay || x * y == -(ax * ay);
  }

  /** With a sine bounded by 1, n oscillators sum to at most n copies of the
      amplitude's magnitude. */
  lemma {:induction false} MixBound(ps: seq<real>, ls: seq<real>, amp: real, sin: real -> real, n: int)
    requires 0 <= n <= |ps| && n <= |ls|
    requires forall x :: -1.0 <= sin(x) <= 1.0
    ensures Abs(Mix(ps, ls, amp, sin, n)) <= Times(n, Abs(amp))
    decreases n
  {
    if n > 0 {
      MixBound(ps, ls, amp, sin, n - 1);
      var m := Mix(ps, ls, amp, sin, n - 1);
      var t := sin(ps[n - 1]) * sin(ls[n - 1]) * amp;
      TermBound(sin(ps[n - 1]), sin(ls[n - 1]), amp);
      assert Abs(t) <= Abs(amp);
      assert Mix(ps, ls, amp, sin, n) == m + t;
      assert Times(n, Abs(amp)) == Times(n - 1, Abs(amp)) + Abs(amp);
    }
  }

  /** The oscillator loop shared by both sources: oscillator by oscillator,
      advance the carrier phase, then the LFO phase, and add the product of their
      sines (on the advanced phases) to the sum. Entries past the 32nd are left
      alone. */
  method Step(phase: array<real>, lfoPhase: array<real>, oscFreq: seq<real>, lfoFreq: seq<real>,
              amp: real, sin: real -> real) returns (sum: real)
    requires phase.Length >= NUM_OSC && lfoPhase.Length >= NUM_OSC && phase != lfoPhase
    requires |oscFreq| >= NUM_OSC && |lfoFreq| >= NUM_OSC
    modifies phase, lfoPhase
    ensures forall i :: 0 <= i < NUM_OSC ==> phase[i] == Wrap(old(phase[i]), Inc(oscFreq[i]), TWO_PI_F)
    ensures forall i :: 0 <= i < NUM_OSC ==> lfoPhase[i] == Wrap(old(lfoPhase[i]), Inc(lfoFreq[i]), TWO_PI_F)
    ensures forall i :: NUM_OSC <= i < phase.Length ==> phase[i] == old(phase[i])
    ensures forall i :: NUM_OSC <= i < lfoPhase.Length ==> lfoPhase[i] == old(lfoPhase[i])
    ensures sum == Mix(phase[..], lfoPhase[..], amp, sin, NUM_OSC)
  {
    sum := 0.0;
    for i := 0 to NUM_OSC
      invariant forall j :: 0 <= j < i ==> phase[j] == Wrap(old(phase[j]), Inc(oscFreq[j]), TWO_PI_F)
      invariant forall j :: i <= j < phase.Length ==> phase[j] == old(phase[j])
      invariant forall j :: 0 <= j < i ==> lfoPhase[j] == Wrap(old(lfoPhase[j]), Inc(lfoFreq[j]), TWO_PI_F)
      invariant forall j :: i <= j < lfoPhase.Length ==> lfoPhase[j] == old(lfoPhase[j])
      invariant sum == Mix(phase[..], lfoPhase[..], amp, sin, i)
    {
      ghost var ps, ls := phase[..], lfoPhase[..];
      Advance(phase, i, oscFreq[i]);
      Advance(lfoPhase, i, lfoFreq[i]);
      MixFrame(ps, ls, phase[..], lfoPhase[..], amp, sin, i);
      var lfo := sin(lfoPhase[i]);
      var osc := sin(phase[i]);
      sum := sum + osc * lfo * amp;
    }
  }

  /** One accumulator's step in place: add 2*pi*f / 48000, and take 2*pi off
      once the sum reaches it. */
  method Advance(phase: array<real>, i: int, f: real)
    requires 0 <= i < phase.Length
    modifies phase
    ensures phase[i] == Wrap(old(phase[i]), Inc(f), TWO_PI_F)
    ensures forall j :: 0 <= j < phase.Length && j != i ==> phase[j] == old(phase[j])
  {
    phase[i] := phase[i] + TWO_PI_F * f / SAMPLE_RATE;
    if phase[i] >= TWO_PI_F {
      phase[i] := phase[i] - TWO_PI_F;
    }
  }

  /** The sum over the first n oscillators depends on their entries only. */
  lemma {:induction false} MixFrame(ps: seq<real>, ls: seq<real>, qs: seq<real>, ms: seq<real>,
                                    amp: real, sin: real -> real, n: int)
    requires 0 <= n <= |ps| && n <= |ls| && n <= |qs| && n <= |ms|
    requires forall j :: 0 <= j < n ==> ps[j] == qs[j] && ls[j] == ms[j]
    ensures Mix(ps, ls, amp, sin, n) == Mix(qs, ms, amp, sin, n)
    decreases n
  {
    if n > 0 {
      MixFrame(ps, ls, qs, ms, amp, sin, n - 1);
    }
  }

  /** Advancing a bank in range by audible frequencies keeps it in range. */
  lemma StepInRange(before: seq<real>, after: seq<real>, fs: seq<real>)
    requires |after| == |before| == |fs| && InRange(before) && Audible(fs)
    requires forall i :: 0 <= i < |after| ==> after[i] == Wrap(before[i], Inc(fs[i]), TWO_PI_F)
    ensures InRange(after)
  {
    forall i | 0 <= i < |after|
      ensures 0.0 <= after[i] < TWO_PI_F
    {
      assert 0.0 <= Inc(fs[i]) < TWO_PI_F;
    }
  }
}
