/** The sweep generator `audio_synth` of C++/1.cpp: 32 sine oscillators, each
    gliding linearly from its start to its end frequency over 60 seconds, whose
    phases restart at 0 on every call and accumulate without wrapping; one mixed
    sample is written per output slot. */
module SineSweep {
  import opened Numeric

  const NUM_OSC: int := 32
  const AMP: real := 0.06
  /** The sweep's length in seconds. */
  const DURATION: real := 60.0

  /** The frequency at time t: the linear interpolation from start (t = 0) to
      end (t = 60 s). */
  function Freq(start: real, end: real, t: real): (f: real)
    ensures t == 0.0 ==> f == start
    ensures t == DURATION ==> f == end
  {
    start + (end - start) * (t / DURATION)
  }

  /** Inside the 60 seconds the frequency lies between start and end. */
  lemma FreqBetween(start: real, end: real, t: real)
    requires 0.0 <= t <= DURATION
    ensures start <= end ==> start <= Freq(start, end, t) <= end
    ensures end <= start ==> end <= Freq(start, end, t) <= start
  {
    var u := t / DURATION;
    assert 0.0 <= u <= 1.0;
    if start <= end {
      MulNonneg(end - start, u);
      MulNonneg(end - start, 1.0 - u);
    } else {
      MulNonneg(start - end, u);
      MulNonneg(start - end, 1.0 - u);
    }
  }

  /** The time of sample i, i / sample_rate. */
  function Time(i: int, sr: real): real
    requires sr != 0.0
  {
    i as real / sr
  }

  /** An oscillator's phase after k samples of the call: it starts at 0 and each
      sample adds 2*pi*f/sr for that sample's frequency, with no wrap. */
  function PhaseAfter(start: real, end: real, sr: real, k: nat): real
    requires sr != 0.0
  {
    if k == 0 then 0.0
    else PhaseAfter(start, end, sr, k - 1) + 2.0 * PI * Freq(start, end, Time(k - 1, sr)) / sr
  }

  /** Output slot i: the sum over the first n oscillators of 0.06 * sin of their
      phase after sample i has been accumulated. */
  function SampleAt(starts: seq<real>, ends: seq<real>, sr: real, i: nat, sin: real -> real, n: int): real
    requires sr != 0.0 && 0 <= n <= |starts| && n <= |ends|
  {
    if n == 0 then 0.0
    else SampleAt(starts, ends, sr, i, sin, n - 1) + sin(PhaseAfter(starts[n - 1], ends[n - 1], sr, i + 1)) * AMP
  }

  /** Within the 60 seconds and for non-negative frequencies, a phase never goes
      down: nothing is ever subtracted from it. */
  lemma PhaseGrows(start: real, end: real, sr: real, k: nat)
    requires sr > 0.0 && start >= 0.0 && end >= 0.0 && 0.0 <= Time(k, sr) <= DURATION
    ensures PhaseAfter(start, end, sr, k + 1) >= PhaseAfter(start, end, sr, k)
  {
    var f := Freq(start, end, Time(k, sr));
    FreqBetween(start, end, Time(k, sr));
    MulNonneg(2.0 * PI, f);
    assert 2.0 * PI * f / sr >= 0.0;
  }

  /** One sample's oscillator loop (C++/1.cpp:40-47): each phase advances by its
      frequency at time i / sr, and the mix adds 0.06 * sin of the new phase. */
  method Tick(phases: array<real>, starts: seq<real>, ends: seq<real>, sampleRate: real, i: nat, sin: real -> real)
    returns (mix: real)
    requires phases.Length == NUM_OSC && |starts| >= NUM_OSC && |ends| >= NUM_OSC && sampleRate != 0.0
    requires forall o :: 0 <= o < NUM_OSC ==> phases[o] == PhaseAfter(starts[o], ends[o], sampleRate, i)
    modifies phases
    ensures forall o :: 0 <= o < NUM_OSC ==> phases[o] == PhaseAfter(starts[o], ends[o], sampleRate, i + 1)
    ensures mix == SampleAt(starts, ends, sampleRate, i, sin, NUM_OSC)
  {
    var t := i as real / sampleRate;
    mix := 0.0;
    for osc := 0 to NUM_OSC
      invariant forall o :: 0 <= o < osc ==> phases[o] == PhaseAfter(starts[o], ends[o], sampleRate, i + 1)
      invariant forall o :: osc <= o < NUM_OSC ==> phases[o] == PhaseAfter(starts[o], ends[o], sampleRate, i)
      invariant mix == SampleAt(starts, ends, sampleRate, i, sin, osc)
    {
      Glide(phases, osc, starts[osc], ends[osc], sampleRate, t, i);
      mix := mix + sin(phases[osc]) * AMP;
    }
  }

  /** One oscillator's step at time t = i / sr: its frequency at t, then that
      frequency's phase increment added in place. */
  method Glide(phases: array<real>, osc: int, start: real, end: real, sampleRate: real, t: real, i: nat)
    requires 0 <= osc < phases.Length && sampleRate != 0.0 && t == Time(i, sampleRate)
    requires phases[osc] == PhaseAfter(start, end, sampleRate, i)
    modifies phases
    ensures phases[osc] == PhaseAfter(start, end, sampleRate, i + 1)
    ensures forall o :: 0 <= o < phases.Length && o != osc ==> phases[o] == old(phases[o])
  {
    var freq := start + (end - start) * (t / 60.0);
    assert freq == Freq(start, end, Time(i, sampleRate));
    phases[osc] := phases[osc] + 2.0 * PI * freq / sampleRate;
  }

  /** `audio_synth` (C++/1.cpp:16-51): every call starts its 32 phases from 0
      and writes exactly the slots 0 .. num_samples - 1, slot i receiving the
      mix after sample i; nothing past them changes. */
  method AudioSynth(starts: seq<real>, ends: seq<real>, output: array<real>, numSamples: int,
                    sampleRate: real, sin: real -> real)
    requires |starts| >= NUM_OSC && |ends| >= NUM_OSC && output.Length >= numSamples && sampleRate != 0.0
    modifies output
    ensures forall i :: 0 <= i < numSamples ==> output[i] == SampleAt(starts, ends, sampleRate, i, sin, NUM_OSC)
    ensures forall i :: 0 <= i < output.Length && i >= numSamples ==> output[i] == old(output[i])
  {
    var phases := new real[NUM_OSC];
    for osc := 0 to NUM_OSC
      invariant forall o :: 0 <= o < osc ==> phases[o] == 0.0
      invariant output[..] == old(output[..])
    {
      phases[osc] := 0.0;
    }
    var i := 0;
    while i < numSamples
      invariant 0 <= i && (i == 0 || i <= numSamples)
      invariant forall o :: 0 <= o < NUM_OSC ==> phases[o] == PhaseAfter(starts[o], ends[o], sampleRate, i)
      invariant forall j :: 0 <= j < i ==> output[j] == SampleAt(starts, ends, sampleRate, j, sin, NUM_OSC)
      invariant forall j :: i <= j < output.Length ==> output[j] == old(output[j])
    {
      var mix := Tick(phases, starts, ends, sampleRate, i, sin);
      output[i] := mix;
      i := i + 1;
    }
  }
}
