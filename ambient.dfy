/** The ambient drone of C++/6.cpp: a global linear congruential generator,
    the LFNoise1 ramp between random targets, a saw oscillator, a one-tap
    feedback reverb, and `ambient_drone`, which runs six detuned saws through
    six reverbs and writes every mixed sample to both output streams. */
module Ambient {
  import opened Numeric

  const SAMPLE_RATE: real := 44100.0
  const NUM_OSC: int := 6

  // ------------------------------------------------------------------ random

  const LCG_SEED: int := 123456789
  const LCG_MUL: int := 1103515245
  const LCG_ADD: int := 12345
  /** The inverse of LCG_MUL modulo 2^32 (LCG_MUL is odd, so it has one). */
  const LCG_MUL_INV: int := 4005161829

  /** `rand_state * 1103515245 + 12345` on a 32-bit unsigned. */
  function LcgNext(s: int): (r: int)
    ensures 0 <= r < TWO32
  {
    Wrap32(s * LCG_MUL + LCG_ADD)
  }

  /** The step run backwards: subtract the increment, multiply by the inverse. */
  function LcgPrev(r: int): (s: int)
    ensures 0 <= s < TWO32
  {
    Wrap32((r - LCG_ADD) * LCG_MUL_INV)
  }

  /** The multiplier times its inverse is one more than a multiple of 2^32. */
  lemma InverseIsInverse()
    ensures LCG_MUL * LCG_MUL_INV == 1 + 1029054899 * TWO32
  {
  }

  /** Adding a multiple of 2^32 does not change a residue. */
  lemma ModShift(x: int, k: int)
    ensures (x + k * TWO32) % TWO32 == x % TWO32
  {
  }

  /** The generator is a bijection on 32-bit states: stepping back undoes a step,
      so no two states share a successor. */
  lemma LcgRoundTrip(s: int)
    requires 0 <= s < TWO32
    ensures LcgPrev(LcgNext(s)) == s
  {
    var t := s * LCG_MUL + LCG_ADD;
    var q := t / TWO32;
    assert LcgNext(s) == t - q * TWO32;
    var d := (t - q * TWO32 - LCG_ADD) * LCG_MUL_INV;
    assert d == s * (LCG_MUL * LCG_MUL_INV) - q * LCG_MUL_INV * TWO32;
    InverseIsInverse();
    assert d == s + (s * 1029054899 - q * LCG_MUL_INV) * TWO32;
    ModShift(s, s * 1029054899 - q * LCG_MUL_INV);
  }

  /** The value `random` returns for the new state: bits 16 to 30 read as a
      fraction of 32768, doubled and moved down by 1, so within [-1, 1). */
  function LcgValue(s: int): (r: real)
    requires 0 <= s < TWO32
    ensures -1.0 <= r < 1.0
  {
    ((s / 65536) % 32768) as real / 32768.0 * 2.0 - 1.0
  }

  /** Bit 31 of the state never reaches the value. */
  lemma LcgValueIgnoresTopBit(s: int)
    requires 0 <= s < TWO31
    ensures LcgValue(s + TWO31) == LcgValue(s)
  {
    assert (s + TWO31) / 65536 == s / 65536 + 32768;
  }

  /** The global `rand_state`. */
  class Rng {
    var state: int

    /** An unsigned 32-bit value. */
    predicate Valid()
      reads this
    {
      0 <= state < TWO32
    }

    constructor ()
      ensures Valid() && state == LCG_SEED
    {
      state := LCG_SEED;
    }

    /** `random` (C++/6.cpp:13-16): one generator step, then the value of the
        new state. */
    method Random() returns (r: real)
      requires Valid()
      modifies this
      ensures Valid() && state == LcgNext(old(state))
      ensures r == LcgValue(state)
    {
      state := (state * 1103515245 + 12345) % TWO32;
      r := ((state / 65536) % 32768) as real / 32768.0 * 2.0 - 1.0;
    }
  }

  // ----------------------------------------------------------------- LFNoise1

  /** `LFNoise1`: a linear ramp from `curr` to `target` over one period of the
      rate; at the end of each period a new target is drawn. */
  class LfNoise1 {
    var curr: real
    var target: real
    var phase: real
    var rate: real
    var inc: real

    /** The ramp's slope is the distance to the target, both ends are values of
        the generator (or the initial 0) and the phase is within one period. */
    predicate Valid()
      reads this
    {
      inc == target - curr && -1.0 <= curr <= 1.0 && -1.0 <= target <= 1.0 && 0.0 <= phase < 1.0
    }

    /** The constructor (C++/6.cpp:27): the given rate, everything else 0. */
    constructor (r: real)
      ensures rate == r && curr == 0.0 && target == 0.0 && phase == 0.0 && inc == 0.0
      ensures Valid()
    {
      rate, phase, curr, target, inc := r, 0.0, 0.0, 0.0, 0.0;
    }

    /** `process` (C++/6.cpp:29-38): the phase advances by rate / 44100; when it
        reaches 1 it drops by 1, the old target becomes the start and a new
        target is drawn. The value is the point the phase has reached on the
        ramp; for a rate in [0, 44100) it lies between the ramp's two ends. */
    method Process(rng: Rng) returns (out: real)
      requires rng.Valid()
      modifies this, rng
      ensures rng.Valid() && rate == old(rate)
      ensures old(phase) + rate / SAMPLE_RATE >= 1.0 ==>
                phase == old(phase) + rate / SAMPLE_RATE - 1.0 && curr == old(target)
                && rng.state == LcgNext(old(rng.state)) && target == LcgValue(rng.state)
                && inc == target - curr
      ensures old(phase) + rate / SAMPLE_RATE < 1.0 ==>
                phase == old(phase) + rate / SAMPLE_RATE && curr == old(curr) && target == old(target)
                && inc == old(inc) && rng.state == old(rng.state)
      ensures out == RampAt(curr, inc, phase)
      ensures old(Valid()) && 0.0 <= rate / SAMPLE_RATE < 1.0 ==>
                Valid() && out == Crossfade(curr, target, phase) && -1.0 <= out <= 1.0
    {
      ghost var valid := Valid();
      phase := phase + rate / SAMPLE_RATE;
      if phase >= 1.0 {
        phase := phase - 1.0;
        Retarget(rng);
      }
      out := curr + inc * phase;
      assert out == RampAt(curr, inc, phase);
      if valid && 0.0 <= rate / SAMPLE_RATE < 1.0 {
        RampBetween(curr, target, inc, phase);
      }
    }

    /** The end of a ramp period (C++/6.cpp:33-35): the old target becomes the
        start, a new target is drawn and the slope is reset to the distance. */
    method Retarget(rng: Rng)
      requires rng.Valid()
      modifies this, rng
      ensures rng.Valid() && rng.state == LcgNext(old(rng.state)) && target == LcgValue(rng.state)
      ensures curr == old(target) && inc == target - curr
      ensures phase == old(phase) && rate == old(rate)
    {
      curr := target;
      target := rng.Random();
      inc := target - curr;
    }
  }

  /** The point a phase has reached on a ramp from curr with slope inc. */
  function RampAt(curr: real, inc: real, phase: real): real {
    curr + inc * phase
  }

  /** A point on a ramp between two values of [-1, 1] is the crossfade at its
      phase, and so within [-1, 1] too. */
  lemma RampBetween(curr: real, target: real, inc: real, phase: real)
    requires inc == target - curr && -1.0 <= curr <= 1.0 && -1.0 <= target <= 1.0 && 0.0 <= phase < 1.0
    ensures RampAt(curr, inc, phase) == Crossfade(curr, target, phase)
    ensures -1.0 <= RampAt(curr, inc, phase) <= 1.0
  {
    CrossfadeBetween(curr, target, phase);
  }

  // ---------------------------------------------------------------------- Saw

  /** The saw's phase step: the wrap subtracts 1 only once the phase is strictly
      above 1, so the phase can rest at exactly 1. */
  function SawStep(p: real, inc: real): (r: real)
    ensures p + inc > 1.0 ==> r == p + inc - 1.0
    ensures p + inc <= 1.0 ==> r == p + inc
    ensures 0.0 <= p <= 1.0 && 0.0 <= inc <= 1.0 ==> 0.0 <= r <= 1.0
  {
    if p + inc > 1.0 then p + inc - 1.0 else p + inc
  }

  /** From one half, a step of one half lands on 1 and does not wrap. */
  lemma SawRestsAtOne()
    ensures SawStep(0.5, 0.5) == 1.0
  {
  }

  /** `Saw`. */
  class Saw {
    var phase: real
    var freq: real

    predicate Valid()
      reads this
    {
      0.0 <= phase <= 1.0
    }

    /** The constructor (C++/6.cpp:47): phase 0, 440 Hz. */
    constructor ()
      ensures phase == 0.0 && freq == 440.0 && Valid()
    {
      phase, freq := 0.0, 440.0;
    }

    /** `process` (C++/6.cpp:49-54): the value comes from the phase before the
        step, `2*phase - 1`; the phase then takes its step. With a frequency in
        [0, 44100] the phase stays in [0, 1] and the value in [-1, 1]. */
    method Process() returns (out: real)
      modifies this
      ensures out == 2.0 * old(phase) - 1.0 && freq == old(freq)
      ensures phase == SawStep(old(phase), freq / SAMPLE_RATE)
      ensures old(Valid()) && 0.0 <= freq / SAMPLE_RATE <= 1.0 ==> Valid() && -1.0 <= out <= 1.0
    {
      out := phase * 2.0 - 1.0;
      phase := phase + freq / SAMPLE_RATE;
      if phase > 1.0 {
        phase := phase - 1.0;
      }
    }
  }

  // ------------------------------------------------------------- SimpleReverb

  const BUFFER_LEN: int := 10000

  /** The loop length `(int)(50 * room * 100)`: 2500 samples at room 0.5. */
  function RoomSize(room: real): (n: int)
    ensures room == 0.5 ==> n == 2500
  {
    Trunc(50.0 * room * 100.0)
  }

  /** The reverb's output: the delayed sample damped plus 0.8 of the input. */
  function ReverbOut(delayed: real, x: real, damp: real): real {
    delayed * (1.0 - damp) + x * 0.8
  }

  /** With damping 0.6 and room 0.5, delayed samples in [-2, 2] and inputs in
      [-1, 1] keep every written sample in [-2, 2] and the output in [-1.6, 1.6]. */
  lemma ReverbBounded(delayed: real, x: real)
    requires -2.0 <= delayed <= 2.0 && -1.0 <= x <= 1.0
    ensures -2.0 <= x + delayed * 0.5 <= 2.0
    ensures -1.6 <= ReverbOut(delayed, x, 0.6) <= 1.6
  {
  }

  /** `SimpleReverb`: a 10000-sample buffer of which the first RoomSize slots
      form a loop. */
  class SimpleReverb {
    const buffer: array<real>
    var idx: int
    const damp: real
    const room: real

    predicate Valid()
      reads this
    {
      buffer.Length == BUFFER_LEN && damp == 0.6 && room == 0.5 && 0 <= idx < RoomSize(room)
    }

    /** Every stored sample lies in [-2, 2]. */
    predicate Calm()
      reads this, buffer
    {
      forall k :: 0 <= k < buffer.Length ==> -2.0 <= buffer[k] <= 2.0
    }

    /** The constructor (C++/6.cpp:65-67): index 0, damping 0.6, room 0.5, and a
        zeroed buffer. */
    constructor ()
      ensures Valid() && Calm() && fresh(buffer) && idx == 0
      ensures forall k :: 0 <= k < BUFFER_LEN ==> buffer[k] == 0.0
    {
      idx, damp, room := 0, 0.6, 0.5;
      buffer := new real[BUFFER_LEN];
      new;
      for i := 0 to BUFFER_LEN
        invariant idx == 0
        invariant forall k :: 0 <= k < i ==> buffer[k] == 0.0
      {
        buffer[i] := 0.0;
      }
    }

    /** `process` (C++/6.cpp:69-74): read the slot at the index, write the input
        plus room times that sample back into it, advance the index around the
        loop, and return the damped sample plus 0.8 of the input. Only that slot
        changes; inputs in [-1, 1] keep the buffer in [-2, 2]. */
    method Process(x: real) returns (y: real)
      requires Valid()
      modifies this, buffer
      ensures Valid()
      ensures buffer[old(idx)] == x + old(buffer[idx]) * room
      ensures forall k :: 0 <= k < buffer.Length && k != old(idx) ==> buffer[k] == old(buffer[k])
      ensures idx == (old(idx) + 1) % RoomSize(room)
      ensures y == ReverbOut(old(buffer[idx]), x, damp)
      ensures old(Calm()) && -1.0 <= x <= 1.0 ==> Calm() && -1.6 <= y <= 1.6
    {
      ghost var calm := Calm();
      var out := buffer[idx];
      buffer[idx] := x + out * room;
      idx := (idx + 1) % Trunc(50.0 * room * 100.0);
      y := out * (1.0 - damp) + x * 0.8;
      if calm && -1.0 <= x <= 1.0 {
        ReverbBounded(out, x);
      }
    }
  }

  // ------------------------------------------------------------ ambient_drone

  /** The base frequency for a noise value:
      `noise*(2000 - 30)/2 + (30 + 2000)/2`, the second quotient in integers. */
  function BaseFreq(noise: real): (f: real)
    ensures -1.0 <= noise <= 1.0 ==> 30.0 <= f <= 2000.0
  {
    noise * (2000 - 30) as real / 2.0 + ((30 + 2000) / 2) as real
  }

  /** The statics of `ambient_drone` and the two output streams. */
  class Drone {
    const rng: Rng
    const freqNoise: LfNoise1
    const detune: seq<LfNoise1>
    const saws: seq<Saw>
    const reverbs: seq<SimpleReverb>
    var outL: seq<real>
    var outR: seq<real>

    /** The reverbs' buffers. */
    function Buffers(): set<array<real>>
      requires |reverbs| == NUM_OSC
    {
      set i | 0 <= i < NUM_OSC :: reverbs[i].buffer
    }

    /** Six of each part, all distinct (the frequency noise is none of the
        detune noises). */
    predicate Shape() {
      |detune| == NUM_OSC && |saws| == NUM_OSC && |reverbs| == NUM_OSC
      && freqNoise !in detune
      && (forall i, j :: 0 <= i < j < NUM_OSC ==> detune[i] != detune[j])
      && (forall i, j :: 0 <= i < j < NUM_OSC ==> saws[i] != saws[j])
      && (forall i, j :: 0 <= i < j < NUM_OSC ==> reverbs[i] != reverbs[j])
      && (forall i, j :: 0 <= i < j < NUM_OSC ==> reverbs[i].buffer != reverbs[j].buffer)
    }

    /** Voice i's parts within their ranges, its detune noise at no rate yet or
        at 0.1 Hz. */
    predicate VoiceOk(i: int)
      requires Shape() && 0 <= i < NUM_OSC
      reads detune[i], saws[i], reverbs[i], reverbs[i].buffer
    {
      detune[i].Valid() && (detune[i].rate == 0.0 || detune[i].rate == 0.1)
      && saws[i].Valid() && reverbs[i].Valid() && reverbs[i].Calm()
    }

    /** The parts in shape and range, the frequency noise at its rate of
        6.28 Hz, and the two streams identical. */
    predicate Valid()
      reads this, rng, freqNoise, detune, saws, reverbs
      reads if |reverbs| == NUM_OSC then Buffers() else {}
    {
      Shape() && rng.Valid() && freqNoise.Valid() && freqNoise.rate == 3.14 * 2.0
      && (forall i :: 0 <= i < NUM_OSC ==> VoiceOk(i))
      && outL == outR
    }

    /** The sample voice i's reverb reads next. */
    function Delayed(i: int): real
      requires Valid() && 0 <= i < NUM_OSC
      reads this, rng, freqNoise, detune, saws, reverbs
      reads if |reverbs| == NUM_OSC then Buffers() else {}
    {
      assert VoiceOk(i);
      reverbs[i].buffer[reverbs[i].idx]
    }

    /** The samples the six reverbs read next. */
    function Delays(): (d: seq<real>)
      requires Valid()
      reads this, rng, freqNoise, detune, saws, reverbs
      reads if |reverbs| == NUM_OSC then Buffers() else {}
      ensures |d| == NUM_OSC && forall i :: 0 <= i < NUM_OSC ==> d[i] == Delayed(i)
    {
      [Delayed(0), Delayed(1), Delayed(2), Delayed(3), Delayed(4), Delayed(5)]
    }

    /** The six saws' phases. */
    function SawPhases(): (p: seq<real>)
      requires Shape()
      reads this, saws
      ensures |p| == NUM_OSC && forall i :: 0 <= i < NUM_OSC ==> p[i] == saws[i].phase
    {
      [saws[0].phase, saws[1].phase, saws[2].phase, saws[3].phase, saws[4].phase, saws[5].phase]
    }

    /** Program start: the statics constructed, the frequency noise at 6.28 Hz,
        the detune noises with no rate (the source declares no default
        constructor for them; their `rate == 0` test shows the intent), and both
        streams empty. */
    constructor ()
      ensures Valid() && outL == [] && outR == []
      ensures rng.state == LCG_SEED
      ensures forall i :: 0 <= i < NUM_OSC ==> detune[i].rate == 0.0
    {
      rng := new Rng();
      freqNoise := new LfNoise1(3.14 * 2.0);
      var ds := MakeNoises();
      var ss := MakeSaws();
      var rs := MakeReverbs();
      detune, saws, reverbs := ds, ss, rs;
      outL, outR := [], [];
    }

    /** `ambient_drone` (C++/6.cpp:78-107): `numSamples` times, one sample is
        mixed and written to both streams. Both streams grow by exactly the
        same values, none outside [-0.576, 0.576]. */
    method Run(numSamples: int)
      requires Valid()
      modifies this, rng, freqNoise, detune, saws, reverbs, Buffers()
      ensures Valid()
      ensures |outL| == |old(outL)| + (if numSamples > 0 then numSamples else 0)
      ensures outL[..|old(outL)|] == old(outL)
      ensures forall k :: |old(outL)| <= k < |outL| ==> -0.576 <= outL[k] <= 0.576
    {
      var s := 0;
      ghost var out0 := outL;
      while s < numSamples
        invariant Valid()
        invariant 0 <= s && (s == 0 || s <= numSamples)
        invariant |outL| == |out0| + s && outL[..|out0|] == out0
        invariant forall k :: |out0| <= k < |outL| ==> -0.576 <= outL[k] <= 0.576
      {
        var sound := Sample();
        Append(sound);
        s := s + 1;
      }
    }

    /** The writes ending the sample loop's body (C++/6.cpp:101-102): the sample
        joins both streams. */
    method Append(sound: real)
      requires Valid()
      modifies this
      ensures Valid() && outL == old(outL) + [sound] && outR == old(outR) + [sound]
    {
      outL := outL + [sound];
      outR := outR + [sound];
    }

    /** One pass of the sample loop's body (C++/6.cpp:91-102): the base
        frequency from the frequency noise, the six voices summed, scaled by 0.6.
        The sample is `Wet` of the samples the reverbs read and the saws' phases
        before the pass. */
    method Sample() returns (sound: real)
      requires Valid()
      modifies rng, freqNoise, detune, saws, reverbs, Buffers()
      ensures Valid()
      ensures sound == 0.6 * Wet(old(Delays()), old(SawPhases()), NUM_OSC)
      ensures -0.576 <= sound <= 0.576
    {
      ghost var d0, p0 := Delays(), SawPhases();
      sound := 0.0;
      var noise := freqNoise.Process(rng);
      var freqBase := noise * (2000 - 30) as real / 2.0 + ((30 + 2000) / 2) as real;
      assert freqBase == BaseFreq(noise);
      for i := 0 to NUM_OSC
        invariant Valid()
        invariant sound == Wet(d0, p0, i)
        invariant forall j :: i <= j < NUM_OSC ==> Delayed(j) == d0[j] && saws[j].phase == p0[j]
        invariant -0.16 * i as real <= sound <= 0.16 * i as real
      {
        var rev := Voice(i, freqBase);
        sound := sound + rev;
      }
      sound := sound * 0.6;
    }

    /** One oscillator of the inner loop (C++/6.cpp:95-100), played on voice i's
        parts; the other voices keep their state. */
    method Voice(i: int, freqBase: real) returns (rev: real)
      requires Valid() && 0 <= i < NUM_OSC && 30.0 <= freqBase <= 2000.0
      modifies rng, detune[i], saws[i], reverbs[i], reverbs[i].buffer
      ensures Valid()
      ensures saws[i].freq == freqBase + 5.0 * RampAt(detune[i].curr, detune[i].inc, detune[i].phase)
      ensures rev == 0.1 * ReverbOut(old(Delayed(i)), 2.0 * old(saws[i].phase) - 1.0, 0.6)
      ensures -0.16 <= rev <= 0.16
      ensures forall j :: 0 <= j < NUM_OSC && j != i ==> Delayed(j) == old(Delayed(j)) && saws[j].phase == old(saws[j].phase)
    {
      assert VoiceOk(i);
      ghost var d0, p0 := Delays(), SawPhases();
      rev := Play(detune[i], saws[i], reverbs[i], rng, freqBase);
      forall j | 0 <= j < NUM_OSC && j != i
        ensures VoiceOk(j) && saws[j].phase == p0[j] && reverbs[j].idx == old(reverbs[j].idx)
        ensures reverbs[j].buffer[reverbs[j].idx] == d0[j]
      {
        assert old(VoiceOk(j));
        assert detune[j] != detune[i] && saws[j] != saws[i];
        assert reverbs[j] != reverbs[i] && reverbs[j].buffer != reverbs[i].buffer;
      }
      assert Valid();
      forall j | 0 <= j < NUM_OSC && j != i
        ensures Delayed(j) == d0[j]
      {
      }
    }
  }

  /** The first k voices' reverb outputs, each scaled by 0.1, for the samples
      the reverbs read and the saws' phases before the step: a saw's value is
      `2*phase - 1` of its phase before the step, so no voice's share depends on
      the noise drawn in the same sample. */
  function Wet(delayed: seq<real>, phases: seq<real>, k: int): real
    requires 0 <= k <= |delayed| && k <= |phases|
  {
    if k == 0 then 0.0
    else Wet(delayed, phases, k - 1) + 0.1 * ReverbOut(delayed[k - 1], 2.0 * phases[k - 1] - 1.0, 0.6)
  }

  /** With saw phases in [0, 1] and delayed samples in [-2, 2], k voices' shares
      sum to at most 0.16 * k in magnitude. */
  lemma {:induction false} WetBound(delayed: seq<real>, phases: seq<real>, k: int)
    requires 0 <= k <= |delayed| && k <= |phases|
    requires forall j :: 0 <= j < k ==> -2.0 <= delayed[j] <= 2.0 && 0.0 <= phases[j] <= 1.0
    ensures -0.16 * k as real <= Wet(delayed, phases, k) <= 0.16 * k as real
    decreases k
  {
    if k > 0 {
      WetBound(delayed, phases, k - 1);
      ReverbBounded(delayed[k - 1], 2.0 * phases[k - 1] - 1.0);
    }
  }

  /** The body of the inner loop (C++/6.cpp:95-100): a detune noise still
      without rate gets 0.1 Hz, the saw is tuned to the base frequency plus five
      times the detune noise, and its value passes through the reverb, scaled by
      0.1. Every part stays within its range. */
  method Play(noise: LfNoise1, saw: Saw, reverb: SimpleReverb, rng: Rng, freqBase: real) returns (rev: real)
    requires noise.Valid() && (noise.rate == 0.0 || noise.rate == 0.1)
    requires saw.Valid() && reverb.Valid() && reverb.Calm() && rng.Valid()
    requires 30.0 <= freqBase <= 2000.0
    modifies noise, saw, reverb, reverb.buffer, rng
    ensures noise.Valid() && noise.rate == 0.1
    ensures saw.Valid() && reverb.Valid() && reverb.Calm() && rng.Valid()
    ensures saw.freq == freqBase + 5.0 * RampAt(noise.curr, noise.inc, noise.phase)
    ensures saw.phase == SawStep(old(saw.phase), saw.freq / SAMPLE_RATE)
    ensures rev == 0.1 * ReverbOut(old(reverb.buffer[reverb.idx]), 2.0 * old(saw.phase) - 1.0, reverb.damp)
    ensures reverb.buffer[old(reverb.idx)] == 2.0 * old(saw.phase) - 1.0 + old(reverb.buffer[reverb.idx]) * reverb.room
    ensures reverb.idx == (old(reverb.idx) + 1) % RoomSize(reverb.room)
    ensures -0.16 <= rev <= 0.16
  {
    if noise.rate == 0.0 {
      noise.rate := 0.1;
    }
    var d := noise.Process(rng);
    assert -1.0 <= d <= 1.0;
    var detuneAmount := d * 5.0;
    saw.freq := freqBase + detuneAmount;
    assert 0.0 <= saw.freq / SAMPLE_RATE <= 1.0;
    var osc := saw.Process();
    assert -1.0 <= osc <= 1.0;
    var r := reverb.Process(osc);
    rev := r * 0.1;
  }

  /** Six fresh detune noises without rate. */
  method MakeNoises() returns (ds: seq<LfNoise1>)
    ensures |ds| == NUM_OSC
    ensures forall i :: 0 <= i < NUM_OSC ==> fresh(ds[i]) && ds[i].Valid() && ds[i].rate == 0.0
    ensures forall i, j :: 0 <= i < j < NUM_OSC ==> ds[i] != ds[j]
  {
    ds := [];
    while |ds| < NUM_OSC
      invariant |ds| <= NUM_OSC
      invariant forall i :: 0 <= i < |ds| ==> fresh(ds[i]) && ds[i].Valid() && ds[i].rate == 0.0
      invariant forall i, j :: 0 <= i < j < |ds| ==> ds[i] != ds[j]
    {
      var n := new LfNoise1(0.0);
      ds := ds + [n];
    }
  }

  /** Six fresh saws. */
  method MakeSaws() returns (ss: seq<Saw>)
    ensures |ss| == NUM_OSC
    ensures forall i :: 0 <= i < NUM_OSC ==> fresh(ss[i]) && ss[i].Valid()
    ensures forall i, j :: 0 <= i < j < NUM_OSC ==> ss[i] != ss[j]
  {
    ss := [];
    while |ss| < NUM_OSC
      invariant |ss| <= NUM_OSC
      invariant forall i :: 0 <= i < |ss| ==> fresh(ss[i]) && ss[i].Valid()
      invariant forall i, j :: 0 <= i < j < |ss| ==> ss[i] != ss[j]
    {
      var w := new Saw();
      ss := ss + [w];
    }
  }

  /** Six fresh reverbs with fresh zeroed buffers. */
  method MakeReverbs() returns (rs: seq<SimpleReverb>)
    ensures |rs| == NUM_OSC
    ensures forall i :: 0 <= i < NUM_OSC ==> fresh(rs[i]) && fresh(rs[i].buffer) && rs[i].Valid() && rs[i].Calm()
    ensures forall i, j :: 0 <= i < j < NUM_OSC ==> rs[i] != rs[j] && rs[i].buffer != rs[j].buffer
  {
    rs := [];
    while |rs| < NUM_OSC
      invariant |rs| <= NUM_OSC
      invariant forall i :: 0 <= i < |rs| ==> fresh(rs[i]) && fresh(rs[i].buffer) && rs[i].Valid() && rs[i].Calm()
      invariant forall i, j :: 0 <= i < j < |rs| ==> rs[i] != rs[j] && rs[i].buffer != rs[j].buffer
    {
      var r := new SimpleReverb();
      rs := rs + [r];
    }
  }
}
