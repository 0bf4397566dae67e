/** The percussion bank `synth` of
    C++/2576ab55f58d9d1a433590730a84a4b0/DSProutineCPP09092025.cpp: sixteen sine
    instruments at 32 to 47 Hz with a percussive envelope retriggered every
    4410 calls, all feeding one slot of a shared feedback delay line, one
    sample per call. Values are reals: the frequencies and steps are the ones
    the code's comments intend, not their `ap_fixed<16,4>` quantisations. */
module Perc {
  import opened Numeric

  const NUM_INST: int := 16
  const SR: int := 44100
  const REVERB_SIZE: int := 22050
  /** `SR / 10`: a trigger ten times a second. */
  const TRIGGER_RATE: int := SR / 10
  /** The envelope's attack and release steps. */
  const ATTACK: real := 100.0 / SR as real
  const RELEASE: real := 1.0 / SR as real
  /** The envelope never exceeds one attack step above 1. */
  const ENV_MAX: real := 1.0 + ATTACK
  /** The delay line's bound: the fixed point of `b = ENV_MAX + 0.7*b`. */
  const BOUND: real := ENV_MAX / 0.3

  /** Instrument i's phase increment, `2*pi*(32 + i)/SR`. */
  function Inc(i: int): (r: real)
    requires 0 <= i < NUM_INST
    ensures 0.0 < r < TWO_PI
  {
    2.0 * PI * (32 + i) as real / SR as real
  }

  /** The phase step: the increment is added and 2*pi is taken off only when the
      sum is strictly above it, so a phase in [0, 2*pi] stays there. */
  function Advance(p: real, inc: real): (r: real)
    ensures p + inc > TWO_PI ==> r == p + inc - TWO_PI
    ensures p + inc <= TWO_PI ==> r == p + inc
    ensures 0.0 <= p <= TWO_PI && 0.0 <= inc <= TWO_PI ==> 0.0 <= r <= TWO_PI
  {
    if p + inc > TWO_PI then p + inc - TWO_PI else p + inc
  }

  /** The envelope step (C++ lines 33-48): a trigger first resets it to 0; then
      below 1 it rises by the attack step, otherwise it falls by the release
      step and is clamped at 0. */
  function EnvStep(e: real, trigger: bool): (r: real)
    ensures trigger ==> r == ATTACK
    ensures !trigger && e < 1.0 ==> r == e + ATTACK
    ensures !trigger && e >= 1.0 ==> r == (if e - RELEASE < 0.0 then 0.0 else e - RELEASE)
  {
    var e0 := if trigger then 0.0 else e;
    if e0 < 1.0 then e0 + ATTACK
    else if e0 - RELEASE < 0.0 then 0.0 else e0 - RELEASE
  }

  /** An envelope in [0, ENV_MAX] stays there: it never goes negative and never
      rises more than one attack step above 1. */
  lemma EnvStepInRange(e: real, trigger: bool)
    requires 0.0 <= e <= ENV_MAX
    ensures 0.0 <= EnvStep(e, trigger) <= ENV_MAX
  {
  }

  /** After a trigger the envelope climbs for exactly the steps that keep it
      below 1: k steps from the reset leave it at k attack steps. */
  lemma {:induction false} AttackRamp(k: nat)
    requires k * 100 <= SR
    ensures EnvAfter(k) == (k * 100) as real / 44100.0
    decreases k
  {
    if k > 1 {
      AttackRamp(k - 1);
      AttackStep(k - 1);
    }
  }

  /** One more attack step below 1 adds 100/SR. */
  lemma AttackStep(j: nat)
    requires 1 <= j && (j + 1) * 100 <= SR
    requires EnvAfter(j) == (j * 100) as real / 44100.0
    ensures EnvAfter(j + 1) == ((j + 1) * 100) as real / 44100.0
  {
    var prev := EnvAfter(j);
    var n := j * 100;
    assert n as real + 100.0 <= 44100.0;
    assert prev < 1.0;
    assert EnvAfter(j + 1) == EnvStep(prev, false) == prev + ATTACK;
    assert ((j + 1) * 100) as real == (j * 100) as real + 100.0;
  }

  /** The envelope k calls after a trigger with no further trigger. */
  function EnvAfter(k: nat): real
    decreases k
  {
    if k == 0 then 0.0
    else if k == 1 then EnvStep(0.0, true)
    else EnvStep(EnvAfter(k - 1), false)
  }

  /** Instrument j's signal, its sine times its envelope. */
  function Signal(ps: seq<real>, es: seq<real>, sin: real -> real, j: int): real
    requires 0 <= j < |ps| && j < |es|
  {
    sin(ps[j]) * es[j]
  }

  /** The shared delay slot after the first k instruments: each writes its signal
      plus 0.7 of the value the one before it left there. */
  function ChainAt(b0: real, ps: seq<real>, es: seq<real>, sin: real -> real, k: int): real
    requires 0 <= k <= |ps| && k <= |es|
  {
    if k == 0 then b0 else Signal(ps, es, sin, k - 1) + ChainAt(b0, ps, es, sin, k - 1) * 0.7
  }

  /** The output over the first k instruments: each adds the slot's value as it
      read it, divided by 16. */
  function ChainSum(b0: real, ps: seq<real>, es: seq<real>, sin: real -> real, k: int): real
    requires 0 <= k <= |ps| && k <= |es|
  {
    if k == 0 then 0.0 else ChainSum(b0, ps, es, sin, k - 1) + ChainAt(b0, ps, es, sin, k - 1) / NUM_INST as real
  }

  /** The chain depends on the first k phases and envelopes only. */
  lemma {:induction false} ChainFrame(b0: real, ps: seq<real>, es: seq<real>, qs: seq<real>, fs: seq<real>,
                                      sin: real -> real, k: int)
    requires 0 <= k <= |ps| && k <= |es| && k <= |qs| && k <= |fs|
    requires forall j :: 0 <= j < k ==> ps[j] == qs[j] && es[j] == fs[j]
    ensures ChainAt(b0, ps, es, sin, k) == ChainAt(b0, qs, fs, sin, k)
    ensures ChainSum(b0, ps, es, sin, k) == ChainSum(b0, qs, fs, sin, k)
    decreases k
  {
    if k > 0 {
      ChainFrame(b0, ps, es, qs, fs, sin, k - 1);
      assert Signal(ps, es, sin, k - 1) == Signal(qs, fs, sin, k - 1);
    }
  }

  /** With a sine bounded by 1, a signal is bounded by its envelope. */
  lemma SignalBounded(x: real, e: real)
    requires -1.0 <= x <= 1.0 && 0.0 <= e <= ENV_MAX
    ensures -ENV_MAX <= x * e <= ENV_MAX
  {
    MulNonneg(1.0 - x, e);
    MulNonneg(1.0 + x, e);
  }

  /** The feedback of 0.7 keeps the slot within BOUND when it starts there and
      every signal is within ENV_MAX; the output over k instruments then stays
      within k sixteenths of BOUND. */
  lemma {:induction false} ChainBounded(b0: real, ps: seq<real>, es: seq<real>, sin: real -> real, k: int)
    requires 0 <= k <= |ps| && k <= |es| && -BOUND <= b0 <= BOUND
    requires forall j :: 0 <= j < k ==> -ENV_MAX <= Signal(ps, es, sin, j) <= ENV_MAX
    ensures -BOUND <= ChainAt(b0, ps, es, sin, k) <= BOUND
    ensures Abs(ChainSum(b0, ps, es, sin, k)) <= Times(k, BOUND / 16.0)
    decreases k
  {
    if k > 0 {
      ChainBounded(b0, ps, es, sin, k - 1);
      var b := ChainAt(b0, ps, es, sin, k - 1);
      var s := Signal(ps, es, sin, k - 1);
      assert -ENV_MAX <= s <= ENV_MAX;
      assert ChainAt(b0, ps, es, sin, k) == s + b * 0.7;
      assert ChainSum(b0, ps, es, sin, k) == ChainSum(b0, ps, es, sin, k - 1) + b / 16.0;
      assert Times(k, BOUND / 16.0) == Times(k - 1, BOUND / 16.0) + BOUND / 16.0;
    }
  }

  /** The statics of `synth` and the output stream. */
  class Synth {
    const phase: array<real>
    const env: array<real>
    const reverbBuffer: array<real>
    var reverbIdx: int
    var triggerCounter: int
    var outStream: seq<real>

    /** Sizes, distinct arrays, both counters within their cycles, every phase
        in [0, 2*pi] and every envelope in [0, ENV_MAX]. */
    predicate Valid()
      reads this, phase, env
    {
      phase.Length == NUM_INST && env.Length == NUM_INST && reverbBuffer.Length == REVERB_SIZE
      && phase != env && phase != reverbBuffer && env != reverbBuffer
      && 0 <= reverbIdx < REVERB_SIZE && 0 <= triggerCounter < TRIGGER_RATE
      && (forall i :: 0 <= i < NUM_INST ==> 0.0 <= phase[i] <= TWO_PI)
      && (forall i :: 0 <= i < NUM_INST ==> 0.0 <= env[i] <= ENV_MAX)
    }

    /** Every delay slot within BOUND. */
    predicate Calm()
      reads this, reverbBuffer
    {
      forall k :: 0 <= k < reverbBuffer.Length ==> -BOUND <= reverbBuffer[k] <= BOUND
    }

    /** Program start: every static zero, the stream empty. */
    constructor ()
      ensures Valid() && Calm() && outStream == []
      ensures reverbIdx == 0 && triggerCounter == 0
      ensures forall i :: 0 <= i < NUM_INST ==> phase[i] == 0.0 && env[i] == 0.0
      ensures forall k :: 0 <= k < REVERB_SIZE ==> reverbBuffer[k] == 0.0
    {
      phase := new real[NUM_INST](_ => 0.0);
      env := new real[NUM_INST](_ => 0.0);
      reverbBuffer := new real[REVERB_SIZE](_ => 0.0);
      reverbIdx, triggerCounter := 0, 0;
      outStream := [];
    }

    /** One call of `synth`: every instrument's phase and envelope take their
        step (the envelope retriggered when the counter is 0), the shared slot
        runs through the chain of the sixteen signals on the updated state, both
        counters advance around their cycles, and the chain's sum is appended to
        the stream. No other delay slot changes; with a sine bounded by 1 the
        delay line stays within BOUND and so does the sample. */
    method Tick(sin: real -> real)
      requires Valid()
      modifies this, phase, env, reverbBuffer
      ensures Valid()
      ensures forall i :: 0 <= i < NUM_INST ==> phase[i] == Advance(old(phase[i]), Inc(i))
      ensures forall i :: 0 <= i < NUM_INST ==> env[i] == EnvStep(old(env[i]), old(triggerCounter) == 0)
      ensures reverbBuffer[old(reverbIdx)] == ChainAt(old(reverbBuffer[reverbIdx]), phase[..], env[..], sin, NUM_INST)
      ensures forall k :: 0 <= k < REVERB_SIZE && k != old(reverbIdx) ==> reverbBuffer[k] == old(reverbBuffer[k])
      ensures reverbIdx == (old(reverbIdx) + 1) % REVERB_SIZE
      ensures triggerCounter == (old(triggerCounter) + 1) % TRIGGER_RATE
      ensures outStream == old(outStream) + [ChainSum(old(reverbBuffer[reverbIdx]), phase[..], env[..], sin, NUM_INST)]
      ensures (forall x :: -1.0 <= sin(x) <= 1.0) && old(Calm()) ==>
                Calm() && -BOUND <= outStream[|outStream| - 1] <= BOUND
    {
      var sum := Mix(sin);
      reverbIdx := (reverbIdx + 1) % REVERB_SIZE;
      triggerCounter := (triggerCounter + 1) % TRIGGER_RATE;
      outStream := outStream + [sum];
    }

    /** The instrument loop (C++ lines 26-56). */
    method Mix(sin: real -> real) returns (sum: real)
      requires Valid()
      modifies phase, env, reverbBuffer
      ensures Valid()
      ensures forall i :: 0 <= i < NUM_INST ==> phase[i] == Advance(old(phase[i]), Inc(i))
      ensures forall i :: 0 <= i < NUM_INST ==> env[i] == EnvStep(old(env[i]), triggerCounter == 0)
      ensures reverbBuffer[reverbIdx] == ChainAt(old(reverbBuffer[reverbIdx]), phase[..], env[..], sin, NUM_INST)
      ensures forall k :: 0 <= k < REVERB_SIZE && k != reverbIdx ==> reverbBuffer[k] == old(reverbBuffer[k])
      ensures sum == ChainSum(old(reverbBuffer[reverbIdx]), phase[..], env[..], sin, NUM_INST)
      ensures (forall x :: -1.0 <= sin(x) <= 1.0) && old(Calm()) ==> Calm() && -BOUND <= sum <= BOUND
    {
      ghost var b0 := reverbBuffer[reverbIdx];
      ghost var calm := Calm();
      sum := 0.0;
      for i := 0 to NUM_INST
        invariant Valid()
        invariant forall j :: 0 <= j < i ==> phase[j] == Advance(old(phase[j]), Inc(j))
        invariant forall j :: i <= j < NUM_INST ==> phase[j] == old(phase[j])
        invariant forall j :: 0 <= j < i ==> env[j] == EnvStep(old(env[j]), triggerCounter == 0)
        invariant forall j :: i <= j < NUM_INST ==> env[j] == old(env[j])
        invariant reverbBuffer[reverbIdx] == ChainAt(b0, phase[..], env[..], sin, i)
        invariant forall k :: 0 <= k < REVERB_SIZE && k != reverbIdx ==> reverbBuffer[k] == old(reverbBuffer[k])
        invariant sum == ChainSum(b0, phase[..], env[..], sin, i)
      {
        ghost var ps, es := phase[..], env[..];
        Instrument(i);
        ChainFrame(b0, ps, es, phase[..], env[..], sin, i);
        sum := Feed(i, b0, sin, sum);
      }
      if (forall x :: -1.0 <= sin(x) <= 1.0) && calm {
        Settle(b0, sin);
      }
    }

    /** Instrument i's share of the shared slot (C++ lines 50-55): its signal
        plus 0.7 of the slot is written back, and the sum gains a sixteenth of
        the value read. */
    method Feed(i: int, ghost b0: real, sin: real -> real, sum: real) returns (sum': real)
      requires Valid() && 0 <= i < NUM_INST
      requires reverbBuffer[reverbIdx] == ChainAt(b0, phase[..], env[..], sin, i)
      requires sum == ChainSum(b0, phase[..], env[..], sin, i)
      modifies reverbBuffer
      ensures reverbBuffer[reverbIdx] == ChainAt(b0, phase[..], env[..], sin, i + 1)
      ensures forall k :: 0 <= k < REVERB_SIZE && k != reverbIdx ==> reverbBuffer[k] == old(reverbBuffer[k])
      ensures sum' == ChainSum(b0, phase[..], env[..], sin, i + 1)
    {
      var osc := sin(phase[i]);
      var signal := osc * env[i];
      assert signal == Signal(phase[..], env[..], sin, i);
      var rev := reverbBuffer[reverbIdx];
      reverbBuffer[reverbIdx] := signal + rev * 0.7;
      sum' := sum + rev / NUM_INST as real;
    }

    /** Instrument i's phase and envelope steps (C++ lines 31-48). */
    method Instrument(i: int)
      requires Valid() && 0 <= i < NUM_INST
      modifies phase, env
      ensures Valid()
      ensures phase[i] == Advance(old(phase[i]), Inc(i)) && env[i] == EnvStep(old(env[i]), triggerCounter == 0)
      ensures forall j :: 0 <= j < NUM_INST && j != i ==> phase[j] == old(phase[j]) && env[j] == old(env[j])
    {
      var freq := (32 + i) as real;
      if triggerCounter == 0 {
        env[i] := 0.0;
      }
      phase[i] := phase[i] + 2.0 * PI * freq / SR as real;
      if phase[i] > 2.0 * PI {
        phase[i] := phase[i] - 2.0 * PI;
      }
      if env[i] < 1.0 {
        env[i] := env[i] + 100.0 / SR as real;
      } else {
        env[i] := env[i] - 1.0 / SR as real;
        if env[i] < 0.0 {
          env[i] := 0.0;
        }
      }
      EnvStepInRange(old(env[i]), triggerCounter == 0);
    }

    /** The bound on the slot and the sum after the loop, from ChainBounded. */
    lemma Settle(b0: real, sin: real -> real)
      requires Valid() && -BOUND <= b0 <= BOUND
      requires forall x :: -1.0 <= sin(x) <= 1.0
      ensures -BOUND <= ChainAt(b0, phase[..], env[..], sin, NUM_INST) <= BOUND
      ensures -BOUND <= ChainSum(b0, phase[..], env[..], sin, NUM_INST) <= BOUND
    {
      forall j | 0 <= j < NUM_INST
        ensures -ENV_MAX <= Signal(phase[..], env[..], sin, j) <= ENV_MAX
      {
        SignalBounded(sin(phase[j]), env[j]);
      }
      ChainBounded(b0, phase[..], env[..], sin, NUM_INST);
      TimesIs(NUM_INST, BOUND / 16.0);
    }
  }
}
