/** The clocked MyHDL percussion bank `synth` of Python/3.py: sixteen 32-bit
    phase accumulators, a 7-bit slice of each phase indexing a 256-entry sine
    table, attack/release envelopes and one shared slot of a feedback delay
    line, all under two-phase `.next` semantics: every read in a cycle sees the
    registers as they were at the clock edge, and the last `.next` assignment to
    a register wins. The `fixbv` registers are modelled as reals (their
    quantisation and range checks are not emulated); the `intbv` phase registers
    raise on overflow, which `Clock` reports as `ok == false`. */
module PercHdl {
  import opened Numeric

  const NUM_INST: int := 16
  const SR: int := 44100
  const REVERB_SIZE: int := 22050
  /** `SR // 10`. */
  const TRIGGER_RATE: int := SR / 10
  const LUT_SIZE: int := 256
  /** bit 24, the weight of the lowest bit of the table index. */
  const INDEX_UNIT: int := 0x100_0000
  const ATTACK: real := 100.0 / SR as real
  const RELEASE: real := 1.0 / SR as real

  /** `((32 + i) << 16) // SR`: instrument i's phase increment, the same on every
      cycle. */
  function PhaseInc(i: int): (r: int)
    requires 0 <= i < NUM_INST
    ensures 47 <= r <= 69
  {
    ((32 + i) * 0x1_0000) / SR
  }

  /** `phase[i][31:24]`: a MyHDL slice [31:24] holds bits 30 down to 24, seven
      bits, so the index reaches only the first half of the 256-entry table. */
  function LutIndex(p: int): (r: int)
    requires 0 <= p < TWO32
    ensures 0 <= r < 128 && r < LUT_SIZE
    ensures r * INDEX_UNIT <= p % TWO31 < (r + 1) * INDEX_UNIT
  {
    (p / INDEX_UNIT) % 128
  }

  /** Bit 31 of the phase never reaches the index: a phase and the same phase with
      its top bit set read the same table entry. */
  lemma TopBitIgnored(p: int)
    requires 0 <= p < TWO31
    ensures LutIndex(p + TWO31) == LutIndex(p)
  {
    assert (p + TWO31) / INDEX_UNIT == p / INDEX_UNIT + 128;
  }

  /** The phase register's next value, which must still fit its 32 bits. */
  predicate PhaseFits(ps: seq<int>, i: int)
    requires 0 <= i < NUM_INST && i < |ps|
  {
    ps[i] + PhaseInc(i) < TWO32
  }

  /** The first k phase assignments of a cycle do not overflow. */
  predicate FitsUpTo(ps: seq<int>, k: int)
    requires 0 <= k <= NUM_INST && k <= |ps|
  {
    forall j :: 0 <= j < k ==> PhaseFits(ps, j)
  }

  /** Every phase after one cycle: the old value plus its increment. */
  function NextPhases(ps: seq<int>): (r: seq<int>)
    requires |ps| == NUM_INST
    ensures |r| == NUM_INST
    ensures forall i :: 0 <= i < NUM_INST ==> r[i] - ps[i] == PhaseInc(i)
  {
    seq(NUM_INST, i requires 0 <= i < NUM_INST => ps[i] + PhaseInc(i))
  }

  /** The envelope's next value. The trigger's `env[i].next = 0` is followed in the
      same cycle by an assignment in both branches of the attack/release test, so
      it never takes effect; the clamp at 0 tests the old value, which that branch
      knows to be at least 1, so it never fires either. */
  function EnvNext(e: real): (r: real)
    ensures e < 1.0 ==> r == e + ATTACK
    ensures e >= 1.0 ==> r == e - RELEASE
  {
    if e < 1.0 then e + ATTACK else e - RELEASE
  }

  /** An envelope in [0, 1 + ATTACK) stays there. */
  lemma EnvInRange(e: real)
    requires 0.0 <= e < 1.0 + ATTACK
    ensures 0.0 < EnvNext(e) < 1.0 + ATTACK
  {
  }

  /** Every envelope after one cycle. */
  function NextEnvs(es: seq<real>): (r: seq<real>)
    requires |es| == NUM_INST
    ensures |r| == NUM_INST
    ensures forall i :: 0 <= i < NUM_INST ==> r[i] == EnvNext(es[i])
  {
    seq(NUM_INST, i requires 0 <= i < NUM_INST => EnvNext(es[i]))
  }

  /** Instrument i's signal: the table entry at its old phase times its old envelope. */
  function Signal(lut: seq<real>, ps: seq<int>, es: seq<real>, i: int): real
    requires |lut| == LUT_SIZE && 0 <= i < |ps| && i < |es| && 0 <= ps[i] < TWO32
  {
    lut[LutIndex(ps[i])] * es[i]
  }

  /** The delay slot's next value. Every instrument reads the old slot `rev` and
      assigns `signal + 0.7 * rev` to it; the last assignment, instrument 15's,
      is the one that survives the cycle. */
  function SlotNext(lut: seq<real>, ps: seq<int>, es: seq<real>, rev: real): real
    requires |lut| == LUT_SIZE && |ps| == NUM_INST && |es| == NUM_INST && 0 <= ps[NUM_INST - 1] < TWO32
  {
    Signal(lut, ps, es, NUM_INST - 1) + rev * 0.7
  }

  /** The phases k cycles after reset, with no overflow on the way. */
  function PhasesAfter(k: nat): (r: seq<int>)
    ensures |r| == NUM_INST
    decreases k
  {
    if k == 0 then seq(NUM_INST, _ => 0) else NextPhases(PhasesAfter(k - 1))
  }

  /** k cycles from reset leave instrument i's phase at k increments: the
      increment is the same constant on every cycle. */
  lemma {:induction false} PhasesAfterIs(k: nat, i: int)
    requires 0 <= i < NUM_INST
    ensures PhasesAfter(k)[i] == k * PhaseInc(i)
    decreases k
  {
    if k > 0 {
      PhasesAfterIs(k - 1, i);
      assert PhasesAfter(k)[i] == PhasesAfter(k - 1)[i] + PhaseInc(i);
      assert (k - 1) * PhaseInc(i) + PhaseInc(i) == k * PhaseInc(i);
    }
  }

  /** The registers the clocked `logic` drives, and the sine table it reads. */
  class Synth {
    const lut: seq<real>
    var phase: seq<int>
    var env: seq<real>
    var reverbBuffer: seq<real>
    var reverbIdx: int
    var triggerCounter: int
    var output: real

    /** Sizes, the two counters within their cycles, each phase within 32 bits and
        each envelope in [0, 1 + ATTACK). */
    predicate Valid()
      reads this
    {
      |lut| == LUT_SIZE && |phase| == NUM_INST && |env| == NUM_INST && |reverbBuffer| == REVERB_SIZE
      && 0 <= reverbIdx < REVERB_SIZE && 0 <= triggerCounter < TRIGGER_RATE
      && (forall i :: 0 <= i < NUM_INST ==> 0 <= phase[i] < TWO32)
      && (forall i :: 0 <= i < NUM_INST ==> 0.0 <= env[i] < 1.0 + ATTACK)
    }

    /** The registers' initial values (Python/3.py:10-16), with the table
        `sin(2*pi*i/256)` given as `table`. */
    constructor (table: seq<real>)
      requires |table| == LUT_SIZE
      ensures Valid() && lut == table
      ensures phase == seq(NUM_INST, _ => 0) && env == seq(NUM_INST, _ => 0.0)
      ensures reverbBuffer == seq(REVERB_SIZE, _ => 0.0)
      ensures reverbIdx == 0 && triggerCounter == 0 && output == 0.0
    {
      lut := table;
      phase := seq(NUM_INST, _ => 0);
      env := seq(NUM_INST, _ => 0.0);
      reverbBuffer := seq(REVERB_SIZE, _ => 0.0);
      reverbIdx, triggerCounter, output := 0, 0, 0.0;
    }

    /** The reset of `always_seq`: every driven register back to its initial value. */
    method Reset()
      requires |lut| == LUT_SIZE
      modifies this
      ensures Valid()
      ensures phase == PhasesAfter(0) && env == seq(NUM_INST, _ => 0.0)
      ensures reverbBuffer == seq(REVERB_SIZE, _ => 0.0)
      ensures reverbIdx == 0 && triggerCounter == 0 && output == 0.0
    {
      phase := seq(NUM_INST, _ => 0);
      env := seq(NUM_INST, _ => 0.0);
      reverbBuffer := seq(REVERB_SIZE, _ => 0.0);
      reverbIdx, triggerCounter, output := 0, 0, 0.0;
    }

    /** One rising edge (Python/3.py:22-53). When a phase would overflow its 32
        bits the assignment raises and nothing changes (`ok` is false).
        Otherwise every phase moves by its increment, every envelope takes its
        attack or release step whatever the trigger counter says, the slot read
        this cycle receives instrument 15's signal plus 0.7 of its old value, both
        counters advance around their cycles, and the output is sixteen
        sixteenths of the old slot, which is that slot's old value. */
    method Clock() returns (ok: bool)
      requires Valid()
      modifies this
      ensures Valid()
      ensures ok == FitsUpTo(old(phase), NUM_INST)
      ensures !ok ==> phase == old(phase) && env == old(env) && reverbBuffer == old(reverbBuffer)
                      && reverbIdx == old(reverbIdx) && triggerCounter == old(triggerCounter)
                      && output == old(output)
      ensures ok ==> phase == NextPhases(old(phase)) && env == NextEnvs(old(env))
      ensures ok ==> reverbBuffer == old(reverbBuffer)[old(reverbIdx) :=
                       SlotNext(lut, old(phase), old(env), old(reverbBuffer[reverbIdx]))]
      ensures ok ==> reverbIdx == (old(reverbIdx) + 1) % REVERB_SIZE
                     && triggerCounter == (old(triggerCounter) + 1) % TRIGGER_RATE
      ensures ok ==> output == old(reverbBuffer[reverbIdx])
    {
      var rev := reverbBuffer[reverbIdx];
      var nextPhase: seq<int> := [];
      var nextEnv: seq<real> := [];
      var slot := rev;
      var sum := 0.0;
      ok := true;
      for i := 0 to NUM_INST
        invariant unchanged(this)
        invariant |nextPhase| == i && |nextEnv| == i
        invariant forall j :: 0 <= j < i ==> nextPhase[j] == phase[j] + PhaseInc(j)
        invariant forall j :: 0 <= j < i ==> nextEnv[j] == EnvNext(env[j])
        invariant ok == FitsUpTo(phase, i)
        invariant i > 0 ==> slot == Signal(lut, phase, env, i - 1) + rev * 0.7
        invariant sum == Times(i, rev / NUM_INST as real)
      {
        var p, e, signal := Instrument(i);
        assert FitsUpTo(phase, i + 1) <==> FitsUpTo(phase, i) && PhaseFits(phase, i);
        ok := ok && p < TWO32;
        nextPhase := nextPhase + [p];
        nextEnv := nextEnv + [e];
        slot := signal + reverbBuffer[reverbIdx] * 0.7;
        sum := sum + reverbBuffer[reverbIdx] / NUM_INST as real;
      }
      if ok {
        TimesIs(NUM_INST, rev / NUM_INST as real);
        Commit(nextPhase, nextEnv, slot, sum);
      }
    }

    /** Instrument i's part of a cycle (Python/3.py:26-44), on the registers as
        they were at the edge: its phase's next value, its envelope's (the
        trigger's reset is overridden by the attack/release assignment), and its
        signal from the 7-bit table index and the old envelope. */
    method Instrument(i: int) returns (p: int, e: real, signal: real)
      requires Valid() && 0 <= i < NUM_INST
      ensures p == phase[i] + PhaseInc(i) && e == EnvNext(env[i])
      ensures signal == Signal(lut, phase, env, i)
    {
      var freq := 32 + i;
      var phaseInc := (freq * 0x1_0000) / SR;
      p := phase[i] + phaseInc;
      e := env[i];
      if triggerCounter == 0 {
        e := 0.0;
      }
      var lutIdx := (phase[i] / INDEX_UNIT) % 128;
      var osc := lut[lutIdx];
      if env[i] < 1.0 {
        e := env[i] + 100.0 / SR as real;
      } else {
        e := env[i] - 1.0 / SR as real;
        if env[i] < 0.0 {
          e := 0.0;
        }
      }
      signal := osc * env[i];
    }

    /** The end of a cycle without overflow: every next value takes effect. */
    method Commit(nextPhase: seq<int>, nextEnv: seq<real>, slot: real, sum: real)
      requires Valid()
      requires nextPhase == NextPhases(phase) && FitsUpTo(phase, NUM_INST) && nextEnv == NextEnvs(env)
      modifies this
      ensures Valid()
      ensures phase == nextPhase && env == nextEnv && output == sum
      ensures reverbBuffer == old(reverbBuffer)[old(reverbIdx) := slot]
      ensures reverbIdx == (old(reverbIdx) + 1) % REVERB_SIZE
      ensures triggerCounter == (old(triggerCounter) + 1) % TRIGGER_RATE
    {
      forall i | 0 <= i < NUM_INST
        ensures 0 <= nextPhase[i] < TWO32 && 0.0 <= nextEnv[i] < 1.0 + ATTACK
      {
        assert PhaseFits(phase, i);
        EnvInRange(env[i]);
      }
      reverbBuffer := reverbBuffer[reverbIdx := slot];
      phase, env := nextPhase, nextEnv;
      reverbIdx := (reverbIdx + 1) % REVERB_SIZE;
      triggerCounter := (triggerCounter + 1) % TRIGGER_RATE;
      output := sum;
    }
  }
}
