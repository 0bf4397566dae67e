/** The MyHDL blocks of the ambient drone (Python/6.py): the LFNoise1 ramp, the
    saw oscillator, the delay-line reverb and the drone's combinational mix.
    Each clocked block is a class of its registers; `Clock` computes every next
    value from the registers as they were at the edge and then writes them all.
    An `intbv` register given a value outside its declared range raises, which
    `Clock` reports as `ok == false` with nothing changed. The output ports'
    ranges belong to the block that declares them, so they are not checked here. */
module AmbientHdl {
  import opened Numeric

  /** LFNoise1's phase range: `intbv(0, min=0, max=44100)`. */
  const PHASE_MAX: int := 44100
  /** `44100 // 100`, the phase units per step of the output ramp. */
  const RAMP_UNIT: int := 441
  /** The saw's phase range, `max=1000`. */
  const SAW_MAX: int := 1000
  const BUFFER_LEN: int := 10000
  /** `intbv(0)[16:]`: values in [0, 2^16). */
  const WORD: int := 0x1_0000
  const VOICES: int := 6

  /** LFNoise1's output register's next value, `curr + inc * (phase // 441)`. */
  function NoiseOut(curr: int, inc: int, phase: int): int {
    curr + inc * (phase / RAMP_UNIT)
  }

  /** The number of clocks an LFNoise1 runs from phase p at a positive rate before
      `phase + rate` leaves the register's range and the assignment raises. */
  function OkClocks(p: int, rate: int): nat
    requires 0 <= p < PHASE_MAX && rate > 0
    decreases PHASE_MAX - p
  {
    if p + rate >= PHASE_MAX then 0 else 1 + OkClocks(p + rate, rate)
  }

  /** From phase p the ramp survives n clocks where n is the largest count with
      `p + n * rate` still below 44100, that is `(44099 - p) // rate`. */
  lemma {:induction false} OkClocksIs(p: int, rate: int)
    requires 0 <= p < PHASE_MAX && rate > 0
    ensures OkClocks(p, rate) * rate <= PHASE_MAX - 1 - p < (OkClocks(p, rate) + 1) * rate
    decreases PHASE_MAX - p
  {
    if p + rate < PHASE_MAX {
      OkClocksIs(p + rate, rate);
      var n := OkClocks(p + rate, rate);
      assert OkClocks(p, rate) == n + 1;
      assert (n + 1) * rate == n * rate + rate && (n + 2) * rate == (n + 1) * rate + rate;
    }
  }

  /** The drone's frequency noise (rate `int(3.14*2*100) = 628`) raises on its 71st
      clock, and the detune noises (rate 10) on their 4410th. */
  lemma DroneNoisesStop()
    ensures OkClocks(0, 628) == 70
    ensures OkClocks(0, 10) == 4409
  {
    OkClocksIs(0, 628);
    OkClocksIs(0, 10);
  }

  /** The LFNoise1 block's registers and its output port. */
  class LfNoise1 {
    var curr: int
    var target: int
    var phase: int
    var inc: int
    var out: int

    /** Every register within its declared range. */
    predicate Valid()
      reads this
    {
      Fits(curr, -1000, 1000) && Fits(target, -1000, 1000)
      && Fits(phase, 0, PHASE_MAX) && Fits(inc, -2000, 2000)
    }

    /** curr, target and inc at their initial 0: the ramp is flat at 0. */
    predicate Flat()
      reads this
    {
      curr == 0 && target == 0 && inc == 0
    }

    /** The registers' initial values (Python/6.py:6-9). */
    constructor ()
      ensures Valid() && Flat() && phase == 0 && out == 0
    {
      curr, target, phase, inc, out := 0, 0, 0, 0, 0;
    }

    /** One rising edge (Python/6.py:12-19), with `draw` the value
        `random.randint(-1000, 1000)` would return. The phase register holds values
        below 44100 only, so the reload branch, which tests `phase >= 44100`, never
        runs: curr, target and inc never change, and the clock succeeds exactly
        when `phase + rate` still fits the phase register. The output register
        takes the ramp on the old registers. */
    method Clock(rate: int, draw: int) returns (ok: bool)
      requires Valid()
      modifies this
      ensures Valid()
      ensures ok <==> Fits(old(phase) + rate, 0, PHASE_MAX)
      ensures curr == old(curr) && target == old(target) && inc == old(inc)
      ensures ok ==> phase == old(phase) + rate && out == NoiseOut(old(curr), old(inc), old(phase))
      ensures !ok ==> phase == old(phase) && out == old(out)
      ensures old(Flat()) ==> Flat() && (ok ==> out == 0)
    {
      var nPhase := phase + rate;
      var nCurr, nTarget, nInc := curr, target, inc;
      if phase >= PHASE_MAX {
        nPhase := 0;
        nCurr := target;
        nTarget := draw;
        nInc := target - curr;
      }
      var nOut := curr + inc * (phase / RAMP_UNIT);
      ok := Fits(nPhase, 0, PHASE_MAX) && Fits(nCurr, -1000, 1000)
            && Fits(nTarget, -1000, 1000) && Fits(nInc, -2000, 2000);
      if ok {
        phase, curr, target, inc, out := nPhase, nCurr, nTarget, nInc, nOut;
      }
    }
  }

  /** The saw's next phase, `(phase + freq) % 1000`, Python's modulo. */
  function SawPhase(phase: int, freq: int): (r: int)
    ensures 0 <= r < SAW_MAX
  {
    PyMod(phase + freq, SAW_MAX)
  }

  /** The saw's output, `(phase * 2 // 1000) - 1`: -1 for the first half of the
      phase range and 0 for the second, never the rising ramp the name suggests. */
  function SawOut(phase: int): (r: int)
    requires 0 <= phase < SAW_MAX
    ensures r == -1 || r == 0
    ensures r == -1 <==> phase < SAW_MAX / 2
  {
    (phase * 2) / SAW_MAX - 1
  }

  /** The drone feeds each saw `freq_out + detune[i]`, which is evaluated once,
      when the drone is built, while both signals hold 0: the saws never move. And
      their first output, -1, does not fit the 16-bit `saw_out` signals. */
  lemma DroneSawsStuck(phase: int)
    requires 0 <= phase < SAW_MAX
    ensures SawPhase(phase, 0) == phase
    ensures !Fits(SawOut(0), 0, WORD)
  {
  }

  /** The saw block's phase register and its output port. */
  class Saw {
    var phase: int
    var out: int

    predicate Valid()
      reads this
    {
      Fits(phase, 0, SAW_MAX)
    }

    constructor ()
      ensures Valid() && phase == 0 && out == 0
    {
      phase, out := 0, 0;
    }

    /** One rising edge (Python/6.py:28-30): the phase steps by `freq` modulo 1000
        and the output takes the saw of the old phase. */
    method Clock(freq: int)
      requires Valid()
      modifies this
      ensures Valid()
      ensures phase == SawPhase(old(phase), freq) && out == SawOut(old(phase))
    {
      phase, out := (phase + freq) % SAW_MAX, (phase * 2) / SAW_MAX - 1;
    }
  }

  /** The reverb block's registers (its 10000-word delay line and index) and its
      output port. */
  class SimpleReverb {
    var buffer: seq<int>
    var idx: int
    var out: int

    /** The delay line's length, each word within 16 bits, and the index in range. */
    predicate Valid()
      reads this
    {
      |buffer| == BUFFER_LEN && Fits(idx, 0, BUFFER_LEN)
      && forall k :: 0 <= k < BUFFER_LEN ==> Fits(buffer[k], 0, WORD)
    }

    /** The registers' initial values (Python/6.py:37-38). */
    constructor ()
      ensures Valid() && buffer == seq(BUFFER_LEN, _ => 0) && idx == 0 && out == 0
    {
      buffer := seq(BUFFER_LEN, _ => 0);
      idx, out := 0, 0;
    }

    /** One rising edge (Python/6.py:41-44). The output takes the old slot at idx
        plus half the input; that slot receives the input plus half the OLD
        output register; idx steps modulo `roomsize` (Python's modulo). The clock
        raises, and nothing changes, when roomsize is 0, when the new word does not
        fit 16 bits, or when the new index leaves [0, 10000). */
    method Clock(inSig: int, roomsize: int) returns (ok: bool)
      requires Valid()
      modifies this
      ensures Valid()
      ensures ok <==> roomsize != 0 && Fits(inSig + old(out) / 2, 0, WORD)
                      && Fits(PyMod(old(idx) + 1, roomsize), 0, BUFFER_LEN)
      ensures ok ==> out == old(buffer[idx]) + inSig / 2
                     && buffer == old(buffer)[old(idx) := inSig + old(out) / 2]
                     && idx == PyMod(old(idx) + 1, roomsize)
      ensures !ok ==> buffer == old(buffer) && idx == old(idx) && out == old(out)
      ensures ok && roomsize > 0 ==> idx == (old(idx) + 1) % roomsize
    {
      var nOut := buffer[idx] + inSig / 2;
      var nWord := inSig + out / 2;
      if roomsize == 0 {
        return false;
      }
      var nIdx := PyMod(idx + 1, roomsize);
      ok := Fits(nWord, 0, WORD) && Fits(nIdx, 0, BUFFER_LEN);
      if ok {
        buffer := buffer[idx := nWord];
        idx, out := nIdx, nOut;
      }
    }
  }

  /** `temp` after the mix loop's first k voices: the sum of `rev_out[i] // 10`. */
  function MixSum(revs: seq<int>, k: int): int
    requires 0 <= k <= |revs|
  {
    if k == 0 then 0 else MixSum(revs, k - 1) + revs[k - 1] / 10
  }

  /** With every reverb output a 16-bit word, the partial sums stay within k
      tenths of a word. */
  lemma {:induction false} MixSumBounded(revs: seq<int>, k: int)
    requires 0 <= k <= |revs|
    requires forall i :: 0 <= i < |revs| ==> Fits(revs[i], 0, WORD)
    ensures 0 <= MixSum(revs, k) <= k * ((WORD - 1) / 10)
    decreases k
  {
    if k > 0 {
      MixSumBounded(revs, k - 1);
    }
  }

  /** The drone's combinational `mix` (Python/6.py:65-72), as it settles: `sound`
      is the sum of the six `rev_out[i] // 10`, halved with floor division, and
      both outputs equal it. With six 16-bit reverb outputs the mix lies in
      [0, 19659], inside the 16-bit `sound` signal. */
  method Mix(revOut: seq<int>) returns (sound: int, outL: int, outR: int)
    requires |revOut| == VOICES
    ensures sound == MixSum(revOut, VOICES) / 2
    ensures outL == sound && outR == sound
    ensures (forall i :: 0 <= i < VOICES ==> Fits(revOut[i], 0, WORD)) ==> 0 <= sound <= 19659
  {
    var temp := 0;
    for i := 0 to VOICES
      invariant temp == MixSum(revOut, i)
    {
      temp := temp + revOut[i] / 10;
    }
    sound := temp / 2;
    outL, outR := sound, sound;
    if forall i :: 0 <= i < VOICES ==> Fits(revOut[i], 0, WORD) {
      MixSumBounded(revOut, VOICES);
    }
  }
}
