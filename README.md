# Verified models of per-sample audio synthesis kernels

This project models, in Dafny, the stateful core of a collection of audio
synthesis kernels written for high-level synthesis (C++ and OpenCL) and for
MyHDL (Python). It proves properties of that model. Three families are covered.

- **Granular engine.** `C++/5.cpp` and `OpenCL/5.cpp` each have a `synth`
  state machine; `Python/5.py` is its clocked MyHDL sketch.
  - A xorshift generator picks the voice frequencies.
  - A dust counter fires triggers, and each rising edge of the trigger
    allocates at most one grain per voice in a fixed pool of 512.
  - Each grain counts down for 0.02 s under a raised-cosine window, and expired
    grains are swap-removed.
  - Each voice is folded into a slowly varying range by `sc_fold`, and the mix
    is written to both channels.
  - Modules: `Numeric`, `Folding`, `Xorshift`, `GrainPool`, `GrainEngine`,
    `GrainHdl`.
- **Phase-accumulator oscillator banks.**
  - Float phases with a subtract-wrap: `C++/2.cpp`, its OpenCL port, and the
    armed wavetable of `C++/11.cpp`.
  - A linear sweep that is never wrapped: `C++/1.cpp`.
  - Integer MyHDL accumulators modulo 2^32 read through sine tables:
    `Python/1.py`, `Python/11.py`, `Python/9.py`, and
    `Python/89876c571a5a12b48602f010d2ac86d7/pythonMyHDLdsp07092025.py`.
  - Modules: `PhaseBank`, `ToneGenerator`, `ToneKernel`, `ArmedWavetable`,
    `SineSweep`, `ToneHdl`, `SineOscHdl`, `FmHdl`, `SweepHdl`.
- **Small stateful DSP blocks.**
  - The table sine, LFSR noise, `fast_tanh`, biquad and FreeVerb of
    `C++/12.cpp` (`FmDrone`).
  - The LCG, `LFNoise1`, saw and ring-buffer reverb of `C++/6.cpp` (`Ambient`)
    and of `Python/6.py` (`AmbientHdl`).
  - The percussion bank with a shared feedback slot, in `C++/2576…/DSProutineCPP09092025.cpp`
    (`Perc`) and in `Python/3.py` (`PercHdl`).
  - The three-carrier FM block of `Python/13.py`, with its counter-driven
    random walks (`ThreeCarrierHdl`).

The model takes the form of each source file:
- **Static state becomes a class.** Arrays and fields that a function updates
  from call to call become class fields. Each call is a method whose
  `ensures` states the new state in terms of the old state and of
  specification functions. The properties the code promises are then proved
  about those functions. A few methods state less than the whole new state;
  "Left out" names each of them at the head of a line.
- **Pure helpers become functions.** `sc_fold`, `lfsr_next`, `sin_lut` and
  `fast_tanh` are functions with lemmas.
- **MyHDL blocks become classes of their registers.** `Clock` computes every
  next value from the registers as they were at the clock edge and then writes
  them, which is the two-phase `.next` rule: the last assignment in a cycle
  wins. An `intbv` register given a value outside its declared range raises in
  MyHDL. `Clock` returns `ok == false` in that case and changes nothing.

Numbers are modelled as follows:
- C `float` is a real number.
- C `(int)` truncates toward zero (`Numeric.Trunc`).
- 32-bit unsigned arithmetic wraps explicitly (`Numeric.Wrap32`, `bv32`).
- Python `//` by a positive divisor is Dafny's `/`.
- Python `%` is `Numeric.PyMod`.

Parameters stand in for what cannot be modelled:
- Transcendental functions (`sin`, `cos`, `log`, `exp`, `tan`) are function
  parameters.
- Random draws are input parameters.
- Sine tables built by comprehensions are parameters, constrained only by the
  ranges their formulas guarantee.

Where the code departs from what its own text shows was intended:
- **Fold period.** `sc_fold` computes `range2 = range + range` (`C++/5.cpp:33`)
  but divides the position by `range`, so its triangle wave has a period of
  the range itself, where the reflections above it and the SuperCollider
  fold it copies have twice that. Findings records this. The engines use
  the corrected fold, and "Left out" names the members that do so.
- **Runtime errors.** Several MyHDL blocks raise, on an `intbv` overflow or on
  an out-of-range table index, although a register's declared range is what
  each assignment is evidently meant to respect. These cases are modelled as
  failed clocks, or stated as lemmas.
- **Phase range.** The percussion bank and the saw wrap only when the phase is
  strictly above the limit (`phase > 1.0`), so their phases range over the
  closed interval rather than the half-open one a wrapped phase usually has.
  `Ambient.SawRestsAtOne` shows one case.
- **Table index.** `Python/1.py:36-37` slices `(phase >> 24)[:8]`, which keeps
  bits 8 and up of an 8-bit value, so the index is always 0, where the comment
  "Map to LUT index" and the 256-entry table ask for the top byte. Findings
  records this. `ToneHdl.Synth.Clock` outputs the sum read at the top byte,
  and "Left out" says so.
- **Carrier note.** The note 90 of `Python/13.py` gives `int(440 * 2**(21/12)) = 1479`, not the
  1586 Hz its comment announces.

Source behaviour the lemmas below state explicitly:
- `Python/1.py`: the LFO frequency table is `135 * i` (`ToneHdl.LfoFreqRange`).
- `Python/11.py`: patch1's 20 Hz and 40 Hz voices never advance, and every voice
  is silent through the 44100 clocks its testbench runs
  (`SineOscHdl.Patch1Ranges`, `SineOscHdl.SlowVoiceSilent`).
- `Python/9.py`: the extra factor 1024 makes every oscillator increment wrap
  (`FmHdl.ModIncWraps`).
- `Python/89876…`: `delta_inc` is never driven, so the block is silent from reset
  (`SweepHdl.ZeroStateStays`).
- `Python/3.py`: a trigger never zeroes an envelope (`PercHdl.EnvNext`).
- `Python/13.py`: the saturation clamp is always overridden
  (`ThreeCarrierHdl.Synth.Chain`).
- `Python/6.py`:
  - The noise ramps raise after 70 and 4409 clocks (`AmbientHdl.DroneNoisesStop`).
  - The drone's saws never move (`AmbientHdl.DroneSawsStuck`).
- `Python/5.py`: every grain phase increment floors to 0 (`GrainHdl.IncrementsVanish`).
- `C++/5.cpp`: the seed 1 keeps the xorshift stream away from its fixed point 0 (`Xorshift.Iterate`).

## Model

| member | source | states |
|---|---|---|
| Numeric.Trunc | C++/5.cpp:43 | C's `(int)x` truncates toward zero: the result is the integer at most one unit from x on x's side of 0 |
| Numeric.Fmod1 | C++/12.cpp:19 | `fmodf(x, 1.0f)` lies in (-1, 1), takes the sign of x and differs from x by an integer |
| Numeric.Wrap32 | Python/1.py:32-33 | a 32-bit `modbv` register keeps its value modulo 2^32, in [0, 2^32) |
| Numeric.Signed32 | Python/5.py:30 | `.signed()` of a 32-bit register lies in [-2^31, 2^31) and has the same bits |
| Numeric.PyMod | Python/6.py:44 | Python's `%` takes the divisor's sign: in [0, b) for b > 0 and in (b, 0] for b < 0 |
| Numeric.AccumulatedIs | Python/1.py:32-33 | an accumulator stepped by f modulo 2^32 from 0 holds `k * f mod 2^32` after k clocks |
| Numeric.CounterNext | Python/13.py:43-46 | a counter below its limit counts up by one, and one at or past its limit drops to 0 |
| Numeric.CounterCycles | Python/13.py:43-46 | from 0 the counter reads r on clock r up to the limit, and it repeats with period `limit + 1` |
| Numeric.Crossfade | C++/12.cpp:138-139 | the blend `dry*(1 - w) + wet*w` is the dry value at weight 0 and the wet one at weight 1 |
| Numeric.CrossfadeBetween | C++/12.cpp:138-139 | for a weight in [0, 1] the blend lies between the dry and the wet value |
| Folding.FracTrunc | C++/5.cpp:43-44 | the fractional part `x - (int)x`, corrected when negative, lies in [0, 1) and differs from x by an integer |
| Folding.FracFloor | OpenCL/5.cpp:14-15 | the fractional part `x - floor(x)` lies in [0, 1) and differs from x by an integer |
| Folding.FracVariantsAgree | OpenCL/5.cpp:14-15 | the truncating idiom with its correction and the floor idiom give the same fractional part on every input |
| Folding.Frac | C++/5.cpp:43-44 | either variant's fractional part lies in [0, 1) |
| Folding.VariantsAgree | OpenCL/5.cpp:1-21 | the OpenCL `sc_fold` agrees with the C++ one on every input |
| Folding.TriangleInRange | C++/5.cpp:45-49 | the triangle branch stays within [lo, hi] for every phase c in [0, 1) |
| Folding.AsWrittenIdentity | C++/5.cpp:34-40 | an input inside [lo, hi] is returned unchanged, at hi through the reflection branch |
| Folding.AsWrittenReflects | C++/5.cpp:34-39 | on [hi, 2hi - lo] the result is the mirror image 2hi - x, and on (2lo - hi, lo) it is 2lo - x: a reflection, not a clamp |
| Folding.AsWrittenInRange | C++/5.cpp:29-50 | for lo < hi the result lies in [lo, hi]; for an empty range where neither reflection returned it is lo |
| Folding.FoldInRange | C++/5.cpp:29-50 | the corrected fold keeps the identity, both reflections, the range bound and the empty-range result |
| Folding.FoldSymmetric | C++/5.cpp:161-163 | folding into [-a, a] with a >= 0 always lands in [-a, a], including a = 0, both for `sc_fold` as written (truncating and floor idioms) and for the corrected fold |
| Folding.IdealRising | C++/5.cpp:45-49 | on [lo, hi) the periodic triangle wave is the identity |
| Folding.IdealFalling | C++/5.cpp:45-46 | on [hi, 2hi - lo) the triangle wave is the mirror image off hi |
| Folding.IdealPeriodEnd | C++/5.cpp:45-49 | at 2hi - lo the triangle wave is back at lo |
| Folding.IdealBelow | C++/5.cpp:45-46 | on (2lo - hi, lo) the triangle wave is the mirror image off lo |
| Folding.FoldIsIdeal | C++/5.cpp:29-50 | on a proper range the corrected fold equals the periodic triangle wave everywhere, so the reflection guards agree with the tail |
| Folding.FoldPeriodic | C++/5.cpp:33 | the corrected fold repeats with period 2(hi - lo) |
| Folding.AsWrittenNotPeriodic | C++/5.cpp:42 | as written the position is divided by `range`: folding 2.5 into [0, 1] gives 1.0 where the period-2 fold gives 0.5, the value that 0.5 folds to |
| Xorshift.Next | C++/5.cpp:20-26 | one 13/17/5 xorshift step on 32 bits maps a state to 0 exactly when the state is 0, so a non-zero seed never collapses |
| Xorshift.Iterate | C++/5.cpp:92 | k steps from a state are 0 exactly when the state is 0 |
| Xorshift.FirstSteps | C++/5.cpp:64-67 | the first step from the seed 1 gives 270369 |
| Xorshift.VoiceFreq | C++/5.cpp:68 | a drawn frequency `100 + rng % 5901` lies in [100, 6000] |
| Xorshift.Unit | C++/5.cpp:93 | `(float)rng / 0xFFFFFFFF` lies in [0, 1] and is 0 exactly for the zero state |
| GrainPool.AdvancePhase | C++/5.cpp:146-150 | a grain phase moves by its increment, less 2π only when wrapping; with wrapping it stays in [0, 2π], and without it (OpenCL/5.cpp:94-95) it never decreases |
| GrainPool.Survivors | C++/5.cpp:135-157 | one sample leaves at most as many grains as there were |
| GrainPool.Without | C++/5.cpp:155 | removing one grain from a pool removes exactly that grain from its multiset |
| GrainPool.ProcessingOrderIrrelevant | C++/5.cpp:135-157 | two pools with the same grains in any order give the same voice output and the same survivors |
| GrainPool.SwapLast | C++/5.cpp:155-156 | after the head expires, the grains left to visit are the rest of the range with the last grain moved into the freed slot |
| GrainPool.PlaySlot | C++/5.cpp:136-157 | one pass at slot k: the slot's contribution is returned, the slot is rewritten (stepped, or overwritten by the last active grain on expiry, which shrinks the range and revisits k) and nothing else changes |
| GrainPool.StepBookkeeping | C++/5.cpp:135-157 | one pass keeps the loop's accounting: the processed grains plus the unvisited slots are the pool, and the processed slots hold the survivors of the processed grains |
| GrainPool.SweepFrom | C++/5.cpp:135-157 | the rest of the grain loop from slot k never touches a slot outside [k, hi) and ends with the active range within [k, hi] |
| GrainPool.SweepFromSpec | C++/5.cpp:135-157 | from any point of the loop, the remaining passes complete the pool: the outputs add up to the pool's output and the active slots end up holding the pool's survivors |
| GrainPool.SweepSpec | C++/5.cpp:135-157 | the whole grain loop over a pool yields the pool's output and leaves its survivors in the active slots |
| GrainPool.SweepLoop | C++/5.cpp:135-159 | the grain loop with swap-remove and `g--`: every grain active at entry is processed exactly once, the output is the pool's output, the active slots hold exactly the survivors in some order, and no slot outside the pool changes |
| GrainPool.Sweep | OpenCL/5.cpp:85-102 | the voice loop returns the pool's output and the new active count, which never grows, with its slots holding the survivors of the old pool |
| GrainEngine.NewGrainOk | C++/5.cpp:110-116 | a grain allocated with frequencies in [100, 6000] Hz lasts 882 samples, starts with both phases 0 and increments in [0, 2π], is playing and does not expire on its first sample |
| GrainEngine.SurvivorsOk | C++/5.cpp:135-157 | what survives a sample of a pool of well-formed grains is well formed |
| GrainEngine.PoolOkMultiset | C++/5.cpp:155 | well-formedness of a pool depends only on which grains it holds, not on their order |
| GrainEngine.Allocated | C++/5.cpp:107-119 | a voice's pool grows by exactly one grain, the fresh one at its end, iff the edge is rising and the voice is below 512 grains; otherwise it is unchanged, so it never exceeds 512 |
| GrainEngine.VoiceMix | C++/5.cpp:161-165 | a voice's share, 0.1 times its output folded into [-abs(level), abs(level)], is at most 0.1·abs(level) in magnitude |
| GrainEngine.VoiceMixOf | C++/5.cpp:161-164 | a voice's share is computed from the output its grain loop returned |
| GrainEngine.SumBound | C++/5.cpp:165 | a sum of n terms each at most b in magnitude is at most n·b |
| GrainEngine.Shares | C++/5.cpp:132-166 | one share per voice, in voice order |
| GrainEngine.MixBound | C++/5.cpp:130-166 | the mix of n voices is at most n·0.1·abs(level) in magnitude, whatever the grains play |
| GrainEngine.MixFive | C++/5.cpp:130-166 | the mix of the five voices is at most 0.5·abs(level) |
| GrainEngine.DustRng | C++/5.cpp:92-105 | the generator steps once per sample and once more when the dust counter fires, and never reaches 0 from a non-zero state |
| GrainEngine.DustTrig | C++/5.cpp:95-105 | the trigger is 0 unless the dust fires, and then the second draw scaled to [-1, 1] |
| GrainEngine.LineStep | C++/5.cpp:123-124 | the modulation depth never exceeds 20 after the clamp, never decreases from at most 20, and is either 20 or the old value plus the slope |
| GrainEngine.TimesFive | C++/5.cpp:6 | five voices of at most b each add up to at most 5b |
| GrainEngine.SweptStep | C++/5.cpp:132-159 | sweeping voice v and nothing else moves the voice loop on by one voice |
| GrainEngine.TurnStep | C++/5.cpp:132-166 | one voice turn: the sweep moves on by one voice and the voice's share joins the running mix |
| GrainEngine.SweptAll | C++/5.cpp:132-166 | after the last voice every pool holds its survivors |
| GrainEngine.AllocatedPools | C++/5.cpp:107-119 | one allocated pool per voice |
| GrainEngine.SlotsApart | C++/5.cpp:83 | the slots of two different voices in `grains[5][512]` never overlap |
| GrainEngine.PoolOf | C++/5.cpp:135 | voice v's active grains are the first `num_active[v]` slots of its row, at most 512 |
| GrainEngine.PoolOkOf | C++/5.cpp:135-136 | the pools of well-formed slots hold only well-formed grains |
| GrainEngine.RowRewritten | C++/5.cpp:108-118 | rewriting one voice's row and count keeps every other voice's pool and keeps the slots well formed |
| GrainEngine.KeptOk | C++/5.cpp:135-157 | what a voice's grain loop leaves in its row is well formed |
| GrainEngine.RowKept | C++/5.cpp:135-157 | after one voice's grain loop its pool is the kept grains and every other row and count is as it was |
| GrainEngine.SinIncInRange | C++/5.cpp:81 | the folding sine's increment 2π·20/SR lies in [0, 2π] |
| GrainEngine.WriteFrame | C++/5.cpp:168-169 | a frame writes the same value to index 2s and 2s + 1 and nothing else |
| GrainEngine.FrameWritten | C++/5.cpp:168-169 | the buffer after frame s holds s + 1 stereo frames, each within its bound, and is unchanged beyond them |
| GrainEngine.DrawnFreq | C++/5.cpp:67-68 | voice i's frequency is the generator's state after 2i + 1 steps, mapped into [100, 6000] Hz |
| GrainEngine.DrawnModFreq | C++/5.cpp:70-71 | voice i's modulator frequency is the state after 2i + 2 steps, mapped into [100, 6000] Hz |
| GrainEngine.FirstVoiceFreq | C++/5.cpp:64-68 | the first voice of the C++ engine sounds at 4924 Hz |
| GrainEngine.DrawFreqs | C++/5.cpp:64-72 | the start-up loop draws every voice's two frequencies in order and leaves the generator at 10 steps from the seed |
| GrainEngine.DrawPair | C++/5.cpp:67-71 | one voice's two draws, carrier first, advance the generator by two steps |
| GrainEngine.Frames | C++/5.cpp:89 | the sample loop runs `num_samples` times, or not at all for a negative count |
| GrainEngine.Engine.Pool | C++/5.cpp:135 | voice v's pool has `num_active[v]` grains, at most 512 |
| GrainEngine.Engine.Pools | C++/5.cpp:132 | the five voices' pools, in voice order |
| GrainEngine.Engine.Cpp | C++/5.cpp:60-87 | the C++ engine starts with the drawn frequencies, the generator 10 steps past the seed, dust counter 1, depth 0.1, sine phase 0, `prev_trig` 0, every voice empty and wrapping on |
| GrainEngine.Engine.OpenCL | OpenCL/5.cpp:35-47 | the OpenCL engine starts with the fixed frequency tables, the generator at the seed 1, every voice empty and wrapping off |
| GrainEngine.Engine.Dust | C++/5.cpp:92-105 | the dust step: one generator step, the counter drops by one and, once at 0, is reloaded from `-log(r)/scale` while a second draw gives the trigger; the ramps are untouched |
| GrainEngine.Engine.AllocateVoice | C++/5.cpp:109-117 | a voice with room gains one fresh grain at the end of its pool, a full voice is left alone, and no other voice changes |
| GrainEngine.Engine.Allocate | C++/5.cpp:107-121 | grains are allocated only on a rising edge `trig > 0 && prev_trig <= 0`, each voice as `Allocated` says, and `prev_trig` becomes this sample's trigger |
| GrainEngine.Engine.PlayVoice | C++/5.cpp:133-159 | a voice's grain loop returns its pool's output, leaves exactly the survivors in its slots and changes no other voice |
| GrainEngine.Engine.RenderVoice | C++/5.cpp:132-166 | a voice's share of the mix is its pool's folded, scaled output; its pool becomes the survivors and no other voice changes |
| GrainEngine.Engine.Control | OpenCL/5.cpp:49-81 | the control part of a sample steps the generator, dust, trigger, depth ramp and folding sine, returns the sine before its step as the fold level, and allocates on a rising edge |
| GrainEngine.Engine.Ramp | C++/5.cpp:123-128 | the depth grows by its slope up to 20, the folding sine's phase advances (wrapped in C++, unwrapped at OpenCL/5.cpp:81), and the level is the sine before the step |
| GrainEngine.Engine.VoiceTurn | C++/5.cpp:132-166 | one turn of the voice loop adds voice v's share to the mix and sweeps its pool |
| GrainEngine.Engine.MixVoices | C++/5.cpp:130-166 | the mix is the sum of the voices' shares in voice order, every pool becomes its survivors, and the mix is at most 0.5·abs(level) |
| GrainEngine.Engine.Tick | OpenCL/5.cpp:49-108 | one sample: the control step, allocation, then the mix of every voice's survivors-producing grain loop, at most half the folding sine's magnitude |
| GrainEngine.Engine.Sample | C++/5.cpp:91-169 | one pass of the sample loop: the sample is the mix, at the stepped depth and the folding sine at the old phase, of the pools after the trigger's allocation, so it is a function of the state before the pass; it is at most half the sine's magnitude; the control fields take their step, every pool holds its survivors, and both channels of frame s take the sample while the rest of the buffer is unchanged |
| GrainEngine.Engine.Run | C++/5.cpp:89-170 | `num_samples` frames are written, each the same on both channels and at most 0.5 in magnitude when the sine is bounded by 1, and nothing past them changes |
| GrainEngine.SynthCpp | C++/5.cpp:54-171 | `synth` writes `num_samples` stereo frames with equal channels, each at most 0.5 in magnitude, and nothing beyond them |
| GrainEngine.SynthOpenCL | OpenCL/5.cpp:23-111 | the OpenCL kernel writes `num_samples` stereo frames with equal channels, each at most 0.5 in magnitude, and nothing beyond them |
| GrainHdl.PhaseInc | Python/5.py:58-59 | `2 * 3.1416 * f // SR` is the floor of the increment, pi taken as 3.1416 |
| GrainHdl.IncrementsVanish | Python/5.py:9-10 | every voice's carrier and modulator increments floor to 0, so the grain phases never move |
| GrainHdl.ParallelIsNotSequential | Python/5.py:27 | the update XORs three shifts of the same old value: from the seed 1 it gives 8225 where the sequential xorshift of C++/5.cpp gives 270369 |
| GrainHdl.FiresIff | Python/5.py:30 | `dust_counter.signed() <= 0` holds exactly for 0 and for counters with the top bit set |
| GrainHdl.NextDust | Python/5.py:29-31 | the dust counter is reloaded with `lfsr // density` when it fires and drops by one otherwise |
| GrainHdl.Trig | Python/5.py:28-32 | the trigger is 0 unless the counter fires, then `lfsr - 2^31`, a signed 32-bit value; a positive trigger needs a firing counter and `lfsr > 2^31` |
| GrainHdl.NextLine | Python/5.py:33-35 | the level is reset to 20·2^16 on the cycle after the old value exceeds it, else grows by the slope, so it overshoots by at most one `line_slope` |
| GrainHdl.SlotsDiffer | Python/5.py:20-23 | different (voice, grain) pairs name different registers |
| GrainHdl.FirstFreeFrom | Python/5.py:39-45 | the search from slot g stops at the first inactive slot of the voice, every slot before it being active, or at the row's end |
| GrainHdl.FirstFreeIs | Python/5.py:39-45 | a slot with only active slots before it, itself inactive or the row's end, is where the search stops |
| GrainHdl.NextRegs | Python/5.py:37-62 | one clock maps the register file to one of the same size, slot by slot from the old values |
| GrainHdl.SlotOf | Python/5.py:20-23 | every register of the flattened file is the slot of exactly one voice and grain |
| GrainHdl.NextRegsAt | Python/5.py:37-62 | the next register file at a slot is that slot's next registers |
| GrainHdl.OneClaimPerVoice | Python/5.py:37-45 | a rising edge activates at most one grain per voice, an inactive one with every slot before it active (`break`) |
| GrainHdl.ClaimExists | Python/5.py:37-45 | a voice gains a grain exactly when the edge is rising and the voice has an inactive slot |
| GrainHdl.ExpiredGoesIdle | Python/5.py:60-62 | an active grain whose counter is 0 is inactive after the next clock; one with a positive counter stays active with its counter one lower |
| GrainHdl.NextRegsOk | Python/5.py:41-62 | one clock keeps every register within 32 bits and every active counter within 882 |
| GrainHdl.PhasesStayZero | Python/5.py:58-59 | phase registers all at 0 stay at 0 |
| GrainHdl.FractionBinary | Python/5.py:55 | the envelope's `fraction` of an active grain is 1 on its last cycle and 0 before |
| GrainHdl.AbsInt | Python/5.py:63-64 | Python's `abs` on an int is x or -x and never negative |
| GrainHdl.VoiceOuts | Python/5.py:48-57 | one sum `out` per voice |
| GrainHdl.SilentRow | Python/5.py:51 | only active grains sound: a voice without an active grain has `out` 0 |
| GrainHdl.ClaimNone | Python/5.py:39-40 | a voice with no free slot keeps its row on a rising edge |
| GrainHdl.ClaimAt | Python/5.py:40-45 | claiming voice v's first free slot makes only that slot fresh |
| GrainHdl.NoClaims | Python/5.py:37 | without a rising edge the activation loop changes nothing |
| GrainHdl.ClaimsThenPlays | Python/5.py:37-51 | the grain loop starts from the file the activation loop left |
| GrainHdl.PlayedAll | Python/5.py:48-62 | after every row's grain loop the file is the next register file |
| GrainHdl.GrainSynth.constructor | Python/5.py:9-23 | every register starts at its declared value: `lfsr` 1, line level 6553, every slot idle |
| GrainHdl.GrainSynth.ClaimRow | Python/5.py:39-45 | voice v's activation loop makes its first slot inactive at the edge fresh and stops there |
| GrainHdl.GrainSynth.PlayRow | Python/5.py:50-62 | voice v's grain loop sums the terms of the slots active at the edge and advances exactly those |
| GrainHdl.GrainSynth.ClaimAll | Python/5.py:37-45 | on a rising edge every voice's row goes through the activation loop |
| GrainHdl.GrainSynth.PlayAll | Python/5.py:47-67 | the grain loops of all voices run and the mix is the sum of the voices' folded, scaled sums |
| GrainHdl.GrainSynth.Voices | Python/5.py:37-67 | the register file becomes the next register file of the edge (reading only old values) and the mix is the folded voice sums |
| GrainHdl.GrainSynth.Control | Python/5.py:26-36 | the scalar registers take their next values, all from the old ones |
| GrainHdl.GrainSynth.Draw | Python/5.py:27-32 | the dust countdown, trigger flag and parallel xorshift word are updated from the old word |
| GrainHdl.GrainSynth.Dust | Python/5.py:28-32 | the dust countdown and `prev_trig`, which stores `trig > 0` (line 46) |
| GrainHdl.GrainSynth.Shift | Python/5.py:27 | the xorshift word takes the parallel update of its old value |
| GrainHdl.GrainSynth.Ramp | Python/5.py:33-36 | the depth ramp with its overshoot, the folding sine's phase modulo 2^32 and the integer scale, which is 0 |
| GrainHdl.GrainSynth.Clock | Python/5.py:25-69 | one edge: every register takes its next value from the old ones, allocation only when the trigger is positive and `prev_trig` was false, and `left` and `right` both receive the same mix |
| PhaseBank.Wrap | C++/2.cpp:27-28 | the subtract-wrap step adds the increment and takes one period off once the sum reaches it, so a phase in [0, 2π) stays there when the increment is below 2π |
| PhaseBank.Inc | C++/2.cpp:27 | the increment 2π·f/48000 lies in [0, 2π) exactly for frequencies in [0, 48000), and is negative for a negative frequency |
| PhaseBank.TermBound | C++/2.cpp:37 | `osc * lfo * amplitude` with both sines in [-1, 1] is at most the amplitude's magnitude |
| PhaseBank.UnitProduct | C++/2.cpp:37 | two values in [-1, 1] have a product in [-1, 1] |
| PhaseBank.MixBound | C++/2.cpp:35-37 | with a sine bounded by 1, n oscillators sum to at most n times the amplitude's magnitude |
| PhaseBank.Step | C++/2.cpp:25-38 | the oscillator loop advances every carrier phase and then every LFO phase with the subtract-wrap, and the sum is taken over the advanced phases; entries past the 32nd are untouched |
| PhaseBank.Advance | C++/2.cpp:27-28 | one accumulator adds 2π·f/48000 and drops by 2π once it reaches 2π; no other entry changes |
| PhaseBank.MixFrame | C++/2.cpp:35-37 | the sum over the first n oscillators depends only on their entries |
| PhaseBank.StepInRange | C++/2.cpp:27-32 | advancing a bank in [0, 2π) by frequencies below the sample rate keeps it in [0, 2π) |
| ToneGenerator.OscFreqAt | C++/2.cpp:46 | oscillator i's frequency `20 + i*1980/32` is 20 Hz for i = 0 and in [20, 2000) for all |
| ToneGenerator.LfoFreqAt | C++/2.cpp:47 | LFO i's rate `0.01 + i*0.09/32` is 0.01 Hz for i = 0 and in [0.01, 0.1) for all |
| ToneGenerator.OscFreqsIncrease | C++/2.cpp:46 | the oscillator frequencies rise strictly with the index |
| ToneGenerator.LfoFreqsIncrease | C++/2.cpp:47 | the LFO rates rise strictly with the index |
| ToneGenerator.Generator.constructor | C++/2.cpp:11-21 | at program start both frequency tables are zero, the static phases are 0 and the amplitude is 0.01 |
| ToneGenerator.Generator.InitFrequencies | C++/2.cpp:44-48 | `init_frequencies` fills both tables with their linear spacing, every entry below the sample rate |
| ToneGenerator.Generator.Generate | C++/2.cpp:17-41 | one call steps both static phase arrays with the subtract-wrap, returns the modulated sum over the updated phases, and keeps phases in [0, 2π) while the frequencies are below the sample rate |
| ToneGenerator.SampleBound | C++/2.cpp:13-40 | for a sine bounded by 1 a sample is at most 32·0.01 = 0.32 in magnitude |
| ToneKernel.ToneGenerator | OpenCL/6bc1cbf7f4fdddff0a8f408bf67d40d9/1_1.cpp:9-30 | every work-item but 0 changes nothing; work-item 0 advances each phase before its sine is read, writes only `output[0]`, and that is the sum over the 32 updated phases |
| ToneKernel.KernelInRange | OpenCL/6bc1cbf7f4fdddff0a8f408bf67d40d9/1_1.cpp:17-22 | work-item 0 keeps both buffers in [0, 2π) when every frequency it reads is below the sample rate |
| ArmedWavetable.IncrementsBelowOne | C++/11.cpp:34-35 | every per-sample increment f/44100 of the carriers and the LFOs lies in [0, 1) |
| ArmedWavetable.Index | C++/11.cpp:57 | `(int)(phase * TABLE_SIZE)` of a phase in [0, 1) lies in [0, 16384) |
| ArmedWavetable.SumFrame | C++/11.cpp:49-69 | the sum over the first n oscillators depends only on their phases |
| ArmedWavetable.Wrap24 | C++/11.cpp:72 | `ap_int<24>` keeps a value's residue modulo 2^24 in [-2^23, 2^23) and leaves in-range values alone |
| ArmedWavetable.SumBound | C++/11.cpp:65-68 | with table values in [-1, 1], n oscillators sum to at most n·(1/32 + 0.01) |
| ArmedWavetable.TermBound | C++/11.cpp:65-68 | one term `osc * mod_amp` is at most 1/32 + 0.01 in magnitude |
| ArmedWavetable.NoWrap | C++/11.cpp:71-72 | for a table in [-1, 1] the 24-bit conversion never wraps: the sample is the truncated scaled sum, inside the 24-bit range |
| ArmedWavetable.Advance | C++/11.cpp:54-56 | one phase adds its increment and takes 1 off once it reaches 1, staying in [0, 1); no other phase changes |
| ArmedWavetable.AudioSynth.constructor | C++/11.cpp:30-32 | at program start the synth is not initialised, both static phase arrays are zero and nothing is written |
| ArmedWavetable.AudioSynth.Oscillators | C++/11.cpp:49-69 | every carrier and LFO phase takes its wrapped step and the sum accumulates `osc * mod_amp` at the advanced phases over all 8 oscillators, where `mod_amp = wavetable[idx_mod]*amp_scale + amp_offset` |
| ArmedWavetable.AudioSynth.Voice | C++/11.cpp:53-68 | oscillator i's phases step and stay in [0, 1), its term is read at the advanced phases, and no other oscillator changes |
| ArmedWavetable.AudioSynth.Zero | C++/11.cpp:42-45 | the first armed call zeroes every phase |
| ArmedWavetable.AudioSynth.Call | C++/11.cpp:39-78 | unarmed, nothing changes and nothing is written; the first armed call zeroes the phases, sets `initialized` and writes nothing; every later armed call advances the phases and appends the same 24-bit sample to both streams |
| FmDrone.SinIndex | C++/12.cpp:18-22 | the slot `sin_lut` reads always lies in [0, 16384): a negative truncated index is moved up by the table size; for a non-negative phase it is the truncated scaled fractional part |
| FmDrone.SinLutPeriodic | C++/12.cpp:18-22 | on non-negative phases the lookup has period 1 |
| FmDrone.Tap | C++/12.cpp:27 | the feedback bit is the XOR of bits 0, 2, 3 and 5 of the register, 0 or 1 |
| FmDrone.NextLfsr | C++/12.cpp:28 | the new register is `(lfsr >> 1) \| (bit << 31)`: its low 31 bits are the old register shifted and bit 31 is the feedback bit |
| FmDrone.NextLfsrZero | C++/12.cpp:27-28 | only the zero register steps to zero |
| FmDrone.LfsrNeverZero | C++/12.cpp:26-28 | from the seed 0xACE1 the register is non-zero at every step |
| FmDrone.FirstNoise | C++/12.cpp:26-29 | the first feedback bit from the seed is 0, so the first noise value is -1 and the register becomes 0x5670 |
| FmDrone.NoiseValue | C++/12.cpp:29 | the noise value `2*bit - 1` is exactly -1.0 or +1.0, and +1.0 exactly for bit 1 |
| FmDrone.OnePole | C++/12.cpp:41 | the low-pass step is the crossfade from the white sample to the old state by the pole |
| FmDrone.OnePoleBounded | C++/12.cpp:37-42 | with a pole in [0, 1] a state in [-1, 1] stays in [-1, 1] |
| FmDrone.NoiseSource.constructor | C++/12.cpp:26-35 | the statics start with the LFSR at its seed and both filter states 0 |
| FmDrone.NoiseSource.WhiteNoise | C++/12.cpp:25-30 | `get_white_noise` takes one LFSR step and returns -1 or +1 by the feedback bit |
| FmDrone.NoiseSource.LfNoise | C++/12.cpp:33-45 | `get_lfnoise` low-passes one white sample into `noise_state1` and returns it; the state stays in [-1, 1] when the pole is in [0, 1] |
| FmDrone.FastTanh | C++/12.cpp:48-50 | `fast_tanh` is -1 below -3 and 1 above 3 |
| FmDrone.FastTanhOdd | C++/12.cpp:51-52 | the rational approximation is odd |
| FmDrone.FastTanhEnds | C++/12.cpp:48-53 | it equals 1 at 3 and -1 at -3, meeting the clamps continuously |
| FmDrone.FastTanhBounded | C++/12.cpp:48-53 | its magnitude never exceeds 1 |
| FmDrone.RationalBound | C++/12.cpp:51-52 | on [0, 3] the rational part lies in [0, 1] |
| FmDrone.Design | C++/12.cpp:72-80 | `update_coeffs` gives `a1 = 2*a0` and `a2 = a0` |
| FmDrone.DesignUnityDc | C++/12.cpp:72-80 | every designed section has unity gain at DC: a0 + a1 + a2 = 1 + b1 + b2 |
| FmDrone.DenominatorPositive | C++/12.cpp:74 | for Q above 1/2 the normalising denominator is positive for every K, so Q = 0.707 never divides by zero |
| FmDrone.BiquadStep | C++/12.cpp:82-87 | one sample is exactly `out = in*a0 + z1; z1 = in*a1 + z2 - b1*out; z2 = in*a2 - b2*out` |
| FmDrone.BiquadDcSteady | C++/12.cpp:82-87 | a section with unity DC gain has a steady state for a constant input in which the output equals the input |
| FmDrone.DesignPassesDc | C++/12.cpp:72-87 | a designed filter passes DC unchanged from its steady state |
| FmDrone.BiquadLpf.constructor | C++/12.cpp:62-64 | the filter starts with zero state, Fc 0.5, Q 0.707 and coefficients designed from them |
| FmDrone.BiquadLpf.SetFcQ | C++/12.cpp:66-70 | `setFcQ` stores the cutoff as a fraction of the sample rate and Q, redesigns the coefficients and keeps the state |
| FmDrone.BiquadLpf.UpdateCoeffs | C++/12.cpp:72-80 | `update_coeffs` sets the coefficients to the design for K = tan(π·Fc) and changes nothing else |
| FmDrone.BiquadLpf.Process | C++/12.cpp:82-87 | `process` returns the section's output, moves the state to the section's new state and keeps the coefficients |
| FmDrone.Opposite | C++/12.cpp:124 | the damping tap is half a line ahead of the pointer, inside the line and never the pointer's own slot |
| FmDrone.Clear | C++/12.cpp:103-107 | the nested loops set every slot of both lines to 0 |
| FmDrone.SimpleFreeVerb.constructor | C++/12.cpp:99-108 | the reverb starts with room 0.6, damping 0.3, mix 0.4, comb 0.6, damping coefficient 0.7, both pointers 0 and both lines all zero |
| FmDrone.SimpleFreeVerb.SetParams | C++/12.cpp:110-116 | `setParams` sets `comb_coeff = room_size` and `damp_coeff = 1 - damp` |
| FmDrone.SimpleFreeVerb.Comb | C++/12.cpp:123-128 | one channel reads its slot, writes the feedback value there and advances its pointer by 1 mod 1000; no other slot or pointer changes |
| FmDrone.SimpleFreeVerb.Process | C++/12.cpp:118-140 | only the slot at each channel's old pointer is written, each pointer advances by 1 mod 1000 within [0, 1000), and each output is the dry/wet blend `x*(1 - mix) + reverb*mix`, so mix 0 leaves it unchanged |
| Ambient.LcgNext | C++/6.cpp:14 | the state step `rand_state * 1103515245 + 12345` wraps to a 32-bit unsigned value |
| Ambient.LcgPrev | C++/6.cpp:14 | the step run backwards also gives a 32-bit unsigned state |
| Ambient.LcgRoundTrip | C++/6.cpp:14 | stepping back undoes a step on every 32-bit state: the generator is a bijection and never loses states |
| Ambient.LcgValue | C++/6.cpp:15 | `((state / 65536) % 32768) / 32768 * 2 - 1` lies in [-1, 1) |
| Ambient.LcgValueIgnoresTopBit | C++/6.cpp:15 | bit 31 of the state never reaches the value |
| Ambient.Rng.constructor | C++/6.cpp:11 | the generator starts at 123456789 |
| Ambient.Rng.Random | C++/6.cpp:13-16 | the state takes one generator step and the result is the value of the new state |
| Ambient.LfNoise1.constructor | C++/6.cpp:27 | the given rate, the current value, target, phase and slope all 0, a valid ramp |
| Ambient.LfNoise1.Process | C++/6.cpp:29-38 | the phase advances by rate / 44100; on reaching 1 it drops by 1, the old target becomes the start and a fresh target is drawn, otherwise nothing else changes; the result is the ramp's point at the phase, a crossfade between its two ends within [-1, 1] for rates in [0, 44100) |
| Ambient.LfNoise1.Retarget | C++/6.cpp:33-35 | the old target becomes the start, the new target is the generator's next value and the slope is their difference; phase and rate unchanged |
| Ambient.RampBetween | C++/6.cpp:37 | `curr + inc * phase` with `inc = target - curr` is the crossfade of the two ends and lies in [-1, 1] |
| Ambient.SawStep | C++/6.cpp:51-52 | the phase wraps by subtracting 1 only once strictly above 1, and a phase and step in [0, 1] stay in [0, 1] |
| Ambient.SawRestsAtOne | C++/6.cpp:52 | a phase can sit at exactly 1 without wrapping (0.5 + 0.5) |
| Ambient.Saw.constructor | C++/6.cpp:47 | phase 0 at 440 Hz |
| Ambient.Saw.Process | C++/6.cpp:49-54 | the value `2 * phase - 1` comes from the phase before the step; the phase takes the saw step; with a step in [0, 1] the value lies in [-1, 1] |
| Ambient.RoomSize | C++/6.cpp:72 | the loop length `(int)(50 * room * 100)` is 2500 at room 0.5 |
| Ambient.ReverbBounded | C++/6.cpp:71-73 | with damping 0.6 and room 0.5, stored samples in [-2, 2] and an input in [-1, 1] keep the written sample in [-2, 2] and the output in [-1.6, 1.6] |
| Ambient.SimpleReverb.constructor | C++/6.cpp:65-67 | index 0, damping 0.6, room 0.5, and every one of the 10000 buffer slots 0 |
| Ambient.SimpleReverb.Process | C++/6.cpp:69-74 | only the slot at the index changes, to the input plus room times its old sample; the index advances modulo the loop length; the output is the damped old sample plus 0.8 of the input; bounded inputs keep the buffer in [-2, 2] and the output in [-1.6, 1.6] |
| Ambient.BaseFreq | C++/6.cpp:92 | a noise value in [-1, 1] gives a base frequency in [30, 2000] |
| Ambient.Drone.constructor | C++/6.cpp:84-87 | the statics constructed: the frequency noise at 6.28 Hz, six detune noises without rate, six saws and six zeroed reverbs, all distinct, both streams empty |
| Ambient.Drone.Run | C++/6.cpp:78-107 | after `num_samples` iterations (none for a non-positive count) both streams have grown by exactly that many identical samples, each within [-0.576, 0.576], and every part is still in range |
| Ambient.Drone.Append | C++/6.cpp:101-102 | the sample joins the end of both streams, which stay identical |
| Ambient.Drone.Sample | C++/6.cpp:91-102 | one sample is 0.6 times the six voices' reverb outputs, each taken from the sample its reverb reads and its saw's phase before the pass, and lies in [-0.576, 0.576] |
| Ambient.Drone.Voice | C++/6.cpp:95-100 | voice i's saw is tuned to the base frequency plus five times its detune value, its share is 0.1 times the reverb output of its old delayed sample and old saw value, within [-0.16, 0.16], and every other voice keeps its delayed sample, its saw phase and its range |
| Ambient.Drone.Delays | C++/6.cpp:70 | the six samples the reverbs read next, one per voice |
| Ambient.Drone.SawPhases | C++/6.cpp:50 | the six saws' phases, one per voice |
| Ambient.WetBound | C++/6.cpp:96-100 | k voices' shares, each a reverb output of a stored sample in [-2, 2] and a saw phase in [0, 1], add up to at most 0.16·k in magnitude |
| Ambient.Play | C++/6.cpp:95-100 | a detune noise without rate gets 0.1 Hz; the saw is tuned to the base frequency plus five times the detune value and its phase takes the saw step at that frequency; the result is 0.1 times the reverb output of the old delayed sample and the saw's old value, within [-0.16, 0.16]; the reverb writes that value plus room times the old sample at its old index and advances the index modulo its loop length |
| AmbientHdl.OkClocksIs | Python/6.py:8-13 | from phase p at a positive rate, the ramp survives exactly the largest n with `p + n * rate` below 44100 clocks before the phase assignment raises |
| AmbientHdl.DroneNoisesStop | Python/6.py:57-59 | the drone's frequency noise (rate 628) raises on its 71st clock and each detune noise (rate 10) on its 4410th |
| AmbientHdl.LfNoise1.constructor | Python/6.py:6-9 | curr, target, phase and inc all 0: a flat ramp |
| AmbientHdl.LfNoise1.Clock | Python/6.py:11-19 | the reload branch never runs because the phase register holds values below 44100 only; curr, target and inc never change; the clock succeeds exactly when `phase + rate` still fits; the output takes `curr + inc * (phase // 441)` on the old registers, so a flat ramp outputs 0 |
| AmbientHdl.SawPhase | Python/6.py:29 | `(phase + freq) % 1000` under Python's modulo lies in [0, 1000) |
| AmbientHdl.SawOut | Python/6.py:30 | `(phase * 2 // 1000) - 1` is -1 for the first half of the phase range and 0 for the second, never a ramp |
| AmbientHdl.DroneSawsStuck | Python/6.py:29-61 | the saws are fed a frequency of 0, so their phase never moves, and their first output, -1, does not fit the 16-bit unsigned `saw_out` signal |
| AmbientHdl.Saw.constructor | Python/6.py:25 | phase 0 |
| AmbientHdl.Saw.Clock | Python/6.py:27-30 | the phase steps by `freq` modulo 1000 and the output takes the saw of the old phase |
| AmbientHdl.SimpleReverb.constructor | Python/6.py:37-38 | 10000 zero words and index 0 |
| AmbientHdl.SimpleReverb.Clock | Python/6.py:40-44 | the output takes the old slot plus half the input, the slot at the index takes the input plus half the old output, and the index steps modulo roomsize; it raises with nothing changed exactly when roomsize is 0, the new word does not fit 16 bits, or the new index leaves [0, 10000) |
| AmbientHdl.MixSumBounded | Python/6.py:67-69 | with 16-bit reverb outputs, the sum of the first k `rev_out[i] // 10` lies in [0, k * 6553] |
| AmbientHdl.Mix | Python/6.py:65-72 | `sound` is the sum of the six `rev_out[i] // 10`, floor-halved; both outputs equal it; with 16-bit inputs it lies in [0, 19659], inside the 16-bit `sound` signal |
| Perc.Inc | C++/2576ab55f58d9d1a433590730a84a4b0/DSProutineCPP09092025.cpp:31-37 | instrument i's increment `2*pi*(32 + i)/SR`, at the 32 to 47 Hz the comment intends (the `ap_fixed<16,4>` wrap is under "Left out"), lies in (0, 2*pi) |
| Perc.Advance | C++/2576ab55f58d9d1a433590730a84a4b0/DSProutineCPP09092025.cpp:37-38 | the phase wraps by 2*pi only once strictly above 2*pi, and a phase and increment in [0, 2*pi] stay there |
| Perc.EnvStep | C++/2576ab55f58d9d1a433590730a84a4b0/DSProutineCPP09092025.cpp:33-48 | a trigger resets the envelope so it rises to one attack step; below 1 it rises by 100/SR; otherwise it falls by 1/SR, clamped at 0 |
| Perc.EnvStepInRange | C++/2576ab55f58d9d1a433590730a84a4b0/DSProutineCPP09092025.cpp:33-48 | an envelope in [0, 1 + 100/SR] stays there |
| Perc.AttackRamp | C++/2576ab55f58d9d1a433590730a84a4b0/DSProutineCPP09092025.cpp:33-44 | k calls after a trigger, for k * 100 <= SR, the envelope is exactly k * 100 / 44100 |
| Perc.AttackStep | C++/2576ab55f58d9d1a433590730a84a4b0/DSProutineCPP09092025.cpp:43-44 | below 1, one more call adds 100/SR |
| Perc.ChainFrame | C++/2576ab55f58d9d1a433590730a84a4b0/DSProutineCPP09092025.cpp:50-55 | the shared slot and the sum after k instruments depend only on the first k phases and envelopes |
| Perc.SignalBounded | C++/2576ab55f58d9d1a433590730a84a4b0/DSProutineCPP09092025.cpp:40-50 | a sine within [-1, 1] times an envelope in range is within the envelope bound |
| Perc.ChainBounded | C++/2576ab55f58d9d1a433590730a84a4b0/DSProutineCPP09092025.cpp:50-55 | with feedback 0.7, a slot starting within (1 + 100/SR) / 0.3 stays there, and the sum over k instruments stays within k sixteenths of that bound |
| Perc.Synth.constructor | C++/2576ab55f58d9d1a433590730a84a4b0/DSProutineCPP09092025.cpp:14-23 | every phase, envelope and delay slot 0, both counters 0, the stream empty |
| Perc.Synth.Tick | C++/2576ab55f58d9d1a433590730a84a4b0/DSProutineCPP09092025.cpp:9-62 | one call: each phase and envelope takes its step (retriggered when the counter is 0), only the delay slot at the index changes, to the chain of the sixteen signals, both counters advance around their cycles, and the chain's sum is appended to the stream; with a sine bounded by 1 the delay line and the sample stay within the bound |
| Perc.Synth.Mix | C++/2576ab55f58d9d1a433590730a84a4b0/DSProutineCPP09092025.cpp:26-56 | the instrument loop leaves every phase and envelope stepped, the shared slot at the chain's value, every other slot unchanged, and returns the chain's sum |
| Perc.Synth.Feed | C++/2576ab55f58d9d1a433590730a84a4b0/DSProutineCPP09092025.cpp:50-55 | instrument i writes its signal plus 0.7 of the slot back and adds a sixteenth of the value read to the sum |
| Perc.Synth.Instrument | C++/2576ab55f58d9d1a433590730a84a4b0/DSProutineCPP09092025.cpp:31-48 | instrument i's phase and envelope take their steps and no other instrument's change |
| Perc.Synth.Settle | C++/2576ab55f58d9d1a433590730a84a4b0/DSProutineCPP09092025.cpp:50-56 | after the loop the slot and the sum lie within the bound |
| SineSweep.Freq | C++/1.cpp:44 | the frequency is the start at t = 0 and the end at t = 60 s |
| SineSweep.FreqBetween | C++/1.cpp:44 | within the 60 seconds the frequency lies between the start and the end, whichever way the sweep goes |
| SineSweep.PhaseGrows | C++/1.cpp:45 | within the 60 seconds and for non-negative frequencies a phase never goes down: it is never wrapped |
| SineSweep.Tick | C++/1.cpp:39-47 | one sample: each of the 32 phases advances by the increment of its frequency at time i / sample_rate, and the mix is the sum of 0.06 * sin of the new phases |
| SineSweep.Glide | C++/1.cpp:44-45 | one oscillator's phase takes its increment and no other phase changes |
| SineSweep.AudioSynth | C++/1.cpp:16-51 | every call restarts its phases from 0 and writes exactly the slots below num_samples, slot i receiving the mix after sample i; no later slot changes |
| ToneHdl.OscFreqRises | Python/1.py:15 | the oscillator frequencies `int(20 + i * 1980 / 32)` rise strictly from 20 to 1938 |
| ToneHdl.LfoFreqRange | Python/1.py:16 | the LFO frequencies are 135 * i phase units: LFO 0 never moves and every other one steps by 135 to 4185, not the 0.01 to 0.1 Hz its comment announces |
| ToneHdl.IndexAsWrittenIsZero | Python/1.py:36-37 | the index as written, `(phase >> 24)[:8]`, is 0 for every 32-bit phase |
| ToneHdl.AsWrittenIsSilent | Python/1.py:36-40 | with the index as written every lookup reads entry 0, which is 0, so the whole sum is 0 whatever the phases |
| ToneHdl.LutIndex | Python/1.py:36-37 | the intended index, the top byte of the phase: in [0, 256) and the byte b with `b * 2^24 <= phase < (b + 1) * 2^24` |
| ToneHdl.ProductBound | Python/1.py:40 | two table entries within 2^15 have a product within 2^30 |
| ToneHdl.MagnitudeBound | Python/1.py:40 | two magnitudes within 2^15 have a product within 2^30 |
| ToneHdl.TermBound | Python/1.py:40 | one oscillator's share `(osc * lfo * 327) >> 30` lies in [-327, 327] |
| ToneHdl.SumBound | Python/1.py:29-40 | the sum over k oscillators lies within k * 327, so all 32 fit the signed 16-bit output |
| ToneHdl.Synth.constructor | Python/1.py:19-21 | all phases and LFO phases 0, output 0, the table and the port as given |
| ToneHdl.Synth.Clock | Python/1.py:27-42 | every phase and LFO phase steps by its frequency modulo 2^32; the output takes the sum of the terms read at the top byte of the phases before the edge (the intended index; as written the output is always 0, see Findings) and stays within 16 signed bits; the port is never driven |
| SineOscHdl.PhaseInc | Python/11.py:21 | `(freq * 1024) // 44100` is the largest increment whose 44100-fold does not pass `freq * 1024` |
| SineOscHdl.StallsBelow44 | Python/11.py:21 | a non-negative frequency gets increment 0 exactly when it is at most 43 Hz |
| SineOscHdl.LutIndex | Python/11.py:27 | `phase[32:22]` lies in [0, 1024) and is the i with `i * 2^22 <= phase < (i + 1) * 2^22` |
| SineOscHdl.Output | Python/11.py:33 | `(sine_val * amplitude) // 32767` lies within a non-negative amplitude, and is 0 for a zero table entry |
| SineOscHdl.SineOscillator.constructor | Python/11.py:14-16 | phase, increment and index all 0, with the given table |
| SineOscHdl.SineOscillator.SetFreq | Python/11.py:18-21 | the increment takes `PhaseInc(freq)` when that fits 32 unsigned bits; otherwise the assignment fails and nothing changes; phase and index are untouched |
| SineOscHdl.SineOscillator.Clock | Python/11.py:23-27 | the phase steps by the increment modulo `1024 << 22`, and the index latches the top 10 bits of the phase before the edge |
| SineOscHdl.SineOscillator.Out | Python/11.py:30-33 | the output lies within a non-negative amplitude and is 0 while the index is 0 |
| SineOscHdl.SumBound | Python/11.py:49 | a sum of values each within an amplitude lies within that many amplitudes |
| SineOscHdl.Mix | Python/11.py:46-50 | patch1's mix is the sum of the eight outputs floor-divided by 8 |
| SineOscHdl.MixBound | Python/11.py:46-50 | eight outputs each within an amplitude give a mix within that amplitude |
| SineOscHdl.Patch1Ranges | Python/11.py:40-44 | patch1's outputs lie within 1023, inside their signals' range, and its increments are 0, 0, 1, 1, 2, 2, 3, 4, so the 20 Hz and 40 Hz voices never advance |
| SineOscHdl.SlowVoiceSilent | Python/11.py:162-165 | with an increment of at most 4, the index and the output stay 0 for the first 2^20 clocks, which covers the 44100 clocks patch1's testbench runs |
| PercHdl.PhaseInc | Python/3.py:26-27 | instrument i's increment `((32 + i) << 16) // 44100` lies in [47, 69] |
| PercHdl.LutIndex | Python/3.py:34-35 | the slice `phase[31:24]` holds seven bits: the index lies in [0, 128), only the first half of the table, and is the i with `i * 2^24 <= phase % 2^31 < (i + 1) * 2^24` |
| PercHdl.TopBitIgnored | Python/3.py:34 | bit 31 of the phase never reaches the index |
| PercHdl.NextPhases | Python/3.py:32 | every phase moves by exactly its increment |
| PercHdl.EnvNext | Python/3.py:29-42 | the trigger's reset and the clamp never take effect: below 1 the envelope rises by 100/SR, otherwise it falls by 1/SR |
| PercHdl.EnvInRange | Python/3.py:37-42 | an envelope in [0, 1 + 100/SR) stays strictly inside that range and never returns to 0 |
| PercHdl.NextEnvs | Python/3.py:37-42 | every envelope takes its attack or release step |
| PercHdl.PhasesAfter | Python/3.py:10-32 | the phases k cycles after reset, one per instrument |
| PercHdl.PhasesAfterIs | Python/3.py:27-32 | k cycles from reset leave instrument i's phase at k times its increment |
| PercHdl.Synth.constructor | Python/3.py:10-16 | all phases, envelopes, delay slots and counters 0, with the given table |
| PercHdl.Synth.Reset | Python/3.py:21 | the reset puts every driven register back to its initial value |
| PercHdl.Synth.Clock | Python/3.py:21-53 | when some phase would overflow 32 bits the clock raises and nothing changes; otherwise every phase moves by its increment, every envelope takes its step, only the slot read this cycle changes, to instrument 15's signal plus 0.7 of its old value, both counters advance around their cycles, and the output is the slot's old value |
| PercHdl.Synth.Instrument | Python/3.py:26-44 | instrument i's next phase and envelope and its signal, all computed from the registers as they were at the edge |
| PercHdl.Synth.Commit | Python/3.py:47-53 | the cycle's next values all take effect and every register stays in range |
| FmHdl.IncFor | Python/9.py:45 | the masked increment lies in [0, 2^32) and differs from the unmasked one by a multiple of 2^32 |
| FmHdl.ModIncWraps | Python/9.py:44-45 | the extra factor 1024 puts the increment of every frequency the LFOs can pick, 46 to 48 Hz, in [2^32, 2^33), so the mask drops its top bit |
| FmHdl.IndexAsWritten | Python/9.py:43-51 | the slice `phase[31:16]` is a 15-bit index in [0, 32768), far past the 1024-entry table |
| FmHdl.LfoLookupOverruns | Python/9.py:42-43 | every LFO choice's increment lies in [2^26, 2^31), so after one divider cycle from phase 0 the 15-bit index is at least 1024 and the lookup as written overruns the table |
| FmHdl.TableIndex | Python/9.py:43-51 | the intended index, the phase's top 10 bits, lies in the table and is the i with `i * 2^22 <= phase < (i + 1) * 2^22` |
| FmHdl.ModFreq | Python/9.py:44 | with the base frequency in [47, 48) and an LFO value within 16 bits, the modulated frequency is 46, 47 or 48 |
| FmHdl.NextLfo | Python/9.py:42 | every LFO phase after a divider cycle stays within 32 bits |
| FmHdl.NewIncs | Python/9.py:43-45 | the increments a divider cycle writes stay within 32 bits |
| FmHdl.NextAcc | Python/9.py:46 | every oscillator phase after a divider cycle stays within 32 bits |
| FmHdl.MixSumBound | Python/9.py:49-52 | the partial mix over k oscillators lies within k * 32767 |
| FmHdl.Mixed | Python/9.py:54 | `mixed // 8` is the floor quotient of the mix by 8 and lies within the 16-bit signed range |
| FmHdl.LfoIncs | Python/9.py:29-42 | one LFO increment per oscillator |
| FmHdl.Synth.constructor | Python/9.py:23-31 | all phases, the counter and the mixed signal 0; the LFO increments from the chosen frequencies; the initial increment list as built |
| FmHdl.Synth.Reset | Python/9.py:33 | every signal back to its initial value, while the `phase_inc` list, not a signal, keeps its values |
| FmHdl.Synth.Clock | Python/9.py:33-54 | the counter counts up and wraps after 2266; off the divider cycle nothing else changes; on it the LFOs step, `phase_inc` takes the increments picked from the old LFO phases, the oscillators step by those new increments, and the mixed signal takes the mix of the old oscillator phases |
| FmHdl.Synth.Update | Python/9.py:41-46 | `phase_inc` takes the new increments in place; the registers are unchanged; the LFO and oscillator phases' next values are returned |
| FmHdl.Synth.Retune | Python/9.py:43-45 | one oscillator's new increment, from its LFO's table value |
| FmHdl.Synth.MixPhases | Python/9.py:49-52 | the sum of the table values at the oscillator phases |
| FmHdl.Synth.Outputs | Python/9.py:57-59 | both outputs equal the mixed signal, which fits their 16-bit signed range |
| SweepHdl.LutAddr | Python/89876c571a5a12b48602f010d2ac86d7/pythonMyHDLdsp07092025.py:36 | the slice `phase[31:23]` lies in [0, 256) and is the address of the phase's low 31 bits: the i with `i * 2^23 <= phase % 2^31 < (i + 1) * 2^23` |
| SweepHdl.TopBitIgnored | Python/89876c571a5a12b48602f010d2ac86d7/pythonMyHDLdsp07092025.py:36 | bit 31 of the phase never reaches the address |
| SweepHdl.Term | Python/89876c571a5a12b48602f010d2ac86d7/pythonMyHDLdsp07092025.py:38 | `sine_val // 16` of a 12-bit entry is its floor quotient and lies in [-128, 127] |
| SweepHdl.MixBound | Python/89876c571a5a12b48602f010d2ac86d7/pythonMyHDLdsp07092025.py:32-40 | the mix over k oscillators lies in [-128 k, 127 k], so all 32 fit the 16-bit signed output |
| SweepHdl.NextIncs | Python/89876c571a5a12b48602f010d2ac86d7/pythonMyHDLdsp07092025.py:34 | one grown increment per oscillator |
| SweepHdl.NextPhases | Python/89876c571a5a12b48602f010d2ac86d7/pythonMyHDLdsp07092025.py:35 | one advanced phase per oscillator |
| SweepHdl.RampClosedForm | Python/89876c571a5a12b48602f010d2ac86d7/pythonMyHDLdsp07092025.py:34-35 | after k clocks the increment is `inc0 + k * delta` and the phase is `p0 + k * inc0 + delta * k * (k - 1) / 2`: a linear frequency sweep |
| SweepHdl.Synth.constructor | Python/89876c571a5a12b48602f010d2ac86d7/pythonMyHDLdsp07092025.py:20-22 | phases and increments 0, output 0, `delta_inc` as given |
| SweepHdl.Synth.Reset | Python/89876c571a5a12b48602f010d2ac86d7/pythonMyHDLdsp07092025.py:30 | the driven registers back to 0; `delta_inc` kept |
| SweepHdl.Synth.Clock | Python/89876c571a5a12b48602f010d2ac86d7/pythonMyHDLdsp07092025.py:30-40 | every increment grows by its delta, every phase advances by its old increment, and the output takes the mix at the old phases; the clock raises with nothing changed exactly when some sum leaves 32 unsigned bits |
| SweepHdl.Synth.Voice | Python/89876c571a5a12b48602f010d2ac86d7/pythonMyHDLdsp07092025.py:34-38 | one oscillator's two sums and its share of the mix, from the registers at the edge |
| SweepHdl.FitsAll | Python/89876c571a5a12b48602f010d2ac86d7/pythonMyHDLdsp07092025.py:34-35 | when every sum fits, the next increments and phases all lie in 32 unsigned bits |
| SweepHdl.ZeroStateStays | Python/89876c571a5a12b48602f010d2ac86d7/pythonMyHDLdsp07092025.py:20-40 | with `delta_inc` left at 0, from the all-zero state a clock succeeds and outputs 0: the block is silent |
| SweepHdl.ZeroMix | Python/89876c571a5a12b48602f010d2ac86d7/pythonMyHDLdsp07092025.py:36-38 | oscillators all at phase 0 mix to 0 |
| ThreeCarrierHdl.WalkNext | Python/13.py:48-59 | a random-walk step is taken only when the new value lies in the register's range; otherwise the value is kept |
| ThreeCarrierHdl.WalkStays | Python/13.py:48-59 | a value in range stays in range whatever the step |
| ThreeCarrierHdl.Deviation | Python/13.py:68 | `(mod_signal * mod_index) >> 15` of non-negative registers is non-negative |
| ThreeCarrierHdl.CarrierFreq | Python/13.py:69 | a carrier's frequency is never below its note |
| ThreeCarrierHdl.CarrierFreqRange | Python/13.py:68-69 | with a 32-bit modulator and the index in [20, 81), a carrier's frequency lies between its note and the note plus 40960 Hz |
| ThreeCarrierHdl.GainShrinks | Python/13.py:101 | the gain `(s * 3) // 10` shrinks every positive value and keeps 0 at 0, so the saturation register, starting at 0, stays there |
| ThreeCarrierHdl.NextCarriers | Python/13.py:67-73 | one new sample per carrier |
| ThreeCarrierHdl.Synth.constructor | Python/13.py:15-38 | every register 0 except the modulation frequency and index, which start at the given in-range values |
| ThreeCarrierHdl.Synth.Clock | Python/13.py:40-107 | the clock succeeds exactly when the modulator's, carriers' and sub oscillator's new samples fit 32 unsigned bits, with nothing changed otherwise; then each counter counts up to its limit and returns to 0, a counter at its limit lets its walk step within range, the oscillators take their new samples, the mix is the floor third of the old carriers, the filter takes half the old mix plus the old sub, the saturation register takes 3/10 of its old value (the clamp is overridden), and the reverb and output registers pass their inputs on by one clock |
| ThreeCarrierHdl.Synth.Commit | Python/13.py:44-107 | every next value takes effect and every register stays in range |
| ThreeCarrierHdl.Synth.Chain | Python/13.py:76-101 | the mix, the combination and the gain stage on the old registers, each within 32 unsigned bits; the clamp's result is overwritten |
| ThreeCarrierHdl.Synth.Lfos | Python/13.py:43-59 | both counters count up to their limits and return to 0; at a limit the walk takes a step that stays in range |
| ThreeCarrierHdl.Synth.Oscillators | Python/13.py:62-81 | the modulator, the three carriers and the sub oscillator each take their sample from their own previous sample plus their increment |
| ThreeCarrierHdl.Sample | Python/13.py:62-81 | the increment plus the register modulo 2^32, read as a fraction of a turn, gives the sine sample scaled and truncated toward zero |

## Left out

- Floating point: `float`, `ap_fixed<16,4>`, `ap_fixed` stream words and MyHDL `fixbv` are modelled as reals, and their rounding, quantisation and saturation are not emulated. In particular `fixed_t` in `C++/2.cpp` cannot hold the frequencies 20 to 2000 it is given, and the `fixbv` range checks of `Python/3.py` are not applied. Likewise the percussion bank's `ap_fixed<16,4> freq = 32 + i` (`C++/2576ab55f58d9d1a433590730a84a4b0/DSProutineCPP09092025.cpp:31`) holds only [-8, 8), so its sixteen frequencies wrap to 0 to 7 and -8 to -1 rather than the 32 to 47 Hz the comment intends. Its release step `1.0 / SR` (line 46) is below the type's resolution of 2^-12 and quantises to 0, and its attack step `100.0 / SR` to 9 * 2^-12. `Perc` models the intended real values.
- Transcendentals: `sinf`, `cosf`, `logf`, `expf`, `tanf`, `hls::sinf` and `math.sin` are function parameters, and the sine tables they build are parameters constrained only by their ranges.
- Randomness: `np.random.randint`, `random.randint`, `random.choice` and `np.random.uniform` are inputs to the operations that use them.
- I/O: HLS streams and AXI ports become appends to a sequence or writes to an array. HLS pragmas, MyHDL testbenches, clock generators, the WAV file writing and Verilog conversion are not modelled.
- The `always_seq` reset input is not a signal sampled on each clock. `FmHdl`, `PercHdl` and `SweepHdl` model it as a separate `Reset` method. `GrainHdl.GrainSynth` (`Python/5.py:24`), `ToneHdl.Synth` (`Python/1.py:27`), `AmbientHdl.LfNoise1`, `AmbientHdl.Saw` and `AmbientHdl.SimpleReverb` (`Python/6.py:11`, `:27`, `:40`) and `ThreeCarrierHdl.Synth` (`Python/13.py:40`) have no reset method; each is modelled from its constructor's state only.
- `OpenCL/2.cpp` and `OpenCL/3.cpp` are not part of this model. Their point is work-items racing on shared buffers, and this model is sequential.
- The OpenCL kernel `OpenCL/6bc1cbf7f4fdddff0a8f408bf67d40d9/1_1.cpp` is modelled for one work-item id at a time. Aliasing between the `phase`, `lfo_phase` and `output` buffers is excluded by requiring them distinct.
- The glue functions `fm_synth1` to `fm_synth3` of `C++/12.cpp` are not modelled: line 293 assigns a `void` result and does not compile. Only the blocks they combine are modelled.
- `C++/6.cpp` declares no default constructor for `LFNoise1`, so `detune_noise[NUM_OSC]` does not compile. Those noises are modelled with rate 0, which the `rate == 0` test on line 95 evidently expects.
- Ambient.Drone.Run states the number of samples written, their equality on both channels and their bound, but not their values. `Ambient.Drone.Sample` states each value, but only as a function of the state before it. The run's samples would need every reverb buffer and noise traced from sample to sample.
- Ambient.Play and Ambient.Drone.Voice do not restate the new state of the detune noise and of the generator. `Ambient.LfNoise1.Process` and `Ambient.Rng.Random` state it.
- `Python/6.py` models each block on its own plus the `AmbientDrone` mix. The elaboration-time wiring is stated only by `AmbientHdl.DroneSawsStuck` and `AmbientHdl.DroneNoisesStop`; none of it is simulated. The `always_comb` of lines 65-72 both drives and reads `sound`, which MyHDL rejects at elaboration. `AmbientHdl.Mix` models the sum that block evidently computes.
- `Python/11.py`: only `patch1` is modelled. `patch2` to `patch4` create `sine_oscillator` instances inside `always_comb` processes, which gives no fixed hardware to model. The `sample_rate` and `lut_size` parameters keep their defaults.
- `Python/9.py`:
  - `BASE_FREQ`, the `choice` of LFO frequencies and the initial `phase_inc` list are construction parameters.
  - The oscillator model reads the table at the intended 10-bit index (`FmHdl.TableIndex`), not through the as-written 15-bit slice; see Findings. The members that read through that index are `FmHdl.NewIncs`, `FmHdl.Mixed`, `FmHdl.Synth.Clock`, `FmHdl.Synth.Update`, `FmHdl.Synth.Retune` and `FmHdl.Synth.MixPhases`.
- `Python/89876c571a5a12b48602f010d2ac86d7/pythonMyHDLdsp07092025.py` never drives `delta_inc`. `SweepHdl.Synth.constructor` takes its value as a parameter, which stands for the host interface its comments describe.
- `Python/1.py`: the port `output` is a field that `Clock` never writes, because line 21 rebinds the name to a local signal.
- ToneHdl.Synth.Clock: its output is the sum read at the intended top-byte index, not the as-written `(phase >> 24)[:8]` (`Python/1.py:36-37`), which makes every lookup read entry 0 and the output always 0. `ToneHdl.AsWrittenIsSilent` states the as-written behaviour; see Findings.
- `Python/13.py`: `intbv(0, min=50)` at line 15 and `intbv(0, min=20)` at line 16 raise at construction. ThreeCarrierHdl.Synth.constructor instead takes in-range starting values for `mod_freq` and `mod_index`.
- `Python/5.py`:
  - `sin_lookup`, `cos_lookup` and `sc_fold_impl` are never defined, so they are parameters.
  - The `trig = (lfsr - (1<<31)).signed()` on line 32 calls `.signed()` on a plain int. It is modelled as the evident value `lfsr - 2^31`.
- GrainEngine.VoiceMix: folds each voice with the corrected `Folding.Fold`, whose period is `2 * (hi - lo)`, not with `sc_fold` as written at `C++/5.cpp:42` (called at line 163) and `OpenCL/5.cpp:13` (called at line 105), whose period is `hi - lo`. Findings gives the as-written fold, and `Folding.FoldSymmetric` bounds both.
- GrainEngine.VoiceMixOf: states the share through the corrected fold, as `GrainEngine.VoiceMix` does.
- GrainEngine.Shares: is built from `GrainEngine.VoiceMix`, so it uses the corrected fold.
- GrainEngine.MixBound: bounds the mix built on the corrected fold. The same bound holds for the as-written fold, since `Folding.FoldSymmetric` states it for both, but no mix is defined on the as-written fold.
- GrainEngine.MixFive: the same, for the five voices.
- Folding.FoldSymmetric: is the one member stating the bound for both the as-written and the corrected fold; the engine members above use only the corrected one.
- GrainEngine.Engine.RenderVoice: folds the voice's output with the corrected fold rather than `sc_fold` as written.
- GrainEngine.Engine.VoiceTurn: adds a share computed with the corrected fold.
- GrainEngine.Engine.MixVoices: sums shares computed with the corrected fold.
- GrainEngine.Engine.Tick: its sample is the mix on the corrected fold, not the value `sc_fold` as written gives once a voice's output leaves the two reflections.
- GrainEngine.Engine.Sample: the same as `GrainEngine.Engine.Tick`, whose sample it writes.
- GrainEngine.Engine.Run: states the number of frames written, their equality on both channels and their bound, but not their values. After each sample `Sample` fixes the grain pools only up to the order of their grains, since swap-removal reorders them, so the values of later samples are not a function the model states. `GrainEngine.Engine.Sample` states each value from the state before it.
- GrainEngine.SynthCpp: states the same as `GrainEngine.Engine.Run` on the C++ engine's start state: frame count, stereo and bound, not the values.
- GrainEngine.SynthOpenCL: the same, on the OpenCL kernel's start state.
- FmDrone.BiquadLpf.SetFcQ and FmDrone.BiquadLpf.UpdateCoeffs require a non-zero `q` and denominator, because a float division by zero yields an infinity or NaN, which reals cannot represent.
- SineSweep.AudioSynth, SineSweep.Tick and SineSweep.Glide require a non-zero sample rate, for the same reason.
- Out-of-range list indexing in MyHDL raises `IndexError`. Where that can happen the model either returns a failed clock with nothing changed, or proves that it happens (`FmHdl.LfoLookupOverruns`).

## Findings

| source | as written | input that shows it | evidently intended | confidence | as-written member | corrected member |
|---|---|---|---|---|---|---|
| C++/5.cpp:42 | `x /= range` maps the position onto a triangle wave of period `hi - lo` | `sc_fold(2.5, 0, 1)` returns 1.0, while the reflection gives 0.5 and `sc_fold(0.5, 0, 1)` is 0.5 | divide by `range2`, so the fold has period `2 * (hi - lo)` and agrees with the reflections | not executed | Folding.AsWrittenNotPeriodic | Folding.FoldPeriodic |
| Python/1.py:36-37 | `(phase >> 24)[:8]` keeps bits 8 and up of the shifted phase, which is 0 for every 32-bit phase | any phase, e.g. `0xFF000000`: the index is 0, the table entry is `sin(0) = 0`, and the output stays 0 | the top byte `(phase >> 24) % 256`, with the sum then bounded by 32 * 327 | not executed | ToneHdl.AsWrittenIsSilent | ToneHdl.SumBound |
| Python/9.py:43-51 | the slice `[31:32-BIT_WIDTH]` is a 15-bit index into a 1024-entry table | the LFO at choice 1.57 Hz after one divider cycle from 0: its increment is at least 2^26, so the index is at least 1024 and raises `IndexError` | the top 10 bits `phase[32:22]`, always inside the table | not executed | FmHdl.LfoLookupOverruns | FmHdl.TableIndex |
