/** The OpenCL `tone_generator` kernel
    (OpenCL/6bc1cbf7f4fdddff0a8f408bf67d40d9/1_1.cpp): the bank of PhaseBank
    run by work-item 0 alone over global buffers, its sum written to output[0]. */
module ToneKernel {
  import opened Numeric
  import opened PhaseBank

  const AMPLITUDE: real := 0.01

  /** One work-item's run of the kernel. Every work-item but 0 does nothing;
      work-item 0 advances the first 32 entries of both phase buffers and writes
      only output[0], which becomes the sum over the advanced phases. The
      buffers the kernel writes are distinct from each other and from the
      frequency buffers it reads. */
  method ToneGenerator(gid: int, output: array<real>, oscFreq: array<real>, lfoFreq: array<real>,
                       phase: array<real>, lfoPhase: array<real>, sin: real -> real)
    requires output.Length >= 1 && oscFreq.Length >= NUM_OSC && lfoFreq.Length >= NUM_OSC
    requires phase.Length >= NUM_OSC && lfoPhase.Length >= NUM_OSC
    requires phase != lfoPhase && output != phase && output != lfoPhase
    requires oscFreq != phase && oscFreq != lfoPhase && oscFreq != output
    requires lfoFreq != phase && lfoFreq != lfoPhase && lfoFreq != output
    modifies output, phase, lfoPhase
    ensures gid != 0 ==> output[..] == old(output[..]) && phase[..] == old(phase[..]) && lfoPhase[..] == old(lfoPhase[..])
    ensures gid == 0 ==> forall i :: 0 <= i < NUM_OSC ==> phase[i] == Wrap(old(phase[i]), Inc(oscFreq[i]), TWO_PI_F)
    ensures gid == 0 ==> forall i :: 0 <= i < NUM_OSC ==> lfoPhase[i] == Wrap(old(lfoPhase[i]), Inc(lfoFreq[i]), TWO_PI_F)
    ensures forall i :: NUM_OSC <= i < phase.Length ==> phase[i] == old(phase[i])
    ensures forall i :: NUM_OSC <= i < lfoPhase.Length ==> lfoPhase[i] == old(lfoPhase[i])
    ensures gid == 0 ==> output[0] == Mix(phase[..], lfoPhase[..], AMPLITUDE, sin, NUM_OSC)
    ensures forall i :: 1 <= i < output.Length ==> output[i] == old(output[i])
  {
    if gid == 0 {
      var sum := Step(phase, lfoPhase, oscFreq[..], lfoFreq[..], AMPLITUDE, sin);
      output[0] := sum;
    }
  }

  /** Work-item 0 keeps both banks in [0, 2*pi) when every frequency it reads is
      below the sample rate. */
  lemma KernelInRange(before: seq<real>, after: seq<real>, fs: seq<real>)
    requires |before| == |after| && |fs| >= |before| >= NUM_OSC && InRange(before) && Audible(fs)
    requires forall i :: 0 <= i < NUM_OSC ==> after[i] == Wrap(before[i], Inc(fs[i]), TWO_PI_F)
    requires forall i :: NUM_OSC <= i < |after| ==> after[i] == before[i]
    ensures InRange(after)
  {
    forall i | 0 <= i < |after|
      ensures 0.0 <= after[i] < TWO_PI_F
    {
      if i < NUM_OSC {
        assert 0.0 <= Inc(fs[i]) < TWO_PI_F;
      }
    }
  }
}
