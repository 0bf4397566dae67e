/** The 13/17/5 xorshift generator of the granular engines (`lfsr_next` in
    C++/5.cpp, written out inline in the OpenCL kernel) and the voice
    frequencies drawn from it. */
module Xorshift {

  /** The seed both engines start from. */
  const SEED: bv32 := 1

  /** One step: `s ^= s << 13; s ^= s >> 17; s ^= s << 5` on 32 bits. Every
      step is invertible, so only the zero state maps to zero: seeded with a
      non-zero value the stream never collapses. */
  function Next(s: bv32): (r: bv32)
    ensures r == 0 <==> s == 0
  {
    var a := s ^ (s << 13);
    var b := a ^ (a >> 17);
    b ^ (b << 5)
  }

  /** The state after k steps from s. */
  function Iterate(s: bv32, k: nat): (r: bv32)
    ensures r == 0 <==> s == 0
  {
    if k == 0 then s else Next(Iterate(s, k - 1))
  }

  /** The first steps from the seed, evaluated. */
  lemma FirstSteps()
    ensures Next(SEED) == 270369
    ensures Iterate(SEED, 1) == 270369
  {
  }

  /** A voice frequency `100 + (rng % 5901)`: always within [100, 6000] Hz. */
  function VoiceFreq(s: bv32): (f: real)
    ensures 100.0 <= f <= 6000.0
  {
    (100 + (s as int) % 5901) as real
  }

  /** A 32-bit state read as a fraction `(float)rng / 0xFFFFFFFF`, in [0, 1]. */
  function Unit(s: bv32): (r: real)
    ensures 0.0 <= r <= 1.0
    ensures r == 0.0 <==> s == 0
  {
    (s as int) as real / 4294967295.0
  }
}
