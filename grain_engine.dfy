/** The per-sample state machine of the granular `synth` (C++/5.cpp) and of
    the OpenCL kernel that mirrors it (OpenCL/5.cpp): dust trigger, grain
    allocation, the control ramps, then every voice's grain loop and the
    folded mix written to both channels. */
module GrainEngine {
  import opened Numeric
  import opened Folding
  import opened Xorshift
  import opened GrainPool

  /** The slot of grain g of voice v in the flattened `grains[5][512]`. */
  function Slot(v: int, g: int): int {
    v * MAX_GRAINS + g
  }

  /** Everything a grain in an active slot satisfies: it is playing, lasts 882
      samples, and its increments (and, when wrapping, its phases) lie in [0, 2*pi]. */
  predicate GrainOk(wrap: bool, g: Grain) {
    0.0 < g.counter <= GRAIN_DUR && g.dur == GRAIN_DUR
    && 0.0 <= g.carInc <= TWO_PI && 0.0 <= g.modInc <= TWO_PI
    && 0.0 <= g.carPhase && 0.0 <= g.modPhase
    && (wrap ==> g.carPhase <= TWO_PI && g.modPhase <= TWO_PI)
  }

  predicate PoolOk(wrap: bool, s: seq<Grain>) {
    forall i :: 0 <= i < |s| ==> GrainOk(wrap, s[i])
  }

  /** A voice frequency lies in the range the engines draw from. */
  predicate FreqOk(f: real) {
    100.0 <= f <= 6000.0
  }

  /** A freshly allocated grain satisfies the slot invariant. */
  lemma NewGrainOk(wrap: bool, f: real, mf: real)
    requires FreqOk(f) && FreqOk(mf)
    ensures GrainOk(wrap, NewGrain(f, mf))
    ensures Playing(NewGrain(f, mf)) && !Expires(NewGrain(f, mf))
  {
    assert TWO_PI * f / SR <= TWO_PI by {
      assert TWO_PI * f <= TWO_PI * SR;
    }
    assert TWO_PI * mf / SR <= TWO_PI by {
      assert TWO_PI * mf <= TWO_PI * SR;
    }
  }

  /** What survives of a pool of well-formed grains is well formed. */
  lemma {:induction false} SurvivorsOk(wrap: bool, s: seq<Grain>)
    requires PoolOk(wrap, s)
    ensures PoolOk(wrap, Survivors(wrap, s))
    decreases |s|
  {
    if s != [] {
      var last := |s| - 1;
      assert PoolOk(wrap, s[..last]);
      SurvivorsOk(wrap, s[..last]);
      var g := s[last];
      if Playing(g) && !Expires(g) {
        var h := Step(wrap, g);
        assert GrainOk(wrap, h);
      }
    }
  }

  /** Well-formedness only depends on the grains present, not on their order. */
  lemma PoolOkMultiset(wrap: bool, a: seq<Grain>, b: seq<Grain>)
    requires PoolOk(wrap, b) && multiset(a) == multiset(b)
    ensures PoolOk(wrap, a)
  {
    forall i | 0 <= i < |a|
      ensures GrainOk(wrap, a[i])
    {
      assert a[i] in multiset(b);
    }
  }

  /** The pool a voice processes this sample: the old pool, plus a fresh grain if a
      rising edge arrived and the voice had room. */
  function Allocated(pool: seq<Grain>, rising: bool, f: real, mf: real): (r: seq<Grain>)
    ensures |pool| <= MAX_GRAINS ==> |r| <= MAX_GRAINS
    ensures |pool| <= |r| && r[..|pool|] == pool
    ensures |r| == |pool| + 1 <==> rising && |pool| < MAX_GRAINS
    ensures |r| == |pool| + 1 ==> r[|pool|] == NewGrain(f, mf)
  {
    if rising && |pool| < MAX_GRAINS then pool + [NewGrain(f, mf)] else pool
  }

  /** One voice's share of `mix`: 0.1 times its output folded into [-|level|, |level|]. */
  function VoiceMix(sin: real -> real, cos: real -> real, depth: real, level: real,
                    pool: seq<Grain>): (m: real)
    ensures Abs(m) <= 0.1 * Abs(level)
  {
    var a := Abs(level);
    FoldSymmetric(PoolOut(sin, cos, depth, pool), a);
    0.1 * Fold(PoolOut(sin, cos, depth, pool), -a, a)
  }

  /** A voice's share, from its output. */
  lemma VoiceMixOf(sin: real -> real, cos: real -> real, depth: real, level: real,
                   pool: seq<Grain>, out: real)
    requires out == PoolOut(sin, cos, depth, pool)
    ensures VoiceMix(sin, cos, depth, level, pool) == 0.1 * Fold(out, -Abs(level), Abs(level))
  {
  }

  /** The sum of a sequence, added up from the front. */
  function Sum(s: seq<real>): real {
    if s == [] then 0.0 else Sum(s[..|s| - 1]) + s[|s| - 1]
  }

  /** Summing one more term. */
  lemma SumSnoc(s: seq<real>, v: int)
    requires 0 <= v < |s|
    ensures Sum(s[..v + 1]) == Sum(s[..v]) + s[v]
  {
    assert s[..v + 1][..v] == s[..v];
  }

  /** The sum of every term. */
  lemma SumAll(s: seq<real>)
    ensures Sum(s[..|s|]) == Sum(s)
  {
    assert s[..|s|] == s;
  }

  /** A sum of n terms each at most b in magnitude is at most n copies of b. */
  lemma {:induction false} SumBound(s: seq<real>, b: real)
    requires forall i :: 0 <= i < |s| ==> Abs(s[i]) <= b
    ensures Abs(Sum(s)) <= Times(|s|, b)
    decreases |s|
  {
    if s != [] {
      var n := |s| - 1;
      assert forall i :: 0 <= i < n ==> s[..n][i] == s[i];
      SumBound(s[..n], b);
    }
  }

  /** Every voice's share of one sample, in voice order. */
  function Shares(sin: real -> real, cos: real -> real, depth: real, level: real,
                  pools: seq<seq<Grain>>): (r: seq<real>)
    ensures |r| == |pools|
  {
    seq(|pools|, v requires 0 <= v < |pools| => VoiceMix(sin, cos, depth, level, pools[v]))
  }

  /** `mix` of one sample: the voices' shares added up in voice order. */
  function Mix(sin: real -> real, cos: real -> real, depth: real, level: real,
               pools: seq<seq<Grain>>): real
  {
    Sum(Shares(sin, cos, depth, level, pools))
  }

  /** Each voice adds at most 0.1 * |level| to the mix, whatever its grains play. */
  lemma MixBound(sin: real -> real, cos: real -> real, depth: real, level: real,
                 pools: seq<seq<Grain>>)
    ensures Abs(Mix(sin, cos, depth, level, pools)) <= Times(|pools|, 0.1 * Abs(level))
  {
    SumBound(Shares(sin, cos, depth, level, pools), 0.1 * Abs(level));
  }

  /** Whether the dust counter fires this sample (`--counter <= 0`). */
  predicate Fires(counter: real) {
    counter - 1.0 <= 0.0
  }

  /** The generator after one sample: one step, and one more when the dust fires. */
  function DustRng(rng: bv32, counter: real): (r: bv32)
    ensures r == Iterate(rng, if Fires(counter) then 2 else 1)
    ensures r == 0 <==> rng == 0
  {
    assert Iterate(rng, 1) == Next(rng);
    assert Iterate(rng, 2) == Next(Iterate(rng, 1));
    if Fires(counter) then Next(Next(rng)) else Next(rng)
  }

  /** The dust counter after one sample: reloaded from `-log(r) / scale` when it fires. */
  function DustCounter(log: real -> real, rng: bv32, counter: real): real {
    if Fires(counter) then -log(Unit(Next(rng))) / SCALE else counter - 1.0
  }

  /** The trigger of one sample: a draw in [-1, 1] when the dust fires, else 0. */
  function DustTrig(rng: bv32, counter: real): (t: real)
    ensures -1.0 <= t <= 1.0
    ensures !Fires(counter) ==> t == 0.0
    ensures Fires(counter) ==> t == Unit(DustRng(rng, counter)) * 2.0 - 1.0
  {
    if Fires(counter) then Unit(Next(Next(rng))) * 2.0 - 1.0 else 0.0
  }

  /** `line_level += line_slope; if (line_level > 20) line_level = 20`. */
  function LineStep(level: real): (r: real)
    ensures r <= LINE_MAX
    ensures level <= LINE_MAX ==> level <= r
    ensures r == LINE_MAX || r == level + LINE_SLOPE
  {
    if level + LINE_SLOPE > LINE_MAX then LINE_MAX else level + LINE_SLOPE
  }

  /** An oscillator whose values stay in [-1, 1] (the property of `sinf` the bound
      on the output needs). */
  ghost predicate Bounded(f: real -> real) {
    forall x :: -1.0 <= f(x) <= 1.0
  }

  /** A bounded oscillator's value at any point lies in [-1, 1]. */
  lemma BoundedAt(f: real -> real, x: real)
    requires Bounded(f)
    ensures -1.0 <= f(x) <= 1.0
  {
  }

  /** Every entry of `bounds` is at most c. */
  predicate AtMost(bounds: seq<real>, c: real) {
    forall k :: 0 <= k < |bounds| ==> bounds[k] <= c
  }

  /** Half a bounded sine's value keeps a list of bounds at most 0.5. */
  lemma BoundsGrow(f: real -> real, x: real, bounds: seq<real>)
    requires Bounded(f) ==> AtMost(bounds, 0.5)
    ensures Bounded(f) ==> AtMost(bounds + [0.5 * Abs(f(x))], 0.5)
  {
    if Bounded(f) {
      BoundedAt(f, x);
    }
  }

  /** Five voices of at most b each: at most 5 * b. */
  lemma TimesFive(b: real)
    ensures Times(NUM_VOICES, b) == 5.0 * b
  {
    assert Times(1, b) == b;
    assert Times(2, b) == b + b;
    assert Times(3, b) == b + b + b;
    assert Times(4, b) == b + b + b + b;
  }

  /** The mix of a sample's five voices is at most 0.5 * |level|. */
  lemma MixFive(sin: real -> real, cos: real -> real, depth: real, level: real, pools: seq<seq<Grain>>)
    requires |pools| == NUM_VOICES
    ensures Abs(Mix(sin, cos, depth, level, pools)) <= 0.5 * Abs(level)
  {
    MixBound(sin, cos, depth, level, pools);
    TimesFive(0.1 * Abs(level));
  }

  /** The voice loop after v voices: the first v pools hold their survivors up to
      order, the others are as fed in. */
  predicate Swept(wrap: bool, now: seq<seq<Grain>>, fed: seq<seq<Grain>>, v: int) {
    |now| == |fed| && 0 <= v <= |fed|
    && (forall u :: 0 <= u < v ==> multiset(now[u]) == multiset(Survivors(wrap, fed[u])))
    && (forall u :: v <= u < |fed| ==> now[u] == fed[u])
  }

  /** Sweeping voice v and nothing else moves the loop on by one voice. */
  lemma SweptStep(wrap: bool, now: seq<seq<Grain>>, next: seq<seq<Grain>>, fed: seq<seq<Grain>>, v: int)
    requires Swept(wrap, now, fed, v) && v < |fed| && |next| == |now|
    requires multiset(next[v]) == multiset(Survivors(wrap, now[v]))
    requires forall u :: 0 <= u < |now| && u != v ==> next[u] == now[u]
    ensures Swept(wrap, next, fed, v + 1)
  {
  }

  /** One voice turn on plain values: the sweep moves on by one voice and the
      voice's share joins the running mix. */
  lemma TurnStep(wrap: bool, now: seq<seq<Grain>>, next: seq<seq<Grain>>, fed: seq<seq<Grain>>,
                 sin: real -> real, cos: real -> real, depth: real, level: real,
                 shares: seq<real>, v: int, mix: real, c: real)
    requires Swept(wrap, now, fed, v) && v < |fed| && |next| == |now|
    requires multiset(next[v]) == multiset(Survivors(wrap, now[v]))
    requires forall u :: 0 <= u < |now| && u != v ==> next[u] == now[u]
    requires shares == Shares(sin, cos, depth, level, fed) && mix == Sum(shares[..v])
    requires c == VoiceMix(sin, cos, depth, level, now[v])
    ensures Swept(wrap, next, fed, v + 1) && mix + c == Sum(shares[..v + 1])
  {
    SweptStep(wrap, now, next, fed, v);
    SumSnoc(shares, v);
  }

  /** After the last voice every pool holds its survivors. */
  lemma SweptAll(wrap: bool, now: seq<seq<Grain>>, fed: seq<seq<Grain>>)
    requires Swept(wrap, now, fed, |fed|)
    ensures forall u :: 0 <= u < |fed| ==> multiset(now[u]) == multiset(Survivors(wrap, fed[u]))
  {
  }

  /** The pools of a sample after allocation, voice by voice. */
  function AllocatedPools(pools: seq<seq<Grain>>, rising: bool, fs: seq<real>, mfs: seq<real>): (r: seq<seq<Grain>>)
    requires |fs| == |pools| && |mfs| == |pools|
    ensures |r| == |pools|
  {
    seq(|pools|, v requires 0 <= v < |pools| => Allocated(pools[v], rising, fs[v], mfs[v]))
  }

  /** The slots of two different voices never overlap. */
  lemma SlotsApart(u: int, v: int, g: int, n: int)
    requires 0 <= u < NUM_VOICES && 0 <= v < NUM_VOICES && u != v
    requires 0 <= g < MAX_GRAINS && 0 <= n <= MAX_GRAINS
    ensures Slot(v, g) < Slot(u, 0) || Slot(u, n) <= Slot(v, g)
  {
  }

  /** The flattened `grains[5][512]` with `num_active`: the source's dimensions, and
      every count within capacity. */
  predicate Layout(s: seq<Grain>, counts: seq<int>) {
    |s| == Slot(NUM_VOICES, 0) && |counts| == NUM_VOICES
    && forall v :: 0 <= v < NUM_VOICES ==> 0 <= counts[v] <= MAX_GRAINS
  }

  /** Voice v's active grains: the first `num_active[v]` slots of its row. */
  function PoolOf(s: seq<Grain>, counts: seq<int>, v: int): (p: seq<Grain>)
    requires Layout(s, counts) && 0 <= v < NUM_VOICES
    ensures |p| == counts[v] <= MAX_GRAINS
  {
    s[Slot(v, 0)..Slot(v, 0) + counts[v]]
  }

  /** A pool is the row's first `n` slots when its count is n. */
  lemma PoolOfCount(s: seq<Grain>, counts: seq<int>, v: int, n: int)
    requires Layout(s, counts) && 0 <= v < NUM_VOICES && counts[v] == n
    ensures PoolOf(s, counts, v) == s[Slot(v, 0)..Slot(v, 0) + n]
  {
  }

  /** Every active slot holds a well-formed grain. */
  predicate SlotsOk(wrap: bool, s: seq<Grain>, counts: seq<int>)
    requires Layout(s, counts)
  {
    forall v, g :: 0 <= v < NUM_VOICES && 0 <= g < counts[v] ==> GrainOk(wrap, s[Slot(v, g)])
  }

  /** The pools of well-formed slots are made of well-formed grains. */
  lemma PoolOkOf(wrap: bool, s: seq<Grain>, counts: seq<int>, v: int)
    requires Layout(s, counts) && SlotsOk(wrap, s, counts) && 0 <= v < NUM_VOICES
    ensures PoolOk(wrap, PoolOf(s, counts, v))
  {
    forall i | 0 <= i < counts[v]
      ensures GrainOk(wrap, PoolOf(s, counts, v)[i])
    {
      assert PoolOf(s, counts, v)[i] == s[Slot(v, i)];
    }
  }

  /** Rewriting voice v's row and its count keeps every other voice's pool, and keeps
      the slots well formed when v's new pool is. */
  lemma RowRewritten(wrap: bool, s: seq<Grain>, counts: seq<int>, t: seq<Grain>, counts2: seq<int>, v: int)
    requires Layout(s, counts) && Layout(t, counts2) && 0 <= v < NUM_VOICES
    requires forall u :: 0 <= u < NUM_VOICES && u != v ==> counts2[u] == counts[u]
    requires forall i :: 0 <= i < |s| && !(Slot(v, 0) <= i < Slot(v, MAX_GRAINS)) ==> t[i] == s[i]
    requires SlotsOk(wrap, s, counts) && PoolOk(wrap, PoolOf(t, counts2, v))
    ensures SlotsOk(wrap, t, counts2)
    ensures forall u :: 0 <= u < NUM_VOICES && u != v ==> PoolOf(t, counts2, u) == PoolOf(s, counts, u)
  {
    forall u | 0 <= u < NUM_VOICES && u != v
      ensures PoolOf(t, counts2, u) == PoolOf(s, counts, u)
    {
      forall i | Slot(u, 0) <= i < Slot(u, 0) + counts[u]
        ensures t[i] == s[i]
      {
        SlotsApart(v, u, i - Slot(u, 0), MAX_GRAINS);
      }
    }
    forall u, h | 0 <= u < NUM_VOICES && 0 <= h < counts2[u]
      ensures GrainOk(wrap, t[Slot(u, h)])
    {
      if u == v {
        assert t[Slot(u, h)] == PoolOf(t, counts2, v)[h];
      } else {
        SlotsApart(v, u, h, MAX_GRAINS);
      }
    }
  }

  /** What a voice keeps of a row of well-formed slots after its grain loop is well
      formed. */
  lemma KeptOk(wrap: bool, s: seq<Grain>, counts: seq<int>, t: seq<Grain>, v: int, lo: int, n: int)
    requires Layout(s, counts) && SlotsOk(wrap, s, counts) && 0 <= v < NUM_VOICES && lo == Slot(v, 0)
    requires 0 <= n && lo + n <= |t|
    requires multiset(t[lo..lo + n]) == multiset(Survivors(wrap, s[lo..lo + counts[v]]))
    ensures PoolOk(wrap, t[lo..lo + n])
  {
    var pool := s[lo..lo + counts[v]];
    PoolOfCount(s, counts, v, counts[v]);
    PoolOkOf(wrap, s, counts, v);
    SurvivorsOk(wrap, pool);
    PoolOkMultiset(wrap, t[lo..lo + n], Survivors(wrap, pool));
  }

  /** The slots after voice v's grain loop left n well-formed grains at the start of
      its row and its count at n: v's pool is those grains, every other row and count
      is as it was, and the slots stay well formed. */
  lemma RowKept(wrap: bool, s: seq<Grain>, counts: seq<int>, t: seq<Grain>, counts2: seq<int>,
                v: int, lo: int, c: int, n: int)
    requires Layout(s, counts) && SlotsOk(wrap, s, counts) && 0 <= v < NUM_VOICES
    requires lo == Slot(v, 0) && c == counts[v]
    requires |t| == |s| && 0 <= n <= c && counts2 == counts[v := n]
    requires forall k :: 0 <= k < |t| && !(lo <= k < lo + c) ==> t[k] == s[k]
    requires PoolOk(wrap, t[lo..lo + n])
    ensures Layout(t, counts2) && SlotsOk(wrap, t, counts2)
    ensures PoolOf(t, counts2, v) == t[lo..lo + n]
    ensures forall u :: 0 <= u < NUM_VOICES && u != v ==> PoolOf(t, counts2, u) == PoolOf(s, counts, u)
  {
    assert Layout(t, counts2) && counts2[v] == n;
    PoolOfCount(t, counts2, v, n);
    RowRewritten(wrap, s, counts, t, counts2, v);
  }

  /** The folding sine's increment is a small positive angle. */
  lemma SinIncInRange()
    ensures 0.0 <= SIN_INC <= TWO_PI
  {
  }

  /** The left-channel index of sample k in an interleaved stereo buffer. */
  function Left(k: int): int {
    2 * k
  }

  /** The first n frames of an interleaved buffer carry the same value on both channels. */
  predicate Stereo(o: seq<real>, n: int) {
    0 <= Left(n) <= |o| && forall k :: 0 <= k < n ==> o[Left(k)] == o[Left(k) + 1]
  }

  /** Frame k's left channel is at most bounds[k] in magnitude. */
  predicate Under(o: seq<real>, bounds: seq<real>) {
    Left(|bounds|) <= |o| && forall k :: 0 <= k < |bounds| ==> Abs(o[Left(k)]) <= bounds[k]
  }

  /** Everything from index `from` on is as in `o0`. */
  predicate SameFrom(o: seq<real>, o0: seq<real>, from: int) {
    |o| == |o0| && forall i :: 0 <= i < |o| && from <= i ==> o[i] == o0[i]
  }

  /** `out_buffer[s * 2] = mix; out_buffer[s * 2 + 1] = mix`. */
  method WriteFrame(out: array<real>, s: int, mix: real)
    requires 0 <= s && Left(s) + 1 < out.Length
    modifies out
    ensures out[..] == old(out[..])[Left(s) := mix][Left(s) + 1 := mix]
  {
    out[s * 2] := mix;
    out[s * 2 + 1] := mix;
  }

  /** Writing frame s after s stereo frames gives s + 1 stereo frames and leaves the
      rest of the buffer alone. */
  lemma FrameWritten(o: seq<real>, o0: seq<real>, s: int, mix: real, bounds: seq<real>, b: real)
    requires Stereo(o, s) && Under(o, bounds) && |bounds| == s && SameFrom(o, o0, Left(s))
    requires Left(s) + 1 < |o| && Abs(mix) <= b
    ensures Stereo(o[Left(s) := mix][Left(s) + 1 := mix], s + 1)
    ensures Under(o[Left(s) := mix][Left(s) + 1 := mix], bounds + [b])
    ensures SameFrom(o[Left(s) := mix][Left(s) + 1 := mix], o0, Left(s + 1))
  {
    var o2 := o[Left(s) := mix][Left(s) + 1 := mix];
    forall k | 0 <= k < s + 1
      ensures o2[Left(k)] == o2[Left(k) + 1] && Abs(o2[Left(k)]) <= (bounds + [b])[k]
    {
      if k < s {
        assert Left(k) + 1 < Left(s);
      }
    }
  }

  /** The frequency voice i draws at start-up (C++/5.cpp:66-72): the generator's
      state after 2i + 1 steps from the seed. */
  function DrawnFreq(i: nat): (f: real)
    ensures FreqOk(f)
  {
    VoiceFreq(Iterate(SEED, 2 * i + 1))
  }

  /** The modulator frequency voice i draws at start-up: the state after 2i + 2 steps. */
  function DrawnModFreq(i: nat): (f: real)
    ensures FreqOk(f)
  {
    VoiceFreq(Iterate(SEED, 2 * i + 2))
  }

  /** The first voice of the C++ engine sounds at 100 + 270369 mod 5901 = 4924 Hz. */
  lemma FirstVoiceFreq()
    ensures DrawnFreq(0) == 4924.0
  {
    FirstSteps();
  }

  /** The start-up draw of `synth` (C++/5.cpp:64-72): two generator steps per
      voice, in voice order, the carrier's first; the generator goes on from the
      state it leaves. */
  method DrawFreqs() returns (fs: seq<real>, mfs: seq<real>, rng: bv32)
    ensures |fs| == NUM_VOICES && |mfs| == NUM_VOICES
    ensures forall i :: 0 <= i < NUM_VOICES ==> fs[i] == DrawnFreq(i) && mfs[i] == DrawnModFreq(i)
    ensures rng == Iterate(SEED, 2 * NUM_VOICES)
  {
    rng := SEED;
    fs := [];
    mfs := [];
    for i := 0 to NUM_VOICES
      invariant |fs| == i && |mfs| == i && rng == Iterate(SEED, 2 * i)
      invariant forall j :: 0 <= j < i ==> fs[j] == DrawnFreq(j) && mfs[j] == DrawnModFreq(j)
    {
      var f, mf;
      f, mf, rng := DrawPair(i, rng);
      fs, mfs := fs + [f], mfs + [mf];
    }
  }

  /** One voice's two draws, from the state the voices before it leave. */
  method DrawPair(i: nat, rng: bv32) returns (f: real, mf: real, rng': bv32)
    requires rng == Iterate(SEED, 2 * i)
    ensures f == DrawnFreq(i) && mf == DrawnModFreq(i) && rng' == Iterate(SEED, 2 * i + 2)
  {
    rng' := Next(rng);
    assert rng' == Iterate(SEED, 2 * i + 1);
    f := VoiceFreq(rng');
    rng' := Next(rng');
    assert rng' == Iterate(SEED, 2 * i + 2);
    mf := VoiceFreq(rng');
  }

  /** The value an inactive slot holds; no output depends on it. */
  const IDLE: Grain := Grain(0.0, 0.0, 0.0, 0.0, 0.0, 0.0)

  /** The number of samples a loop `for (s = 0; s < n; s++)` runs. */
  function Frames(n: int): (r: nat)
    ensures r == n || (n < 0 && r == 0)
  {
    if n < 0 then 0 else n
  }

  /** The synthesiser's state between samples. `wrap` selects the C++ engine, whose
      phases are brought back by 2*pi; the OpenCL kernel never wraps them. */
  class Engine {
    const wrap: bool
    const freqs: seq<real>
    const modFreqs: seq<real>
    /** `grains[5][512]`, row by row. */
    const grains: array<Grain>
    const numActive: array<int>
    var rng: bv32
    var dustCounter: real
    var lineLevel: real
    var sinPhase: real
    var prevTrig: real

    /** The arrays have the source's dimensions and every count is within capacity. */
    predicate Shape()
      reads grains, numActive
    {
      Layout(grains[..], numActive[..])
    }

    /** Voice v's active grains. */
    function Pool(v: int): (s: seq<Grain>)
      reads grains, numActive
      requires Shape() && 0 <= v < NUM_VOICES
      ensures |s| == numActive[v] <= MAX_GRAINS
    {
      PoolOf(grains[..], numActive[..], v)
    }

    function Pools(): (ps: seq<seq<Grain>>)
      reads grains, numActive
      requires Shape()
      ensures |ps| == NUM_VOICES
      ensures forall v :: 0 <= v < NUM_VOICES ==> ps[v] == Pool(v)
    {
      [Pool(0), Pool(1), Pool(2), Pool(3), Pool(4)]
    }

    /** The grain storage: the source's dimensions, every active slot well formed. */
    predicate Storage()
      reads grains, numActive
    {
      Shape() && SlotsOk(wrap, grains[..], numActive[..])
    }

    /** Five voice and five modulator frequencies, each in [100, 6000] Hz. */
    predicate Tuning() {
      |freqs| == NUM_VOICES && |modFreqs| == NUM_VOICES
      && forall v :: 0 <= v < NUM_VOICES ==> FreqOk(freqs[v]) && FreqOk(modFreqs[v])
    }

    /** The control state: a live generator, the depth within its ramp, and the
        folding sine's phase in [0, 2*pi] when it wraps. */
    predicate Controls()
      reads this
    {
      rng != 0
      && LINE_START <= lineLevel <= LINE_MAX
      && (wrap ==> 0.0 <= sinPhase <= TWO_PI)
      && (!wrap ==> 0.0 <= sinPhase)
    }

    /** The start of the C++ `synth` (C++/5.cpp:61-87): frequencies drawn from the
        seeded generator, which then drives the dust; every voice empty; phases wrap. */
    constructor Cpp()
      ensures Valid() && wrap && fresh(grains) && fresh(numActive)
      ensures forall v :: 0 <= v < NUM_VOICES ==> freqs[v] == DrawnFreq(v) && modFreqs[v] == DrawnModFreq(v)
      ensures rng == Iterate(SEED, 2 * NUM_VOICES)
      ensures dustCounter == 1.0 && lineLevel == LINE_START && sinPhase == 0.0 && prevTrig == 0.0
      ensures Pools() == [[], [], [], [], []]
    {
      wrap := true;
      var fs, mfs, r := DrawFreqs();
      freqs := fs;
      modFreqs := mfs;
      rng := r;
      grains := new Grain[Slot(NUM_VOICES, 0)](_ => IDLE);
      numActive := new int[NUM_VOICES](_ => 0);
      dustCounter := 1.0;
      lineLevel := LINE_START;
      sinPhase := 0.0;
      prevTrig := 0.0;
    }

    /** The start of the OpenCL kernel (OpenCL/5.cpp:35-47): fixed frequencies, the
        generator at its seed, every voice empty; phases never wrap. */
    constructor OpenCL()
      ensures Valid() && !wrap && fresh(grains) && fresh(numActive)
      ensures freqs == [100.0, 1000.0, 2000.0, 3000.0, 4000.0]
      ensures modFreqs == [200.0, 1200.0, 2200.0, 3200.0, 4200.0]
      ensures rng == SEED
      ensures dustCounter == 1.0 && lineLevel == LINE_START && sinPhase == 0.0 && prevTrig == 0.0
      ensures Pools() == [[], [], [], [], []]
    {
      wrap := false;
      freqs := [100.0, 1000.0, 2000.0, 3000.0, 4000.0];
      modFreqs := [200.0, 1200.0, 2200.0, 3200.0, 4200.0];
      rng := SEED;
      grains := new Grain[Slot(NUM_VOICES, 0)](_ => IDLE);
      numActive := new int[NUM_VOICES](_ => 0);
      dustCounter := 1.0;
      lineLevel := LINE_START;
      sinPhase := 0.0;
      prevTrig := 0.0;
    }

    /** The control fields after one sample's control step taken from the given
        generator state, dust counter, depth and phase. */
    predicate ControlStepped(log: real -> real, rng0: bv32, counter0: real, line0: real, phase0: real)
      reads this
    {
      rng == DustRng(rng0, counter0)
      && dustCounter == DustCounter(log, rng0, counter0)
      && prevTrig == DustTrig(rng0, counter0)
      && lineLevel == LineStep(line0)
      && sinPhase == AdvancePhase(wrap, phase0, SIN_INC)
    }

    /** Every voice holds, in some order, the survivors of its pool in `fed`. */
    predicate SurvivorsOf(fed: seq<seq<Grain>>)
      reads grains, numActive
      requires Shape() && |fed| == NUM_VOICES
    {
      forall v {:trigger Pool(v)} :: 0 <= v < NUM_VOICES ==> multiset(Pool(v)) == multiset(Survivors(wrap, fed[v]))
    }

    /** The state the sample loop keeps between samples. */
    predicate Valid()
      reads this, grains, numActive
    {
      Tuning() && Storage() && Controls()
    }

    /** The dust generator of one sample (C++/5.cpp:92-105): one generator step, the
        counter drops by one, and when it reaches 0 it is reloaded from the log of the
        draw and a second draw gives the trigger. */
    method Dust(log: real -> real) returns (trig: real)
      requires Controls()
      modifies this
      ensures Controls()
      ensures rng == DustRng(old(rng), old(dustCounter))
      ensures dustCounter == DustCounter(log, old(rng), old(dustCounter))
      ensures trig == DustTrig(old(rng), old(dustCounter))
      ensures lineLevel == old(lineLevel) && sinPhase == old(sinPhase) && prevTrig == old(prevTrig)
    {
      rng := Next(rng);
      var r := Unit(rng);
      trig := 0.0;
      dustCounter := dustCounter - 1.0;
      if dustCounter <= 0.0 {
        dustCounter := -log(r) / SCALE;
        rng := Next(rng);
        trig := Unit(rng) * 2.0 - 1.0;
      }
    }

    /** One voice's allocation on a rising edge (C++/5.cpp:109-117): a voice with room
        gains one fresh grain at the end of its pool; a full voice is left alone. */
    method AllocateVoice(v: int)
      requires Tuning() && Storage() && 0 <= v < NUM_VOICES
      modifies grains, numActive
      ensures Storage()
      ensures Pool(v) == Allocated(old(Pool(v)), true, freqs[v], modFreqs[v])
      ensures forall u :: 0 <= u < NUM_VOICES && u != v ==> numActive[u] == old(numActive[u])
      ensures forall u :: 0 <= u < NUM_VOICES && u != v ==> Pool(u) == old(Pool(u))
    {
      if numActive[v] < MAX_GRAINS {
        var g := numActive[v];
        var x := NewGrain(freqs[v], modFreqs[v]);
        ghost var s := grains[..];
        ghost var counts := numActive[..];
        NewGrainOk(wrap, freqs[v], modFreqs[v]);
        PoolOkOf(wrap, s, counts, v);
        numActive[v] := g + 1;
        grains[Slot(v, g)] := x;
        assert grains[..] == s[Slot(v, g) := x];
        assert numActive[..] == counts[v := g + 1];
        assert Pool(v) == PoolOf(s, counts, v) + [x];
        RowRewritten(wrap, s, counts, grains[..], numActive[..], v);
      }
    }

    /** Allocation of one sample (C++/5.cpp:107-121): on a rising edge every voice with
        room gains a fresh grain; in every case `prev_trig` becomes this sample's trigger. */
    method Allocate(trig: real)
      requires Tuning() && Storage()
      modifies this, grains, numActive
      ensures Storage()
      ensures prevTrig == trig
      ensures forall v :: 0 <= v < NUM_VOICES ==>
        Pool(v) == Allocated(old(Pool(v)), Rising(trig, old(prevTrig)), freqs[v], modFreqs[v])
      ensures rng == old(rng) && dustCounter == old(dustCounter)
      ensures lineLevel == old(lineLevel) && sinPhase == old(sinPhase)
    {
      if trig > 0.0 && prevTrig <= 0.0 {
        for v := 0 to NUM_VOICES
          modifies grains, numActive
          invariant Storage()
          invariant forall u :: 0 <= u < v ==> Pool(u) == Allocated(old(Pool(u)), true, freqs[u], modFreqs[u])
          invariant forall u :: v <= u < NUM_VOICES ==> Pool(u) == old(Pool(u))
        {
          AllocateVoice(v);
        }
      }
      prevTrig := trig;
    }

    /** One voice's grain loop (C++/5.cpp:133-159): every grain of the pool plays
        once and expired grains leave by swap-with-last. */
    method PlayVoice(v: int, sin: real -> real, cos: real -> real) returns (out: real)
      requires Storage() && 0 <= v < NUM_VOICES
      modifies grains, numActive
      ensures Storage()
      ensures out == PoolOut(sin, cos, lineLevel, old(Pool(v)))
      ensures multiset(Pool(v)) == multiset(Survivors(wrap, old(Pool(v))))
      ensures forall u :: 0 <= u < NUM_VOICES && u != v ==> numActive[u] == old(numActive[u])
      ensures forall u :: 0 <= u < NUM_VOICES && u != v ==> Pool(u) == old(Pool(u))
    {
      ghost var s := grains[..];
      ghost var counts := numActive[..];
      var base := Slot(v, 0);
      var n0 := numActive[v];
      var n;
      out, n := Sweep(grains, base, n0, wrap, sin, cos, lineLevel);
      ghost var t := grains[..];
      numActive[v] := n;
      assert numActive[..] == counts[v := n];
      KeptOk(wrap, s, counts, t, v, base, n);
      RowKept(wrap, s, counts, t, numActive[..], v, base, n0, n);
      PoolOfCount(s, counts, v, n0);
    }

    /** A voice's share of the mix (C++/5.cpp:132-166): its grain loop, then its sum
        folded into [-|level|, |level|] and scaled by 0.1. */
    method RenderVoice(v: int, level: real, sin: real -> real, cos: real -> real) returns (c: real)
      requires Storage() && 0 <= v < NUM_VOICES
      modifies grains, numActive
      ensures Storage()
      ensures c == VoiceMix(sin, cos, lineLevel, level, old(Pool(v)))
      ensures multiset(Pool(v)) == multiset(Survivors(wrap, old(Pool(v))))
      ensures forall u :: 0 <= u < NUM_VOICES && u != v ==> numActive[u] == old(numActive[u])
      ensures forall u :: 0 <= u < NUM_VOICES && u != v ==> Pool(u) == old(Pool(u))
    {
      ghost var pool := Pool(v);
      var out := PlayVoice(v, sin, cos);
      var a := Abs(level);
      c := 0.1 * Fold(out, -a, a);
      VoiceMixOf(sin, cos, lineLevel, level, pool, out);
    }

    /** The control part of one sample (C++/5.cpp:92-128, OpenCL/5.cpp:49-81): the
        dust trigger, allocation on its rising edge, the depth ramp and the folding
        sine, whose value before the step is the fold level of this sample. */
    method Control(sin: real -> real, log: real -> real) returns (level: real)
      requires Valid()
      modifies this, grains, numActive
      ensures Valid()
      ensures ControlStepped(log, old(rng), old(dustCounter), old(lineLevel), old(sinPhase))
      ensures level == sin(old(sinPhase))
      ensures Pools() == AllocatedPools(old(Pools()), Rising(prevTrig, old(prevTrig)), freqs, modFreqs)
    {
      var trig := Dust(log);
      Allocate(trig);
      level := Ramp(sin);
    }

    /** The depth ramp and the folding sine of one sample (C++/5.cpp:123-128,
        OpenCL/5.cpp:78-81): the depth grows by its slope up to 20, and the sine's
        value before its phase step is the fold level. */
    method Ramp(sin: real -> real) returns (level: real)
      requires Controls()
      modifies this
      ensures Controls()
      ensures lineLevel == LineStep(old(lineLevel))
      ensures sinPhase == AdvancePhase(wrap, old(sinPhase), SIN_INC)
      ensures level == sin(old(sinPhase))
      ensures rng == old(rng) && dustCounter == old(dustCounter) && prevTrig == old(prevTrig)
    {
      lineLevel := LineStep(lineLevel);
      level := sin(sinPhase);
      SinIncInRange();
      sinPhase := AdvancePhase(wrap, sinPhase, SIN_INC);
    }

    /** One turn of the voice loop: voice v's share joins the running mix and its
        pool is swept. */
    method VoiceTurn(v: int, level: real, sin: real -> real, cos: real -> real,
                     ghost fed: seq<seq<Grain>>, ghost shares: seq<real>, mix: real) returns (mix2: real)
      requires Storage() && 0 <= v < NUM_VOICES && |fed| == NUM_VOICES
      requires shares == Shares(sin, cos, lineLevel, level, fed)
      requires Swept(wrap, Pools(), fed, v) && mix == Sum(shares[..v])
      modifies grains, numActive
      ensures Storage()
      ensures Swept(wrap, Pools(), fed, v + 1) && mix2 == Sum(shares[..v + 1])
    {
      ghost var now := Pools();
      var c := RenderVoice(v, level, sin, cos);
      ghost var next := Pools();
      assert forall u :: 0 <= u < NUM_VOICES && u != v ==> next[u] == now[u];
      TurnStep(wrap, now, next, fed, sin, cos, lineLevel, level, shares, v, mix, c);
      mix2 := mix + c;
    }

    /** The voice loop of one sample (C++/5.cpp:130-166): every voice's grains in
        voice order, their folded shares summed into `mix`. */
    method MixVoices(level: real, sin: real -> real, cos: real -> real) returns (mix: real)
      requires Storage()
      modifies grains, numActive
      ensures Storage()
      ensures mix == Mix(sin, cos, lineLevel, level, old(Pools()))
      ensures SurvivorsOf(old(Pools()))
      ensures Abs(mix) <= 0.5 * Abs(level)
    {
      ghost var fed := Pools();
      ghost var shares := Shares(sin, cos, lineLevel, level, fed);
      mix := 0.0;
      for v := 0 to NUM_VOICES
        invariant Storage()
        invariant Swept(wrap, Pools(), fed, v) && mix == Sum(shares[..v])
      {
        mix := VoiceTurn(v, level, sin, cos, fed, shares, mix);
      }
      SumAll(shares);
      SweptAll(wrap, Pools(), fed);
      MixFive(sin, cos, lineLevel, level, fed);
    }

    /** One sample of `synth` (C++/5.cpp:92-166, OpenCL/5.cpp:49-108). */
    method Tick(sin: real -> real, cos: real -> real, log: real -> real) returns (mix: real)
      requires Valid()
      modifies this, grains, numActive
      ensures Valid()
      ensures ControlStepped(log, old(rng), old(dustCounter), old(lineLevel), old(sinPhase))
      ensures mix == Mix(sin, cos, lineLevel, sin(old(sinPhase)),
                         AllocatedPools(old(Pools()), Rising(prevTrig, old(prevTrig)), freqs, modFreqs))
      ensures SurvivorsOf(AllocatedPools(old(Pools()), Rising(prevTrig, old(prevTrig)), freqs, modFreqs))
      ensures Abs(mix) <= 0.5 * Abs(sin(old(sinPhase)))
    {
      var level := Control(sin, log);
      mix := MixVoices(level, sin, cos);
    }

    /** One pass of the sample loop (C++/5.cpp:91-169): Tick's sample, written to both
        channels of frame s. The sample is stated on the state before the pass: the mix
        at the stepped depth, the folding sine at the old phase, and the pools after the
        allocation the new trigger asks for. The control fields and the surviving grains
        are those Tick leaves. */
    method Sample(out: array<real>, s: int, sin: real -> real, cos: real -> real, log: real -> real)
      returns (mix: real)
      requires Valid() && 0 <= s && Left(s) + 1 < out.Length
      modifies this, grains, numActive, out
      ensures Valid()
      ensures ControlStepped(log, old(rng), old(dustCounter), old(lineLevel), old(sinPhase))
      ensures mix == Mix(sin, cos, LineStep(old(lineLevel)), sin(old(sinPhase)),
                         AllocatedPools(old(Pools()), Rising(DustTrig(old(rng), old(dustCounter)), old(prevTrig)),
                                        freqs, modFreqs))
      ensures SurvivorsOf(AllocatedPools(old(Pools()), Rising(prevTrig, old(prevTrig)), freqs, modFreqs))
      ensures Abs(mix) <= 0.5 * Abs(sin(old(sinPhase)))
      ensures out[..] == old(out[..])[Left(s) := mix][Left(s) + 1 := mix]
    {
      mix := Tick(sin, cos, log);
      ghost var fed := AllocatedPools(old(Pools()), Rising(prevTrig, old(prevTrig)), freqs, modFreqs);
      label ticked:
      WriteFrame(out, s, mix);
      SurvivorsKept@ticked(fed);
    }

    /** What SurvivorsOf says about the grain storage survives a step that leaves the
        engine's fields and arrays alone. */
    twostate lemma SurvivorsKept(fed: seq<seq<Grain>>)
      requires |fed| == NUM_VOICES && unchanged(this, grains, numActive)
      requires old(Shape()) && old(SurvivorsOf(fed))
      ensures Shape() && SurvivorsOf(fed)
    {
    }

    /** The sample loop (C++/5.cpp:89-170): `numSamples` samples of Tick, each
        written to both channels of the interleaved stereo buffer. Each sample's magnitude is at
        most half that of the folding sine, so at most 0.5 when the sine is. */
    method Run(out: array<real>, numSamples: int, sin: real -> real, cos: real -> real, log: real -> real)
      requires Valid() && 0 <= numSamples && Left(numSamples) <= out.Length
      modifies this, grains, numActive, out
      ensures Valid()
      ensures Stereo(out[..], numSamples)
      ensures Bounded(sin) ==> forall k :: 0 <= k < numSamples ==> Abs(out[Left(k)]) <= 0.5
      ensures SameFrom(out[..], old(out[..]), Left(numSamples))
    {
      ghost var bounds: seq<real> := [];
      for s := 0 to numSamples
        invariant Valid() && |bounds| == s
        invariant Stereo(out[..], s) && Under(out[..], bounds)
        invariant SameFrom(out[..], old(out[..]), Left(s))
        invariant Bounded(sin) ==> AtMost(bounds, 0.5)
      {
        ghost var b := 0.5 * Abs(sin(sinPhase));
        ghost var o := out[..];
        BoundsGrow(sin, sinPhase, bounds);
        var mix := Sample(out, s, sin, cos, log);
        FrameWritten(o, old(out[..]), s, mix, bounds, b);
        bounds := bounds + [b];
      }
      if Bounded(sin) {
        forall k | 0 <= k < numSamples
          ensures Abs(out[Left(k)]) <= 0.5
        {
          assert Abs(out[..][Left(k)]) <= bounds[k] <= 0.5;
        }
      }
    }
  }

  /** `synth(out_buffer, num_samples)` of C++/5.cpp: a fresh engine renders the
      samples into both channels of the buffer and touches nothing beyond them. */
  method SynthCpp(out: array<real>, numSamples: int, sin: real -> real, cos: real -> real, log: real -> real)
    requires Left(Frames(numSamples)) <= out.Length
    modifies out
    ensures Stereo(out[..], Frames(numSamples))
    ensures Bounded(sin) ==> forall k :: 0 <= k < Frames(numSamples) ==> Abs(out[Left(k)]) <= 0.5
    ensures SameFrom(out[..], old(out[..]), Left(Frames(numSamples)))
  {
    var e := new Engine.Cpp();
    e.Run(out, Frames(numSamples), sin, cos, log);
  }

  /** `synth(out_buffer, num_samples)` of OpenCL/5.cpp, the same on the kernel's engine. */
  method SynthOpenCL(out: array<real>, numSamples: int, sin: real -> real, cos: real -> real, log: real -> real)
    requires Left(Frames(numSamples)) <= out.Length
    modifies out
    ensures Stereo(out[..], Frames(numSamples))
    ensures Bounded(sin) ==> forall k :: 0 <= k < Frames(numSamples) ==> Abs(out[Left(k)]) <= 0.5
    ensures SameFrom(out[..], old(out[..]), Left(Frames(numSamples)))
  {
    var e := new Engine.OpenCL();
    e.Run(out, Frames(numSamples), sin, cos, log);
  }
}
