/** The granular engine shared by C++/5.cpp and OpenCL/5.cpp: a dust
    trigger allocates one FM grain per voice on each rising edge, every
    grain plays for 0.02 s under a raised-cosine window, and each voice's
    sum is folded into [-|level|, |level|] by a slow sine. The two sources
    differ only in the voice frequencies and in whether phases are wrapped
    at 2*pi (`wrap`). */
module GrainPool {
  import opened Numeric
  import opened Folding
  import opened Xorshift

  const SR: real := 44100.0
  const NUM_VOICES: int := 5
  const MAX_GRAINS: int := 512
  const DENSITY: real := 100.0
  /** `density / SR`: the dust intensity per sample. */
  const SCALE: real := DENSITY / SR
  const LINE_START: real := 0.1
  const LINE_MAX: real := 20.0
  /** The modulation depth ramps from 0.1 to 20 over five seconds. */
  const LINE_SLOPE: real := (LINE_MAX - LINE_START) / (5.0 * SR)
  /** The folding sine runs at 20 Hz. */
  const SIN_INC: real := TWO_PI * 20.0 / SR
  /** `0.02f * SR`: every grain lasts 882 samples. */
  const GRAIN_DUR: real := 0.02 * SR

  datatype Grain = Grain(counter: real, dur: real, carPhase: real, modPhase: real,
                         carInc: real, modInc: real)

  /** The grain a trigger starts on a voice with free room. */
  function NewGrain(freq: real, modFreq: real): Grain {
    Grain(GRAIN_DUR, GRAIN_DUR, 0.0, 0.0, TWO_PI * freq / SR, TWO_PI * modFreq / SR)
  }

  /** `trig > 0 && prev_trig <= 0`. */
  predicate Rising(trig: real, prevTrig: real) {
    trig > 0.0 && prevTrig <= 0.0
  }

  /** A phase advanced by its increment and, when wrapping, brought back by 2*pi
      once it passes 2*pi. */
  function AdvancePhase(wrap: bool, p: real, inc: real): (q: real)
    ensures q == p + inc || (wrap && q == p + inc - TWO_PI)
    ensures wrap && 0.0 <= p <= TWO_PI && 0.0 <= inc <= TWO_PI ==> 0.0 <= q <= TWO_PI
    ensures !wrap && 0.0 <= p && 0.0 <= inc ==> p <= q
  {
    if wrap && p + inc > TWO_PI then p + inc - TWO_PI else p + inc
  }

  /** A slot's grain sounds while its counter is positive. */
  predicate Playing(g: Grain) {
    g.counter > 0.0
  }

  /** One sample of a playing grain: both phases advance, the counter drops by one. */
  function Step(wrap: bool, g: Grain): Grain {
    g.(counter := g.counter - 1.0,
       modPhase := AdvancePhase(wrap, g.modPhase, g.modInc),
       carPhase := AdvancePhase(wrap, g.carPhase, g.carInc))
  }

  /** The grain is swapped out this sample: it played and its counter reached 0. */
  predicate Expires(g: Grain) {
    Playing(g) && g.counter - 1.0 <= 0.0
  }

  /** `0.5 * (1 - cos(2*pi*fraction))` with `fraction = 1 - counter/dur`. */
  function Envelope(cos: real -> real, g: Grain): real {
    var fraction := 1.0 - (if g.dur != 0.0 then g.counter / g.dur else 0.0);
    0.5 * (1.0 - cos(TWO_PI * fraction))
  }

  /** What a slot adds to its voice's `out`: FM at modulation depth `depth`
      under the window, or nothing if it is not playing. */
  function Contribution(sin: real -> real, cos: real -> real, depth: real, g: Grain): real {
    if Playing(g) then Voice(sin, cos, depth, g) else 0.0
  }

  /** `sig * env`: the carrier phase-modulated by `sin(mod_phase) * depth`, under the window. */
  function Voice(sin: real -> real, cos: real -> real, depth: real, g: Grain): real {
    sin(g.carPhase + sin(g.modPhase) * depth) * Envelope(cos, g)
  }

  /** What a pool of grains adds to its voice in one sample. */
  function PoolOut(sin: real -> real, cos: real -> real, depth: real, s: seq<Grain>): real {
    if s == [] then 0.0
    else PoolOut(sin, cos, depth, s[..|s| - 1]) + Contribution(sin, cos, depth, s[|s| - 1])
  }

  /** What a slot becomes after the sample: idle slots stay, expiring grains leave,
      playing ones advance. */
  function Kept(wrap: bool, g: Grain): seq<Grain> {
    if !Playing(g) then [g] else if Expires(g) then [] else [Step(wrap, g)]
  }

  /** The pool after one sample, up to order. */
  function Survivors(wrap: bool, s: seq<Grain>): (r: seq<Grain>)
    ensures |r| <= |s|
  {
    if s == [] then [] else Survivors(wrap, s[..|s| - 1]) + Kept(wrap, s[|s| - 1])
  }

  /** `s` without its element at j. */
  function Without(s: seq<Grain>, j: int): (r: seq<Grain>)
    requires 0 <= j < |s|
    ensures |r| == |s| - 1
    ensures multiset(s) == multiset(r) + multiset{s[j]}
  {
    assert s == s[..j] + [s[j]] + s[j + 1..];
    s[..j] + s[j + 1..]
  }

  /** Removing an element before the last one commutes with dropping the last. */
  lemma WithoutSnoc(s: seq<Grain>, j: int)
    requires 0 <= j < |s|
    ensures j < |s| - 1 ==> Without(s, j)[..|s| - 2] == Without(s[..|s| - 1], j)
    ensures j < |s| - 1 ==> Without(s, j)[|s| - 2] == s[|s| - 1]
    ensures j == |s| - 1 ==> Without(s, j) == s[..|s| - 1]
  {
    if j < |s| - 1 {
      assert Without(s, j)[..|s| - 2] == Without(s[..|s| - 1], j);
    }
  }

  /** A pool's output is the output without one grain plus that grain's. */
  lemma {:induction false} PoolOutWithout(sin: real -> real, cos: real -> real, depth: real, s: seq<Grain>, j: int)
    requires 0 <= j < |s|
    ensures PoolOut(sin, cos, depth, s) == PoolOut(sin, cos, depth, Without(s, j)) + Contribution(sin, cos, depth, s[j])
    decreases |s|
  {
    var last := |s| - 1;
    WithoutSnoc(s, j);
    if j < last {
      PoolOutWithout(sin, cos, depth, s[..last], j);
    }
  }

  /** The survivors of a pool are the survivors without one grain plus what that grain leaves. */
  lemma SurvivorsWithout(wrap: bool, s: seq<Grain>, j: int)
    requires 0 <= j < |s|
    ensures multiset(Survivors(wrap, s)) == multiset(Survivors(wrap, Without(s, j))) + multiset(Kept(wrap, s[j]))
  {
    var pre, post := s[..j], s[j + 1..];
    assert s == (pre + [s[j]]) + post;
    SurvivorsConcat(wrap, pre + [s[j]], post);
    SurvivorsConcat(wrap, pre, post);
    assert Survivors(wrap, pre + [s[j]]) == Survivors(wrap, pre) + Kept(wrap, s[j]);
  }

  /** Survivors are computed slot by slot, so they distribute over concatenation. */
  lemma {:induction false} SurvivorsConcat(wrap: bool, a: seq<Grain>, b: seq<Grain>)
    ensures Survivors(wrap, a + b) == Survivors(wrap, a) + Survivors(wrap, b)
    decreases |b|
  {
    if b == [] {
      assert a + b == a;
    } else {
      var init := b[..|b| - 1];
      assert (a + b)[..|a + b| - 1] == a + init;
      SurvivorsConcat(wrap, a, init);
    }
  }

  /** The order in which a pool is processed changes neither the voice's output
      nor which grains survive. */
  lemma {:induction false} ProcessingOrderIrrelevant(wrap: bool, sin: real -> real, cos: real -> real, depth: real,
                                                     a: seq<Grain>, b: seq<Grain>)
    requires multiset(a) == multiset(b)
    ensures PoolOut(sin, cos, depth, a) == PoolOut(sin, cos, depth, b)
    ensures multiset(Survivors(wrap, a)) == multiset(Survivors(wrap, b))
    decreases |a|
  {
    if a != [] {
      var last := |a| - 1;
      var x := a[last];
      assert a == a[..last] + [x];
      assert x in multiset(b);
      var j :| 0 <= j < |b| && b[j] == x;
      var a', b' := a[..last], Without(b, j);
      assert multiset(a) == multiset(a') + multiset{x};
      assert multiset(a') == multiset(a) - multiset{x} == multiset(b) - multiset{x} == multiset(b');
      PoolOutWithout(sin, cos, depth, b, j);
      SurvivorsWithout(wrap, b, j);
      ProcessingOrderIrrelevant(wrap, sin, cos, depth, a', b');
      assert PoolOut(sin, cos, depth, a) == PoolOut(sin, cos, depth, a') + Contribution(sin, cos, depth, x);
      assert Survivors(wrap, a) == Survivors(wrap, a') + Kept(wrap, x);
    } else {
      assert |b| == |multiset(b)| == 0;
    }
  }

  /** Processing one more grain extends the output and the survivors by that grain's share. */
  lemma Extend(wrap: bool, sin: real -> real, cos: real -> real, depth: real, done: seq<Grain>, g: Grain)
    ensures PoolOut(sin, cos, depth, done + [g]) == PoolOut(sin, cos, depth, done) + Contribution(sin, cos, depth, g)
    ensures Survivors(wrap, done + [g]) == Survivors(wrap, done) + Kept(wrap, g)
  {
    assert (done + [g])[..|done|] == done;
  }

  /** What is left to process after the head expired: the last grain moves to the front. */
  function SwapLast(todo: seq<Grain>): (r: seq<Grain>)
    requires |todo| > 0
    ensures multiset(r) == multiset(todo[1..])
    ensures |r| == |todo| - 1
  {
    if |todo| == 1 then []
    else
      assert todo[1..] == todo[1..|todo| - 1] + [todo[|todo| - 1]];
      [todo[|todo| - 1]] + todo[1..|todo| - 1]
  }

  /** Writing slot k of a range keeps the part before it and the part after it. */
  lemma WriteInRange(s: seq<Grain>, lo: int, k: int, hi: int, x: Grain)
    requires 0 <= lo <= k < hi <= |s|
    ensures s[k := x][lo..k] == s[lo..k]
    ensures s[k := x][lo..k + 1] == s[lo..k] + [x]
    ensures s[k := x][k + 1..hi] == s[k + 1..hi]
  {
  }

  /** Overwriting slot k with the last slot of [k, hi) and dropping the last slot
      leaves the unprocessed grains as `SwapLast` says. */
  lemma SwapInRange(s: seq<Grain>, k: int, hi: int)
    requires 0 <= k < hi <= |s|
    ensures s[k := s[hi - 1]][k..hi - 1] == SwapLast(s[k..hi])
  {
    var t := s[k..hi];
    if k < hi - 1 {
      var r := s[k := s[hi - 1]][k..hi - 1];
      assert |r| == |SwapLast(t)|;
      forall i | 0 <= i < |r|
        ensures r[i] == SwapLast(t)[i]
      {
        if i > 0 {
          assert r[i] == s[k + i];
          assert SwapLast(t)[i] == t[i];
        }
      }
    }
  }

  /** After an expiry, the processed slots are untouched and the unprocessed ones are
      the rest of the old range in another order. */
  lemma ExpireSlices(cur: seq<Grain>, base: int, k: int, hi: int, x: Grain)
    requires 0 <= base <= k < hi <= |cur|
    requires k < hi - 1 ==> x == cur[hi - 1]
    ensures cur[k := x][base..k] == cur[base..k]
    ensures multiset(cur[k := x][k..hi - 1]) == multiset(cur[k + 1..hi])
  {
    WriteInRange(cur, base, k, hi, x);
    if k < hi - 1 {
      SwapInRange(cur, k, hi);
      assert cur[k..hi][1..] == cur[k + 1..hi];
    }
  }

  /** The pool is always split between the processed grains and the unprocessed slots. */
  lemma PoolSplit(pool: seq<Grain>, done: seq<Grain>, cur: seq<Grain>, k: int, hi: int, rest: seq<Grain>)
    requires 0 <= k < hi <= |cur|
    requires multiset(done) + multiset(cur[k..hi]) == multiset(pool)
    requires multiset(rest) == multiset(cur[k + 1..hi])
    ensures multiset(done + [cur[k]]) + multiset(rest) == multiset(pool)
  {
    var gr := cur[k];
    assert cur[k..hi] == [gr] + cur[k + 1..hi];
    assert multiset(done + [gr]) == multiset(done) + multiset{gr};
  }

  /** The processed slots always hold the survivors of the processed grains. */
  lemma KeptSplit(wrap: bool, done: seq<Grain>, gr: Grain, before: seq<Grain>, after: seq<Grain>)
    requires multiset(before) == multiset(Survivors(wrap, done))
    requires after == before + Kept(wrap, gr)
    ensures multiset(after) == multiset(Survivors(wrap, done + [gr]))
  {
    assert Survivors(wrap, done + [gr]) == Survivors(wrap, done) + Kept(wrap, gr) by {
      assert (done + [gr])[..|done|] == done;
    }
  }

  /** What slot k of the active range [.., hi) holds after one pass of the loop body. */
  function Written(wrap: bool, s: seq<Grain>, k: int, hi: int): Grain
    requires 0 <= k < hi <= |s|
  {
    var gr := s[k];
    if !Playing(gr) then gr
    else if Expires(gr) && k < hi - 1 then s[hi - 1]
    else Step(wrap, gr)
  }

  /** One pass of the grain loop's body at slot k of the active slots [.., hi):
      a playing grain sounds, advances, and if it expired is overwritten by the
      last active grain (`grains[v][g] = grains[v][--num_active[v]]; g--`), so the
      same slot is visited again. The loop works on absolute slot numbers here:
      slot k is `grains[v][k - base]` and hi is `base + num_active[v]`. */
  method PlaySlot(a: array<Grain>, k: int, hi: int, wrap: bool,
                  sin: real -> real, cos: real -> real, depth: real, ghost cur: seq<Grain>)
    returns (c: real, k2: int, hi2: int)
    requires 0 <= k < hi <= a.Length
    requires a[..] == cur
    modifies a
    ensures c == Contribution(sin, cos, depth, cur[k])
    ensures a[..] == cur[k := Written(wrap, cur, k, hi)]
    ensures Expires(cur[k]) ==> hi2 == hi - 1 && k2 == k
    ensures !Expires(cur[k]) ==> hi2 == hi && k2 == k + 1
  {
    var gr := a[k];
    c, k2, hi2 := 0.0, k, hi;
    if gr.counter > 0.0 {
      c := Voice(sin, cos, depth, gr);
      a[k] := Step(wrap, gr);
      if a[k].counter <= 0.0 {
        hi2 := hi - 1;
        a[k] := a[hi2];
      } else {
        k2 := k + 1;
      }
    } else {
      k2 := k + 1;
    }
  }

  /** The loop's bookkeeping over the array contents `cur`: `done` are the grains
      processed so far, the slots [base, lo) hold their survivors and the slots
      [lo, hi) the rest of the pool. */
  predicate Bookkeeping(wrap: bool, pool: seq<Grain>, done: seq<Grain>, cur: seq<Grain>,
                        base: int, lo: int, hi: int)
    requires 0 <= base <= lo <= hi <= |cur|
  {
    multiset(done) + multiset(cur[lo..hi]) == multiset(pool)
    && multiset(cur[base..lo]) == multiset(Survivors(wrap, done))
  }

  /** The bookkeeping survives an expiry at slot k: the grain leaves the range. */
  lemma ExpireBookkeeping(wrap: bool, pool: seq<Grain>, done: seq<Grain>, cur: seq<Grain>,
                          base: int, k: int, hi: int, cur2: seq<Grain>, lo2: int, hi2: int)
    requires 0 <= base <= k < hi <= |cur|
    requires Bookkeeping(wrap, pool, done, cur, base, k, hi)
    requires Expires(cur[k])
    requires cur2 == cur[k := Written(wrap, cur, k, hi)] && lo2 == k && hi2 == hi - 1
    ensures multiset(done + [cur[k]]) + multiset(cur2[lo2..hi2]) == multiset(pool)
    ensures multiset(cur2[base..lo2]) == multiset(Survivors(wrap, done + [cur[k]]))
  {
    var x := Written(wrap, cur, k, hi);
    ExpireSlices(cur, base, k, hi, x);
    PoolSplit(pool, done, cur, k, hi, cur[k := x][k..hi - 1]);
    KeptSplit(wrap, done, cur[k], cur[base..k], cur[k := x][base..k]);
  }

  /** The bookkeeping survives a grain that stays (or is idle): the processed range grows. */
  lemma KeepBookkeeping(wrap: bool, pool: seq<Grain>, done: seq<Grain>, cur: seq<Grain>,
                        base: int, k: int, hi: int, cur2: seq<Grain>, lo2: int, hi2: int)
    requires 0 <= base <= k < hi <= |cur|
    requires Bookkeeping(wrap, pool, done, cur, base, k, hi)
    requires !Expires(cur[k])
    requires cur2 == cur[k := Written(wrap, cur, k, hi)] && lo2 == k + 1 && hi2 == hi
    ensures multiset(done + [cur[k]]) + multiset(cur2[lo2..hi2]) == multiset(pool)
    ensures multiset(cur2[base..lo2]) == multiset(Survivors(wrap, done + [cur[k]]))
  {
    var x := Written(wrap, cur, k, hi);
    WriteInRange(cur, base, k, hi, x);
    PoolSplit(pool, done, cur, k, hi, cur[k := x][k + 1..hi]);
    KeptSplit(wrap, done, cur[k], cur[base..k], cur[k := x][base..k + 1]);
  }

  /** One pass of the loop body keeps the bookkeeping: the slot's grain joins `done`. */
  lemma StepBookkeeping(wrap: bool, pool: seq<Grain>, done: seq<Grain>, cur: seq<Grain>,
                        base: int, k: int, hi: int, cur2: seq<Grain>, lo2: int, hi2: int)
    requires 0 <= base <= k < hi <= |cur|
    requires Bookkeeping(wrap, pool, done, cur, base, k, hi)
    requires cur2 == cur[k := Written(wrap, cur, k, hi)]
    requires Expires(cur[k]) ==> lo2 == k && hi2 == hi - 1
    requires !Expires(cur[k]) ==> lo2 == k + 1 && hi2 == hi
    ensures Bookkeeping(wrap, pool, done + [cur[k]], cur2, base, lo2, hi2)
  {
    if Expires(cur[k]) {
      ExpireBookkeeping(wrap, pool, done, cur, base, k, hi, cur2, lo2, hi2);
    } else {
      KeepBookkeeping(wrap, pool, done, cur, base, k, hi, cur2, lo2, hi2);
    }
  }

  /** When nothing is left to process, the processed grains are the whole pool. */
  lemma SweepDone(wrap: bool, sin: real -> real, cos: real -> real, depth: real,
                  pool: seq<Grain>, done: seq<Grain>, cur: seq<Grain>, base: int, hi: int)
    requires 0 <= base <= hi <= |cur|
    requires Bookkeeping(wrap, pool, done, cur, base, hi, hi)
    ensures PoolOut(sin, cos, depth, done) == PoolOut(sin, cos, depth, pool)
    ensures multiset(cur[base..hi]) == multiset(Survivors(wrap, pool))
  {
    assert cur[hi..hi] == [];
    ProcessingOrderIrrelevant(wrap, sin, cos, depth, done, pool);
  }

  /** What the grain loop leaves behind when it starts at slot k with the active
      range ending at hi: the slots, the end of the active range, and what the
      visited grains contributed. */
  datatype SweepResult = SweepResult(slots: seq<Grain>, hi: int, out: real)

  /** The grain loop from slot k on, one pass of its body per call: an expired
      grain is overwritten by the last active one and its slot is visited again. */
  function SweepFrom(wrap: bool, sin: real -> real, cos: real -> real, depth: real,
                     cur: seq<Grain>, k: int, hi: int): (r: SweepResult)
    requires 0 <= k <= hi <= |cur|
    ensures |r.slots| == |cur| && k <= r.hi <= hi
    ensures forall j :: 0 <= j < |cur| && !(k <= j < hi) ==> r.slots[j] == cur[j]
    decreases hi - k
  {
    if k == hi then SweepResult(cur, hi, 0.0)
    else
      var next := cur[k := Written(wrap, cur, k, hi)];
      var r := if Expires(cur[k]) then SweepFrom(wrap, sin, cos, depth, next, k, hi - 1)
               else SweepFrom(wrap, sin, cos, depth, next, k + 1, hi);
      r.(out := Contribution(sin, cos, depth, cur[k]) + r.out)
  }

  /** Whatever has been processed so far, the rest of the loop completes the pool:
      the outputs add up to the pool's output and the active slots end up holding
      the pool's survivors. */
  lemma {:induction false} SweepFromSpec(wrap: bool, sin: real -> real, cos: real -> real, depth: real,
                                         pool: seq<Grain>, done: seq<Grain>, cur: seq<Grain>,
                                         base: int, k: int, hi: int)
    requires 0 <= base <= k <= hi <= |cur|
    requires Bookkeeping(wrap, pool, done, cur, base, k, hi)
    ensures var r := SweepFrom(wrap, sin, cos, depth, cur, k, hi);
      PoolOut(sin, cos, depth, done) + r.out == PoolOut(sin, cos, depth, pool)
      && multiset(r.slots[base..r.hi]) == multiset(Survivors(wrap, pool))
    decreases hi - k
  {
    if k == hi {
      SweepDone(wrap, sin, cos, depth, pool, done, cur, base, hi);
    } else {
      var next := cur[k := Written(wrap, cur, k, hi)];
      var k2, hi2 := if Expires(cur[k]) then k else k + 1, if Expires(cur[k]) then hi - 1 else hi;
      StepBookkeeping(wrap, pool, done, cur, base, k, hi, next, k2, hi2);
      Extend(wrap, sin, cos, depth, done, cur[k]);
      SweepFromSpec(wrap, sin, cos, depth, pool, done + [cur[k]], next, base, k2, hi2);
    }
  }

  /** The grain loop itself: every slot from base up to the shrinking end is visited,
      exactly as SweepFrom describes. */
  method SweepLoop(a: array<Grain>, base: int, n0: int, wrap: bool,
                   sin: real -> real, cos: real -> real, depth: real)
    returns (out: real, hi: int)
    requires 0 <= base && 0 <= n0 && base + n0 <= a.Length
    modifies a
    ensures base <= hi <= base + n0
    ensures out == PoolOut(sin, cos, depth, old(a[..])[base..base + n0])
    ensures multiset(a[..][base..hi]) == multiset(Survivors(wrap, old(a[..])[base..base + n0]))
    ensures forall j :: 0 <= j < a.Length && !(base <= j < base + n0) ==> a[..][j] == old(a[..])[j]
  {
    ghost var cur0 := a[..];
    ghost var goal := SweepFrom(wrap, sin, cos, depth, cur0, base, base + n0);
    SweepSpec(wrap, sin, cos, depth, cur0, base, base + n0);
    out := 0.0;
    var k := base;
    hi := base + n0;
    while k < hi
      invariant base <= k <= hi <= base + n0
      invariant Completes(SweepFrom(wrap, sin, cos, depth, a[..], k, hi), out, goal)
      decreases hi - k
    {
      ghost var cur := a[..];
      var c, k2, hi2 := PlaySlot(a, k, hi, wrap, sin, cos, depth, cur);
      SweepFromStep(wrap, sin, cos, depth, cur, k, hi, k2, hi2);
      out, k, hi := out + c, k2, hi2;
    }
    assert a[..] == goal.slots;
  }

  /** The rest of the loop, `r`, started with `out` already accumulated, ends in `goal`. */
  predicate Completes(r: SweepResult, out: real, goal: SweepResult) {
    r.slots == goal.slots && r.hi == goal.hi && out + r.out == goal.out
  }

  /** SweepFrom unfolded once, with the next slot and range end named as the loop body
      computes them. */
  lemma SweepFromStep(wrap: bool, sin: real -> real, cos: real -> real, depth: real,
                      cur: seq<Grain>, k: int, hi: int, k2: int, hi2: int)
    requires 0 <= k < hi <= |cur|
    requires Expires(cur[k]) ==> hi2 == hi - 1 && k2 == k
    requires !Expires(cur[k]) ==> hi2 == hi && k2 == k + 1
    ensures var r := SweepFrom(wrap, sin, cos, depth, cur[k := Written(wrap, cur, k, hi)], k2, hi2);
      SweepFrom(wrap, sin, cos, depth, cur, k, hi) == r.(out := Contribution(sin, cos, depth, cur[k]) + r.out)
  {
  }

  /** The grain loop of one voice on the slots [base, base + n0) of the flattened
      pool array. Every grain active at entry is processed exactly once, so the
      voice's output is the pool's output and the slots left active hold exactly
      the survivors, in some order; no other slot changes. */
  method Sweep(a: array<Grain>, base: int, n0: int, wrap: bool,
               sin: real -> real, cos: real -> real, depth: real) returns (out: real, n: int)
    requires 0 <= base && 0 <= n0 && base + n0 <= a.Length
    modifies a
    ensures 0 <= n <= n0
    ensures out == PoolOut(sin, cos, depth, old(a[..])[base..base + n0])
    ensures multiset(a[..][base..base + n]) == multiset(Survivors(wrap, old(a[..])[base..base + n0]))
    ensures forall k :: 0 <= k < a.Length && !(base <= k < base + n0) ==> a[..][k] == old(a[..])[k]
  {
    var hi;
    out, hi := SweepLoop(a, base, n0, wrap, sin, cos, depth);
    n := hi - base;
  }

  /** The grain loop over a whole pool [base, hi0): the pool's output, its survivors
      in the active slots, and nothing outside the pool touched. */
  lemma SweepSpec(wrap: bool, sin: real -> real, cos: real -> real, depth: real,
                  cur: seq<Grain>, base: int, hi0: int)
    requires 0 <= base <= hi0 <= |cur|
    ensures var r := SweepFrom(wrap, sin, cos, depth, cur, base, hi0);
      r.out == PoolOut(sin, cos, depth, cur[base..hi0])
      && multiset(r.slots[base..r.hi]) == multiset(Survivors(wrap, cur[base..hi0]))
  {
    var pool := cur[base..hi0];
    assert Bookkeeping(wrap, pool, [], cur, base, base, hi0);
    SweepFromSpec(wrap, sin, cos, depth, pool, [], cur, base, base, hi0);
  }
}
