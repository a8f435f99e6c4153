/** The mulberry32 pseudo-random generator used to lay out moons
    (src/components/SolarSystem2D.jsx, lines 34-41).

    In JavaScript the captured state `a` is a double that grows by 0x6d2b79f5
    on every call and is never wrapped; the operators `^`, `>>>`, `|` and
    `Math.imul` reduce their operands modulo 2^32 before using them. Only that
    residue ever reaches the output, so the model keeps the state as a `bv32`
    word whose addition wraps modulo 2^32. The two agree while the double `a`
    stays an exact integer, that is below 2^53, which holds for every seed and
    draw count of the moon precompute (see Planets.PrecomputeStaysExact). */
module Mulberry32 {

  /** What every call adds to the generator's state. */
  const Increment: bv32 := 0x6d2b79f5

  /** The state update of a call, `a += 0x6d2b79f5`, on the 32-bit residue of `a`:
      the source's double grows without wrapping, but the 32-bit operators that
      read it afterwards see only its residue, which this sum keeps. */
  function Advance(a: bv32): bv32
  {
    a + Increment
  }

  /** 2^32, the divisor that turns a 32-bit word into a fraction. */
  const TwoTo32: int := 0x1_0000_0000

  /** First mixing step: `Math.imul(t ^ (t >>> 15), t | 1)`. */
  function Scramble(t: bv32): bv32
  {
    (t ^ (t >> 15)) * (t | 1)
  }

  /** Second mixing step: `t ^= t + Math.imul(t ^ (t >>> 7), t | 61)`; the sum of
      two 32-bit integers is reduced again by the `^`, so it wraps like `bv32` addition. */
  function Fold(t: bv32): bv32
  {
    t ^ (t + (t ^ (t >> 7)) * (t | 61))
  }

  /** Last step: `(t ^ (t >>> 14)) >>> 0`, read as an unsigned word. */
  function Finish(t: bv32): bv32
  {
    t ^ (t >> 14)
  }

  /** The fixed xor/shift/multiply mixing of one state word into an output word. */
  function Mix(t: bv32): bv32
  {
    Finish(Fold(Scramble(t)))
  }

  /** An unsigned word divided by 2^32: exactly k / 2^32, so in [0, 1). */
  function Frac(k: bv32): (x: real)
    ensures 0.0 <= x < 1.0
    ensures x * (TwoTo32 as real) == (k as int) as real
  {
    (k as int) as real / (TwoTo32 as real)
  }

  /** The value a call returns once it has advanced the state to `a`. */
  function Draw(a: bv32): (x: real)
    ensures 0.0 <= x < 1.0
  {
    Frac(Mix(a))
  }

  /** The state after `n` calls of a generator created from `seed`: seed plus
      n·0x6d2b79f5, modulo 2^32. */
  function StateAfter(seed: bv32, n: nat): bv32
  {
    if n == 0 then seed else Advance(StateAfter(seed, n - 1))
  }

  /** One more call adds the increment to the state. */
  lemma StateStep(seed: bv32, n: nat, m: nat)
    requires m == n + 1
    ensures StateAfter(seed, m) == Advance(StateAfter(seed, n))
  {
  }

  /** A generator whose state is the state after m calls goes on as the original:
      n more calls reach the state after m + n calls. */
  lemma {:induction false} StateAfterAdd(seed: bv32, m: nat, n: nat)
    ensures StateAfter(seed, m + n) == StateAfter(StateAfter(seed, m), n)
  {
    if n > 0 {
      StateAfterAdd(seed, m, n - 1);
      StateStep(seed, m + n - 1, m + n);
    }
  }

  /** The value returned by call n (counting calls from 1): the mix of the
      state after n calls. */
  function Output(seed: bv32, n: nat): (x: real)
    ensures 0.0 <= x < 1.0
  {
    Draw(StateAfter(seed, n))
  }

  /** The values returned by the first `n` calls of a generator created from `seed`. */
  function Draws(seed: bv32, n: nat): (xs: seq<real>)
    ensures |xs| == n
  {
    if n == 0 then [] else Draws(seed, n - 1) + [Output(seed, n)]
  }

  /** One more call appends its value to the stream. */
  lemma DrawsStep(seed: bv32, n: nat, m: nat)
    requires m == n + 1
    ensures Draws(seed, m) == Draws(seed, n) + [Output(seed, m)]
  {
  }

  /** The first m + n values are the first m values followed by the first n values
      of a generator started from the state after m calls. */
  lemma {:induction false} DrawsAppend(seed: bv32, m: nat, n: nat)
    ensures Draws(seed, m + n) == Draws(seed, m) + Draws(StateAfter(seed, m), n)
  {
    if n > 0 {
      DrawsAppend(seed, m, n - 1);
      DrawsStep(seed, m + n - 1, m + n);
      StateAfterAdd(seed, m, n);
      DrawsStep(StateAfter(seed, m), n - 1, n);
    }
  }

  /** Value k of the stream is the value of call k+1, a function of the seed and
      the index alone, however many values are drawn after it. */
  lemma {:induction false} DrawsAt(seed: bv32, n: nat, k: nat)
    requires k < n
    ensures Draws(seed, n)[k] == Output(seed, k + 1)
  {
    if k < n - 1 {
      DrawsAt(seed, n - 1, k);
    }
  }

  /** Every value of the stream lies in [0, 1). */
  lemma DrawsInRange(seed: bv32, n: nat)
    ensures forall k :: 0 <= k < n ==> 0.0 <= Draws(seed, n)[k] < 1.0
  {
  }

  /** Drawing more values never changes the earlier ones. */
  lemma {:induction false} DrawsPrefix(seed: bv32, m: nat, n: nat)
    requires m <= n
    ensures Draws(seed, m) == Draws(seed, n)[..m]
  {
    if m < n {
      DrawsPrefix(seed, m, n - 1);
      assert Draws(seed, n)[..n - 1] == Draws(seed, n - 1);
    }
  }

  /** The closure returned by `mulberry32(seed)`: one mutable state number. */
  class Generator {
    var a: bv32

    constructor (seed: bv32)
      ensures a == seed
    {
      a := seed;
    }

    /** One call: advance the state, then mix it step by step. */
    method Next() returns (x: real)
      modifies this
      ensures a == Advance(old(a))
      ensures x == Draw(a)
      ensures 0.0 <= x < 1.0
    {
      a := Advance(a);
      var t := a;
      t := Scramble(t);
      t := Fold(t);
      x := Frac(Finish(t));
    }
  }
}
