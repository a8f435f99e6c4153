/** The moon layout generator `createMoons` (src/components/SolarSystem2D.jsx,
    lines 43-56). Every moon takes four consecutive values from one mulberry32
    generator, in the order size, orbit, period, phase. Numeric fields are exact
    reals; the source computes them in double precision. */
module MoonLayout {
  import opened Mulberry32

  /** One generated moon: body size, orbit radius around its planet, orbital
      period and starting phase in radians. */
  datatype Moon = Moon(r: real, orbit: real, period: real, phase: real)

  /** The decimal value of JavaScript's `Math.PI`. */
  const Pi: real := 3.141592653589793

  /** The record pushed for moon `i` from its four draws (lines 47-53). */
  function MoonOf(i: nat, base: real, uSize: real, uOrbit: real, uPeriod: real, uPhase: real): Moon
  {
    var orbit := base + 6.0 + i as real * 1.2 + uOrbit * 0.8;
    Moon(2.0 + uSize * 2.0, orbit, 2.0 + orbit * 0.15 + uPeriod * 0.5, uPhase * Pi * 2.0)
  }

  /** The moons built from a stream of draws, four per moon, consumed from the
      front: moon k uses u[4k], u[4k+1], u[4k+2], u[4k+3] and nothing else. */
  function MoonsFromDraws(u: seq<real>, base: real): (ms: seq<Moon>)
    requires |u| % 4 == 0
    ensures |ms| == |u| / 4
    decreases |u|
  {
    if |u| == 0 then []
    else
      var k := |u| - 4;
      MoonsFromDraws(u[..k], base) + [MoonOf(k / 4, base, u[k], u[k + 1], u[k + 2], u[k + 3])]
  }

  /** What `createMoons(seed, count, base)` returns: the moons made from the first
      4·count values of `mulberry32(seed)`, four per moon, in order. */
  function Moons(seed: bv32, count: nat, base: real): (ms: seq<Moon>)
    ensures |ms| == count
  {
    MoonsFromDraws(Draws(seed, 4 * count), base)
  }

  /** Moon i made directly from the values of calls 4i+1, 4i+2, 4i+3 and 4i+4,
      as size, orbit, period and phase. */
  function NthMoon(seed: bv32, i: nat, base: real): Moon
  {
    MoonOf(i, base, Output(seed, 4 * i + 1), Output(seed, 4 * i + 2), Output(seed, 4 * i + 3), Output(seed, 4 * i + 4))
  }

  /** The bounds a moon of index `i` around a planet of base radius `base` keeps
      when every draw lies in [0, 1). */
  predicate InBounds(m: Moon, i: nat, base: real)
  {
    && 2.0 <= m.r < 4.0
    && base + 6.0 + 1.2 * i as real <= m.orbit < base + 6.8 + 1.2 * i as real
    && 2.0 + 0.15 * m.orbit <= m.period < 2.5 + 0.15 * m.orbit
    && 0.0 <= m.phase < 2.0 * Pi
  }

  /** Moon i of a draw stream is built from draws 4i..4i+3, in that order. */
  lemma {:induction false} MoonsFromDrawsAt(u: seq<real>, base: real, i: nat)
    requires |u| % 4 == 0 && i < |u| / 4
    ensures MoonsFromDraws(u, base)[i] == MoonOf(i, base, u[4 * i], u[4 * i + 1], u[4 * i + 2], u[4 * i + 3])
    decreases |u|
  {
    var k := |u| - 4;
    if i < k / 4 {
      MoonsFromDrawsAt(u[..k], base, i);
    }
  }

  /** Shortening a draw stream by whole moons only drops moons from the end. */
  lemma {:induction false} MoonsFromDrawsPrefix(u: seq<real>, base: real, m: nat)
    requires |u| % 4 == 0 && m <= |u| / 4
    ensures MoonsFromDraws(u[..4 * m], base) == MoonsFromDraws(u, base)[..m]
    decreases |u|
  {
    if m < |u| / 4 {
      var k := |u| - 4;
      assert u[..k][..4 * m] == u[..4 * m];
      MoonsFromDrawsPrefix(u[..k], base, m);
    } else {
      assert u[..4 * m] == u;
    }
  }

  /** Four more draws add exactly one moon, made from those four. */
  lemma MoonsFromDrawsSnoc(u: seq<real>, base: real, v0: real, v1: real, v2: real, v3: real)
    requires |u| % 4 == 0
    ensures MoonsFromDraws(u + [v0, v1, v2, v3], base) == MoonsFromDraws(u, base) + [MoonOf(|u| / 4, base, v0, v1, v2, v3)]
  {
  }

  /** Moon i of `createMoons(seed, count, base)` is NthMoon(seed, i, base),
      whatever the count. */
  lemma MoonsAt(seed: bv32, count: nat, base: real, i: nat)
    requires i < count
    ensures Moons(seed, count, base)[i] == NthMoon(seed, i, base)
  {
    var n := 4 * count;
    MoonsFromDrawsAt(Draws(seed, n), base, i);
    DrawsAt(seed, n, 4 * i);
    DrawsAt(seed, n, 4 * i + 1);
    DrawsAt(seed, n, 4 * i + 2);
    DrawsAt(seed, n, 4 * i + 3);
  }

  /** A moon made from four draws in [0, 1) keeps the size, orbit, period and
      phase ranges. */
  lemma MoonOfInBounds(i: nat, base: real, uSize: real, uOrbit: real, uPeriod: real, uPhase: real)
    requires 0.0 <= uSize < 1.0 && 0.0 <= uOrbit < 1.0 && 0.0 <= uPeriod < 1.0 && 0.0 <= uPhase < 1.0
    ensures InBounds(MoonOf(i, base, uSize, uOrbit, uPeriod, uPhase), i, base)
  {
  }

  /** Every moon of `createMoons(seed, count, base)` keeps the ranges of InBounds. */
  lemma MoonBounds(seed: bv32, count: nat, base: real, i: nat)
    requires i < count
    ensures InBounds(Moons(seed, count, base)[i], i, base)
  {
    MoonsAt(seed, count, base, i);
    MoonOfInBounds(i, base, Output(seed, 4 * i + 1), Output(seed, 4 * i + 2), Output(seed, 4 * i + 3), Output(seed, 4 * i + 4));
  }

  /** Moon orbits strictly increase with the moon's index. */
  lemma OrbitsIncrease(seed: bv32, count: nat, base: real, i: nat, j: nat)
    requires i < j < count
    ensures Moons(seed, count, base)[i].orbit < Moons(seed, count, base)[j].orbit
  {
    MoonBounds(seed, count, base, i);
    MoonBounds(seed, count, base, j);
  }

  /** Asking for fewer moons from the same seed gives a prefix of the longer list. */
  lemma MoonsPrefix(seed: bv32, m: nat, n: nat, base: real)
    requires m <= n
    ensures Moons(seed, m, base) == Moons(seed, n, base)[..m]
  {
    DrawsPrefix(seed, 4 * m, 4 * n);
    MoonsFromDrawsPrefix(Draws(seed, 4 * n), base, m);
  }

  /** Four more calls extend the draw stream by their four values. */
  lemma DrawsByFour(seed: bv32, n0: nat, n1: nat, n2: nat, n3: nat, n4: nat)
    requires n1 == n0 + 1 && n2 == n0 + 2 && n3 == n0 + 3 && n4 == n0 + 4
    ensures Draws(seed, n4) == Draws(seed, n0) + [Output(seed, n1), Output(seed, n2), Output(seed, n3), Output(seed, n4)]
  {
    DrawsStep(seed, n0, n1);
    DrawsStep(seed, n1, n2);
    DrawsStep(seed, n2, n3);
    DrawsStep(seed, n3, n4);
  }

  /** One more moon: four more calls, whose values make moon i. */
  lemma MoonsStep(seed: bv32, base: real, i: nat, n0: nat, n1: nat, n2: nat, n3: nat, n4: nat)
    requires n0 == 4 * i && n1 == n0 + 1 && n2 == n0 + 2 && n3 == n0 + 3 && n4 == n0 + 4
    ensures Moons(seed, i + 1, base) == Moons(seed, i, base) + [MoonOf(i, base, Output(seed, n1), Output(seed, n2), Output(seed, n3), Output(seed, n4))]
  {
    DrawsByFour(seed, n0, n1, n2, n3, n4);
    MoonsFromDrawsSnoc(Draws(seed, n0), base, Output(seed, n1), Output(seed, n2), Output(seed, n3), Output(seed, n4));
  }

  /** `createMoons`: one generator, a loop that draws four values per index and
      pushes the moon they make. */
  method CreateMoons(seed: bv32, count: nat, baseOrbit: real) returns (moons: seq<Moon>)
    ensures moons == Moons(seed, count, baseOrbit)
  {
    var rnd := new Generator(seed);
    moons := [];
    var i := 0;
    ghost var calls := 0;
    while i < count
      invariant 0 <= i <= count
      invariant calls == 4 * i
      invariant rnd.a == StateAfter(seed, calls)
      invariant moons == Moons(seed, i, baseOrbit)
    {
      ghost var n1, n2, n3, n4 := calls + 1, calls + 2, calls + 3, calls + 4;
      StateStep(seed, calls, n1);
      var uSize := rnd.Next();
      StateStep(seed, n1, n2);
      var uOrbit := rnd.Next();
      StateStep(seed, n2, n3);
      var uPeriod := rnd.Next();
      StateStep(seed, n3, n4);
      var uPhase := rnd.Next();
      MoonsStep(seed, baseOrbit, i, calls, n1, n2, n3, n4);
      moons := moons + [MoonOf(i, baseOrbit, uSize, uOrbit, uPeriod, uPhase)];
      i := i + 1;
      calls := n4;
    }
  }
}
