/** The fixed planet table (src/components/SolarSystem2D.jsx, lines 6-31) and the
    per-planet moon precompute `moonsByPlanet` (lines 85-87). */
module Planets {
  import opened Mulberry32
  import opened MoonLayout

  /** One row of `PLANETS`: display radius, orbit radius, orbital period in
      abstract days, and how many moons to generate. */
  datatype Planet = Planet(name: string, color: string, radius: real, orbitR: real, period: real, moons: nat)

  /** The eight planets, innermost first. */
  const PlanetTable: seq<Planet> := [
    Planet("Mercury", "#d4d4d8", 3.0, 30.0, 88.0, 0),
    Planet("Venus", "#fbbf24", 5.0, 45.0, 225.0, 0),
    Planet("Earth", "#38bdf8", 5.5, 60.0, 365.0, 1),
    Planet("Mars", "#f87171", 4.5, 75.0, 687.0, 2),
    Planet("Jupiter", "#fb923c", 9.0, 105.0, 4333.0, 92),
    Planet("Saturn", "#fde68a", 8.0, 135.0, 10759.0, 146),
    Planet("Uranus", "#67e8f9", 7.0, 165.0, 30687.0, 28),
    Planet("Neptune", "#60a5fa", 7.0, 195.0, 60190.0, 16)
  ]

  /** 2^53: below it every integer is exactly representable as a double. */
  const TwoTo53: int := 0x20_0000_0000_0000

  /** The seed of planet `idx` as the number the source computes. */
  function SeedValue(idx: nat): (s: nat)
    ensures 1234 <= s
  {
    1234 + idx * 777
  }

  /** The seed formula gives different planets different seeds, for any number
      of planets. */
  lemma SeedValueInjective(i: nat, j: nat)
    ensures SeedValue(i) == SeedValue(j) ==> i == j
  {
  }

  /** The seeds of the eight planets as generator state words: each is below
      2^32, so the word holds the number itself. */
  const Seeds: seq<bv32> := [1234, 2011, 2788, 3565, 4342, 5119, 5896, 6673]

  /** The seed of planet `idx` as a generator state word. */
  function Seed(idx: nat): bv32
    requires idx < |PlanetTable|
  {
    Seeds[idx]
  }

  /** Each seed word is the number `1234 + idx·777` that the source computes. */
  lemma SeedIsFormula(idx: nat)
    requires idx < |PlanetTable|
    ensures Seed(idx) as int == SeedValue(idx)
  {
  }

  /** `moonsByPlanet`: for every planet, in table order, the moons that
      `createMoons(1234 + idx·777, p.moons, p.radius)` returns. */
  function MoonsByPlanet(): (lists: seq<seq<Moon>>)
    ensures |lists| == |PlanetTable|
  {
    seq(|PlanetTable|, idx requires 0 <= idx < |PlanetTable| =>
      Moons(Seed(idx), PlanetTable[idx].moons, PlanetTable[idx].radius))
  }

  /** List idx has as many moons as its planet's `moons` entry, and it is the
      createMoons result for that planet's seed and radius. */
  lemma PrecomputeShape(idx: nat)
    requires idx < |PlanetTable|
    ensures |MoonsByPlanet()[idx]| == PlanetTable[idx].moons
    ensures MoonsByPlanet()[idx] == Moons(Seed(idx), PlanetTable[idx].moons, PlanetTable[idx].radius)
  {
  }

  /** No two planets share a seed, so their moon draws come from different states. */
  lemma SeedsDistinct(i: nat, j: nat)
    requires i < |PlanetTable| && j < |PlanetTable| && i != j
    ensures Seed(i) != Seed(j)
  {
  }

  /** Every moon of every planet keeps the ranges of InBounds, with the planet's
      display radius as the base orbit. */
  lemma PrecomputeBounds(idx: nat, k: nat)
    requires idx < |PlanetTable| && k < PlanetTable[idx].moons
    ensures InBounds(MoonsByPlanet()[idx][k], k, PlanetTable[idx].radius)
  {
    MoonBounds(Seed(idx), PlanetTable[idx].moons, PlanetTable[idx].radius, k);
  }

  /** The largest value the JavaScript state number reaches while planet idx's
      moons are drawn: its seed plus 4·moons increments. */
  function FinalState(idx: nat): (a: int)
    requires idx < |PlanetTable|
    ensures a >= SeedValue(idx)
  {
    SeedValue(idx) + 4 * PlanetTable[idx].moons * Increment as int
  }

  /** The seed plus 4·moons increments stays below 2^53 for every planet, so as an
      integer sum it never leaves the range where doubles are exact. */
  lemma PrecomputeStaysExact(idx: nat)
    requires idx < |PlanetTable|
    ensures FinalState(idx) < TwoTo53
  {
  }
}
