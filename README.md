# Solar system 2D: moon layout and simulation clock

This project models the non-drawing logic of the 2D solar system animation in
`src/components/SolarSystem2D.jsx` and proves properties of it. That logic has four parts:

- **Mulberry32** (`mulberry32.dfy`) is the seeded `mulberry32` generator.
  - The closure's captured number `a` becomes a `Generator` object with one `bv32` field.
  - `Next` first advances the state by `0x6d2b79f5`. It then applies the mixing steps (`Scramble`, `Fold`, `Finish`) to a local word, one statement at a time.
  - `Next` returns the final word divided by 2^32.
  - The functions `StateAfter`, `Output` and `Draws` give the state after n calls, the value of call n and the first n values. They depend only on the seed and n, so two generators built from the same seed return the same stream.
- **MoonLayout** (`moons.dfy`) is `createMoons`.
  - `CreateMoons` is a loop. It builds one generator, draws four values per moon (size, orbit, period, phase) and appends the moon record.
  - `CreateMoons` is proved equal to `Moons`, the moons built from the first 4·count values of the stream. The lemmas give the value ranges of each moon and show that moon orbits strictly increase.
- **Planets** (`planets.dfy`) is the fixed `PLANETS` table and the per-planet precompute `moonsByPlanet`.
  - Planet `idx` uses seed `1234 + 777·idx`.
  - Its moon count is the planet's `moons` entry.
  - Its base orbit is the planet's display `radius`. The source passes `p.radius`, not `p.orbitR`, and the model follows it.
- **Clock** (`clock.dfy`) is the per-frame update of the abstract day counter `t` in `loop`.
  - The elapsed time is capped at 50 ms.
  - When not paused, `t` grows by `dt · 60 · speed`.
  - The speed comes from the slider at `src/components/ControlPanel.jsx:21-23`, which ranges over [0, 3].
  - `SimClock` holds the counter and the previous frame's timestamp.

Numbers of the moon records and the clock are exact reals. JavaScript's `Math.PI` is its
decimal value 3.141592653589793. The bit operations of the generator are exact `bv32`
operations, because JavaScript's `^`, `>>>`, `|` and `Math.imul` all work on 32-bit
residues.

Advancing for d ms at speed k need not equal advancing for d·k ms at speed 1. The
code clamps each frame's real-time step before it multiplies by the speed
(`src/components/SolarSystem2D.jsx:181`), so the two agree only inside the clamp:
- `Clock.DurationTradesForSpeed` proves the equality inside the clamp;
- `Clock.ClampBreaksTrade` gives a pair of frames past the clamp where it fails.

## Model

| member | source | states |
|---|---|---|
| Mulberry32.Frac | src/components/SolarSystem2D.jsx:39 | an unsigned word divided by 4294967296 lies in [0, 1), and the result times 2^32 is exactly the word's integer value |
| Mulberry32.Draw | src/components/SolarSystem2D.jsx:37-39 | the value produced from a state word lies in [0, 1); it is Frac of Mix, where Mix composes Scramble (line 37), Fold (line 38) and Finish (line 39) on 32-bit words |
| Mulberry32.StateAfterAdd | src/components/SolarSystem2D.jsx:36 | StateAfter (the state after n calls, line 36 applied n times through Advance) continues without a seam: n calls from the state after m calls reach the state after m + n calls; StateStep is its one-call case |
| Mulberry32.Output | src/components/SolarSystem2D.jsx:35-39 | the value of call n of a generator from `seed` lies in [0, 1); it depends on the seed and n alone |
| Mulberry32.Draws | src/components/SolarSystem2D.jsx:34-40 | the first n values of a generator form a sequence of length n |
| Mulberry32.DrawsAppend | src/components/SolarSystem2D.jsx:35-39 | the first m + n values are the first m values followed by the first n values of a generator started from the state after m calls; DrawsStep is its one-call case |
| Mulberry32.DrawsAt | src/components/SolarSystem2D.jsx:34-40 | value k of any stream of length n > k is the value of call k+1, whatever n is |
| Mulberry32.DrawsInRange | src/components/SolarSystem2D.jsx:39 | every value of the stream lies in [0, 1) |
| Mulberry32.DrawsPrefix | src/components/SolarSystem2D.jsx:34-40 | drawing more values never changes the earlier ones: the first m values are a prefix of the first n |
| Mulberry32.Generator.constructor | src/components/SolarSystem2D.jsx:34 | a new generator's state is its seed |
| Mulberry32.Generator.Next | src/components/SolarSystem2D.jsx:35-39 | a call advances the state by 0x6d2b79f5 modulo 2^32 (Advance, line 36) and returns Draw of the new state, a value in [0, 1); with StateStep, a generator in state StateAfter(seed, n) moves to StateAfter(seed, n + 1) and returns Output(seed, n + 1) |
| MoonLayout.MoonsFromDraws | src/components/SolarSystem2D.jsx:46-53 | a stream of 4m values makes m moons |
| MoonLayout.Moons | src/components/SolarSystem2D.jsx:43-56 | createMoons(seed, count, base) returns exactly count moons |
| MoonLayout.MoonsFromDrawsAt | src/components/SolarSystem2D.jsx:47-53 | moon i of a stream is MoonOf (lines 47-53) of stream values 4i, 4i+1, 4i+2, 4i+3 as size, orbit, period, phase |
| MoonLayout.MoonsFromDrawsPrefix | src/components/SolarSystem2D.jsx:46 | cutting a stream after m moons' worth of values keeps exactly the first m moons |
| MoonLayout.MoonsAt | src/components/SolarSystem2D.jsx:47-53 | moon i of createMoons is made from the values of calls 4i+1..4i+4 of the generator, whatever the count |
| MoonLayout.MoonOfInBounds | src/components/SolarSystem2D.jsx:47-52 | MoonOf (the record of lines 47-53) of four values in [0, 1) has r in [2, 4), orbit in [base+6+1.2i, base+6.8+1.2i), period in [2+0.15·orbit, 2.5+0.15·orbit) and phase in [0, 2π) |
| MoonLayout.MoonBounds | src/components/SolarSystem2D.jsx:47-52 | every moon returned by createMoons keeps those four ranges |
| MoonLayout.OrbitsIncrease | src/components/SolarSystem2D.jsx:49 | moon orbits strictly increase with the moon's index |
| MoonLayout.MoonsPrefix | src/components/SolarSystem2D.jsx:46 | asking for fewer moons from the same seed gives a prefix of the longer list |
| MoonLayout.DrawsByFour | src/components/SolarSystem2D.jsx:47-52 | the four calls of one iteration extend the stream by their four values in call order |
| MoonLayout.MoonsStep | src/components/SolarSystem2D.jsx:46-53 | moon i is appended after moons 0..i-1 and is made from the values of calls 4i+1..4i+4; its proof appends four values to the stream (MoonsFromDrawsSnoc, the push of line 53) |
| MoonLayout.CreateMoons | src/components/SolarSystem2D.jsx:43-56 | the loop over one generator returns exactly Moons(seed, count, base): count moons from the first 4·count values, in order |
| Planets.SeedValueInjective | src/components/SolarSystem2D.jsx:86 | the seed formula SeedValue(idx) = 1234 + 777·idx gives different indices different seeds, for every index |
| Planets.SeedIsFormula | src/components/SolarSystem2D.jsx:86 | the seed word of planet idx holds the number 1234 + 777·idx |
| Planets.MoonsByPlanet | src/components/SolarSystem2D.jsx:85-87 | the precompute over PlanetTable (the eight rows of lines 6-31) yields one moon list per planet, 8 lists |
| Planets.PrecomputeShape | src/components/SolarSystem2D.jsx:85-87 | list idx has PLANETS[idx].moons moons and is createMoons of planet idx's seed with its display radius as base orbit |
| Planets.SeedsDistinct | src/components/SolarSystem2D.jsx:86 | no two planets share a seed |
| Planets.PrecomputeBounds | src/components/SolarSystem2D.jsx:85-87 | every moon of every planet keeps the moon ranges, with that planet's radius as base orbit |
| Planets.PrecomputeStaysExact | src/components/SolarSystem2D.jsx:36 | for every planet, FinalState(idx), its seed plus 4·moons times 0x6d2b79f5, is below 2^53 |
| Clock.StepSeconds | src/components/SolarSystem2D.jsx:181 | the frame step is the minimum of 0.05 s and the elapsed time in seconds: at most both, and equal to one of them |
| Clock.PausedFreezes | src/components/SolarSystem2D.jsx:183-186 | a paused frame leaves t unchanged under Advanced, the one-frame update of lines 181-186 |
| Clock.StepBounds | src/components/SolarSystem2D.jsx:181-185 | a running frame with non-negative elapsed time and speed grows t by between 0 and 0.05·60·speed |
| Clock.TickBounds | src/components/SolarSystem2D.jsx:181-186 | for elapsed time ≥ 0 and a slider speed in [0, 3], t never decreases and grows by at most 9 per frame |
| Clock.StepLinearInSpeed | src/components/SolarSystem2D.jsx:185 | the growth of t in a running frame is speed times the growth at speed 1 |
| Clock.DurationTradesForSpeed | src/components/SolarSystem2D.jsx:181-185 | inside the clamp, d ms at speed k advance t as far as d·k ms at speed 1 |
| Clock.ClampBreaksTrade | src/components/SolarSystem2D.jsx:181 | past the clamp they differ: 50 ms at speed 2 give 6 days, 100 ms at speed 1 give 3 |
| Clock.RunPaused | src/components/SolarSystem2D.jsx:180-189 | Run (one Advanced per frame timestamp, as `loop` runs once per animation frame, lines 180-189): while paused, any number of frames leaves t where it was |
| Clock.RunBounds | src/components/SolarSystem2D.jsx:180-189 | over frames whose timestamps never go back, at a slider speed, t never decreases and grows by at most 9 per frame |
| Clock.SimClock.constructor | src/components/SolarSystem2D.jsx:61 | the counter starts at 0 and the previous timestamp at the start time |
| Clock.SimClock.Restart | src/components/SolarSystem2D.jsx:179 | a restart of the effect keeps t and takes a fresh previous timestamp |
| Clock.SimClock.Tick | src/components/SolarSystem2D.jsx:180-186 | a frame records its timestamp and sets t to its clamped, speed-scaled advance, or leaves t unchanged when paused |

## Left out

- Canvas drawing (`src/components/SolarSystem2D.jsx:89-177`) is not modelled. It covers the starfield, the sun gradient, orbit rings, Saturn's rings and the planet and moon bodies. It is output to a browser API, and its positions go through `Math.cos` and `Math.sin`.
- Canvas resizing and device-pixel-ratio scaling (lines 67-82) are not modelled. They are DOM input and output around `ResizeObserver`.
- `requestAnimationFrame` scheduling and cleanup (lines 188-196) are not modelled. `Clock.Run` stands for the frames the browser delivers, given as a sequence of timestamps.
- IEEE-754 rounding is not modelled. Moon fields and the clock are exact reals; the source computes them in doubles.
- Mulberry32.Generator.Next: the state is the 32-bit residue of the source's number `a`. The source's `a` is a double that grows without wrapping, so the two agree only while `a` stays below 2^53. `Planets.PrecomputeStaysExact` proves the integer bound for every generator the precompute creates. A generator seeded with a non-integer or negative number is not modelled.
- Mulberry32.StateAfter: the state after n calls is defined by repeated 32-bit addition of the increment. The equal integer formula `(seed + n·0x6d2b79f5) mod 2^32` is not proved. The solver does not relate `bv32` addition to integer addition through the bit-vector-to-integer conversion, and even the basic lemma `(x + y) as int == (x as int + y as int) % 2^32` runs out of resources.
- Planets.PrecomputeStaysExact: it proves only the integer bound. That the double `a` then agrees with `StateAfter` rests on the integer formula for `StateAfter`, which is not proved (see the previous line).
- Clock.TickBounds: time never goes backwards only when the elapsed time is non-negative. The source does not guard against a frame timestamp earlier than `last`; for such a frame it would move `t` back by the negative step.
- The `scale` prop is not modelled. It only scales drawing.
- `src/App.jsx`, `src/components/Legend.jsx` and `src/components/HeroSplineCover.jsx` are not part of this model; they are presentation only. The only part of `src/components/ControlPanel.jsx` used is the speed slider's range.
