# Solar-system layout and animation kernel

A Dafny model of the small piece of designed logic in the three.js solar-system demo
(`src/utils/graph3DApp.ts`). Everything else in that file constructs library objects.
The model covers these parts:

- **Catalog** (`catalog.dfy`): the sun and the eight planets as immutable `Body` records.
  The per-planet speed is kept in a separate sequence that runs parallel to the catalog.
  It is not a mutable field of the record.
- **Random** (`random.dfy`): `randomInRange(min, max)` as `min + floor(r * (max - min))`.
  The `Math.random` draw `r` in [0, 1) is a parameter. The module also covers the start-up
  speed assignment `randomInRange(1, 10)` and the initial orbit angle
  `randomInRange(-180, 180)` in whole degrees.
- **Layout** (`layout.dfy`): the running orbit offset of `drawGalaxy`. It is seeded with the
  sun's radius 60, and each planet advances it by `2 * radius + 60`. The module also covers
  the ring annulus of `createRing` (inner = radius + 20, outer = inner + 14), the object
  `createPlanet` builds, and the planet loop that fills `planetList`.
- **Loading** (`loading.dfy`): the progress label `((loaded / total) * 100) | 0` of
  `onProgress`. The quotient is computed over exact rationals, followed by JavaScript
  ToInt32 (truncate, then wrap to 32 bits).
- **Animation** (`animation.dfy`): the frame timer of `render`. It converts milliseconds to
  seconds, then sets `delta := now - then` and `then := now`, starting from `{0, 0}`. It also
  gives the rotation arguments `delta * 0.6` for the sun and `delta * 0.1 * speed[i]` for
  planet object `i`. A small application-state record shows that `render` pairs planet
  object `i` with the speed of catalog planet `i`.

## Notes

- The first planet sits at `60 + 2 * 10 + 60 = 140`. The sun's radius only seeds the
  accumulator and is not an offset in the list. So the shipped offsets are
  140, 226, 314, 398, 498, 638, 782 and 930.
- The initial phase is a whole number of degrees in [-180, 179], because
  `randomInRange(-180, 180)` floors its scaled draw. It becomes radians, `(angle / 180) * π`,
  only in the rotation that places the planet.
- A ring is built when the planet's `ringTexture` is truthy. An absent field and the empty
  string both count as no ring.
- `startSettingWorld` pushes onto `planetList` without clearing it. Object i lines up with
  speed i only because the list is empty when loading completes.
- The accumulator does not keep neighbouring planets apart for every catalog. The planets
  at i-1 and i are radially disjoint exactly when `r[i-1] < r[i] + 60`
  (`Layout.NeighboursDisjointIff`). For example, radii 100 then 1 overlap. The shipped
  catalog meets the condition (`Layout.ShippedOffsets`).

## Model

| member | source | states |
|---|---|---|
| `Random.RandomInRange` | src/utils/graph3DApp.ts:17-20 | for a draw in [0,1): if min < max the value lies in [min, max-1]; if min == max it is min; if max < min it lies in [max, min] |
| `Random.EveryValueReachable` | src/utils/graph3DApp.ts:17-20 | every integer of [min, max) is produced by some draw, namely (v-min)/(max-min) |
| `Random.RandomInRangeMonotone` | src/utils/graph3DApp.ts:17-20 | a larger draw never yields a smaller value |
| `Random.AssignSpeeds` | src/utils/graph3DApp.ts:73 | one speed per catalog planet, in catalog order, each an integer from 1 to 9 |
| `Random.InitialAngle` | src/utils/graph3DApp.ts:262 | the initial orbit angle is a whole number of degrees in [-180, 179] |
| `Catalog.ShippedCatalog` | src/utils/graph3DApp.ts:22-72 | eight planets with positive radii; Saturn (index 5, radius 40) is the only one whose ring texture is truthy; the sun's radius is 60 |
| `Layout.Offsets` | src/utils/graph3DApp.ts:333-336 | the first offset is start + 2*r0 + gap, and each later offset exceeds the previous one by exactly 2*r_i + gap |
| `Layout.OffsetsClosedForm` | src/utils/graph3DApp.ts:333-340 | offset i equals the start plus Σ_{j≤i} (2*r_j + gap) |
| `Layout.OffsetsIncreasing` | src/utils/graph3DApp.ts:333-340 | with positive radii and a non-negative gap, the offsets lie beyond the start and strictly increase in catalog order |
| `Layout.NeighboursDisjointIff` | src/utils/graph3DApp.ts:333-336 | neighbouring planets are radially disjoint if and only if r[i-1] < r[i] + gap |
| `Layout.ShippedOffsets` | src/utils/graph3DApp.ts:333-340 | the shipped catalog's offsets are [140, 226, 314, 398, 498, 638, 782, 930], Saturn's is 638, and no two neighbours overlap |
| `Layout.CreateRing` | src/utils/graph3DApp.ts:235-237 | the annulus starts 20 beyond the planet's surface and is 14 wide, so it never touches the sphere |
| `Layout.CreatePlanet` | src/utils/graph3DApp.ts:247-267 | the orbit outline and the body sit at the given offset; a ring is built exactly when the ring texture is truthy (present and non-empty), and it is the annulus of `createRing`; the angle is in [-180, 179] |
| `Layout.DrawGalaxy` | src/utils/graph3DApp.ts:333-340 | the planet loop pushes exactly one object per catalog planet onto the existing list, in order, keeps the existing objects in front, and pushed object i is the `createPlanet` object at offset i of the accumulator |
| `Layout.ShippedRing` | src/utils/graph3DApp.ts:256-260 | in the shipped catalog only Saturn gets a ring; it spans radii 60 to 74 around Saturn's centre at offset 638 |
| `Loading.ToInt32` | src/utils/graph3DApp.ts:176 | the bitwise-or with 0 (ToInt32) lands in the signed 32-bit range and agrees with its input modulo 2^32 |
| `Loading.ProgressPercent` | src/utils/graph3DApp.ts:175-179 | with no items the label is 0; for 0 ≤ loaded ≤ total it is in [0, 100], it is 100 when all items are loaded, and it is the floor of the exact percentage |
| `Loading.ProgressMonotone` | src/utils/graph3DApp.ts:176 | loading more items never lowers the label |
| `Loading.SkyboxProgress` | src/utils/graph3DApp.ts:175-179 | for the six skybox faces the labels are 16, 33, 50, 66, 83 and 100 |
| `Animation.Tick` | src/utils/graph3DApp.ts:348-351 | after a frame, the previous time is this frame's time in seconds, and the old previous time plus the new delta equals it |
| `Animation.RunEndsAtLastFrame` | src/utils/graph3DApp.ts:348-351 | after a run of frames the timer holds the last frame's time, and its delta is the gap between the last two frames |
| `Animation.DeltasTelescope` | src/utils/graph3DApp.ts:348-351 | the per-frame deltas sum to the total time the timer advanced |
| `Animation.FirstFrameIsStill` | src/utils/graph3DApp.ts:95 | the first render, with its default timestamp 0, leaves the constructed timer {0, 0} unchanged, so its delta is 0 |
| `Animation.RotationArguments` | src/utils/graph3DApp.ts:353-357 | one argument per planet object, paired with the speed at the same catalog index; the sun's argument is delta * 0.6 |
| `Animation.RotationFollowsSpeed` | src/utils/graph3DApp.ts:354-356 | zero delta turns nothing; with positive delta a faster planet turns strictly further |
| `Animation.RotationBounded` | src/utils/graph3DApp.ts:354-356 | with every speed in 1..9, as the start-up assignment draws them, each planet's argument lies between 0.1 and 0.9 times a non-negative delta |
| `Animation.Construct` | src/utils/graph3DApp.ts:88-105 | a new application has the start-up speeds for every catalog planet (each in 1..9), an empty planet list and the timer {0, 0} |
| `Animation.StartSettingWorld` | src/utils/graph3DApp.ts:333-345 | after loading, eight `createPlanet` objects are pushed behind the existing ones; the list stays paired with the speed table exactly when it was empty before, as it is after construction |
| `Animation.Render` | src/utils/graph3DApp.ts:348-361 | one render ticks the timer, leaves the planet list and speeds unchanged, and yields one rotation argument per planet object, computed from the new delta |

## Left out

- The three.js scene construction is opaque library behaviour: renderer, camera, orbit controls, lights, geometries, materials, texture loading, `scene.add` (including the second add of each planet object), and the orbit `LineLoop` vertex splice.
- The sun (`createSun`) is left out for the same reason. Its point light, emissive sphere and 2.19× glow shell with its GLSL falloff shader are all library objects.
- `sin`, the per-frame `rotateY` calls and the degrees-to-radians conversion `(angle / 180) * π` are floating-point trigonometry. Only the arguments passed to `sin` are modelled, over exact reals.
- `Math.random` is a parameter: a real draw in [0, 1).
- The DOM loading bar, `setTimeout(…, 1000)`, the `requestAnimationFrame` self-rescheduling and the window sizing are I/O and event-loop plumbing.
- The always-false `debug` branch of `setDebugger` is dead code.
- `src/sceneGraph.tsx` and `src/App.tsx` are React mounting glue.
- Random.RandomInRange: `Math.random() * diff` uses exact real multiplication. Rounding of the double product is not modelled.
- Loading.ProgressPercent: `(loaded / total) * 100` uses exact rationals, so the model's label is ⌊100 · loaded / total⌋. The double label can be one lower when the exact percentage is a whole number that the double misses (29 of 100 gives 28.999999999999996, labelled 28). The bounds, the monotonicity and the 100 at completion hold for both. The six-face skybox is not affected.
- Animation.Construct: the speeds are drawn once, when the module loads, onto the shared `planets` array, so every application instance shares them. The model draws them as the application is constructed.
- Animation.Tick: `time *= 0.001` uses exact real multiplication. Double rounding is not modelled.
