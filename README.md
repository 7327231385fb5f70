# Rolling sphere: keyboard, movement and gravity

A model of the motion logic of the Babylon.js demo in `main.js`. A sphere of
diameter 2 sits on a ground plane. The keys `w`, `a`, `s` and `d` move it along
the world axes and roll it as it goes. The space bar makes it jump, but only
from the ground. Every rendered frame applies gravity to an airborne sphere
and clamps it back onto the ground at height 1.

The project has three modules:

- `Motion` (`motion.dfy`): the sphere's state as a value (`PlayerState`), the
  constants `MoveSpeed = 8`, `JumpPower = 7`, `Gravity = -20` and the ground
  height 1, and reference functions for the keydown handler, the keyup
  handler and the three phases of a frame: translation, rolling, and gravity
  with the ground clamp. Their contracts state the per-key laws, the jump
  guard, the ground invariant and what each phase leaves unchanged.
- `Runs` (`runs.dfy`): arbitrary sequences of key presses, key releases and
  frames. Lemmas proved by induction show what holds after any such sequence.
- `Sphere` (`sphere.dfy`): the `Player` class. Its mutable fields are the
  ones the JavaScript mutates: position, rotation about x and z, `velocityY`,
  `isGrounded` and the `keys` map. Its methods `KeyDown`, `KeyUp` and `Frame`
  make the same conditional updates in the same order as the source. Each
  method is proved to yield exactly the new state given by the matching
  reference function.

Quantities are exact reals. The key map is a `map<string, bool>` whose
domain is the four movement keys. Reading `keys.w` is `Held(keys, "w")`: a
missing key reads as not held. `e.key.toLowerCase()` becomes `ToLower`, which
lower-cases ASCII letters only.

The functions accept any frame length, including a negative one. The ground
invariant does not depend on the sign of `dt`. Only the jump-survival lemma
needs `dt >= 0`, which the engine always guarantees.

The later versions of this demo add heading-based walking, projectiles,
breakable boxes and an enemy. `main.js` has none of these, so the model
follows `main.js`: movement is along the world X and Z axes, and the boxes
are static scenery. In `main.js` an airborne sphere does not always fall: it
rises after a jump until gravity turns it around.

## Model

| member | source | states |
|---|---|---|
| `Motion.ToLower` | main.js:30 | lower-casing keeps the length, leaves no ASCII capital, keeps every other character and maps each capital to its lower-case letter |
| `Motion.OnKeyDown` | main.js:29-33 | a key press marks the pressed movement key held and leaves the other flags and the map's domain alone; the sphere leaves the ground with velocity JumpPower exactly when space is pressed while grounded; space while airborne changes nothing; position and rotation are untouched; the invariant is kept |
| `Motion.OnKeyUp` | main.js:34-37 | a key release clears only the released movement key's flag and changes nothing else, including velocity and grounding; the invariant is kept |
| `Motion.Translate` | main.js:69-72 | only x and z change; opposite keys held together cancel exactly; with dt > 0, z decreases exactly when w is held without s, and x decreases exactly when d is held without a |
| `Motion.Roll` | main.js:75-78 | only the rotations about x and z change, each by -2 times the travel along the perpendicular axis in the same frame |
| `Motion.DeltaByIndicators` | main.js:69-78 | a pair of opposite keys changes its coordinate by `amount * ([plus] - [minus])` |
| `Motion.Fall` | main.js:81-89 | the result is never below the ground; an airborne sphere that stays up has `v' = v + Gravity*dt` and then `y' = y + v'*dt` (semi-implicit Euler); it lands exactly when that step reaches the ground, and then y = 1 and velocity 0; a sphere at rest is unchanged; x, z, rotation and keys are untouched; if grounded implied resting before, then afterwards grounded holds exactly at y = 1 |
| `Motion.FrameStep` | main.js:65-89 | a frame's horizontal and rolling outcome is that of Translate and Roll, and its vertical outcome is that of Fall on the original state, so the phases do not interfere; keys are unchanged; y >= 1; from a state satisfying the invariant, the next state is settled |
| `Motion.UpperCaseKeysAct` | main.js:29-37 | pressing or releasing W, A, S or D acts exactly as the lower-case key |
| `Motion.KeyDownRepeats` | main.js:29-33 | a repeated key press (auto-repeat) has no further effect; in particular a held space bar jumps only once |
| `Motion.JumpOutlastsFrame` | main.js:81-89 | after a jump from rest, the next frame leaves the sphere airborne if and only if 0 < dt < JumpPower / -Gravity (0.35 s); then its velocity is 7 - 20 dt and its height 1 + (7 - 20 dt) dt; otherwise it is back at rest |
| `Runs.RunKeepsInvariant` | main.js:29-89 | any sequence of key events and frames keeps the invariant: the key map has exactly w, a, s, d, y >= 1, and grounded implies y = 1 with zero vertical velocity |
| `Runs.ReachableInvariant` | main.js:20-89 | from the initial scene state, every reachable state is at or above the ground, and when grounded it rests at y = 1 with zero vertical velocity |
| `Runs.SettledAfterFrame` | main.js:85-89 | after any sequence of events that ends with a frame, grounded holds exactly when y = 1 |
| `Runs.StaysAtRestWithoutJump` | main.js:81-89 | a sphere at rest stays at rest at y = 1 through any events that do not press space |
| `Runs.TravelAddsUp` | main.js:69-78 | over several frames with unchanged keys, each axis and rotation changes by the single-frame change for the total elapsed time |
| `Runs.DriftUnderHeldKeys` | main.js:69-78 | over several frames with unchanged keys, z changes by `8*T*([s]-[w])`, x by `8*T*([a]-[d])`, rotation x by `16*T*([w]-[s])` and rotation z by `16*T*([d]-[a])`, where T is the total time; keys are unchanged |
| `Sphere.Player.constructor` | main.js:19-27 | the sphere starts at the origin at height 1, unrotated, grounded, with zero velocity and no key held; the invariant holds |
| `Sphere.Player.KeyDown` | main.js:29-33 | the in-place handler yields exactly OnKeyDown's state and keeps the invariant |
| `Sphere.Player.KeyUp` | main.js:34-37 | the in-place handler yields exactly OnKeyUp's state and keeps the invariant |
| `Sphere.Player.Frame` | main.js:65-89 | one callback pass, with dt the engine's delta in milliseconds divided by 1000, yields exactly FrameStep's state; afterwards y >= 1, and if the invariant held before, it still holds and grounded is equivalent to y = 1 |
| `Sphere.Player.Move` | main.js:69-72 | the four conditional position updates together equal Translate |
| `Sphere.Player.RollAlong` | main.js:75-78 | the four conditional rotation updates together equal Roll |
| `Sphere.Player.ApplyGravity` | main.js:81-89 | the gravity step and ground clamp in place equal Fall |

## Left out

- Canvas and page setup, window resize and the render loop (main.js:1-9, 122-124): browser I/O.
- Scene, light, sphere mesh, ground, materials and the four reference boxes (main.js:12-19, 99-117): engine calls with no state logic. The boxes never change.
- Camera input wiring, right-button drag rotation and the smooth camera follow (main.js:39-62, 91-96): pointer events and engine vector and matrix math, all cosmetic.
- The engine's frame timing: `engine.getDeltaTime()` becomes the `deltaMs` parameter of `Frame`.
- IEEE floating-point rounding: all quantities are exact reals.
- `Motion.ToLower`: lower-cases ASCII letters only. Full Unicode case mapping is not modelled. No non-ASCII key lower-cases to `w`, `a`, `s`, `d` or a space, so the handlers behave the same.
- JavaScript's `k in keys` also finds names inherited from `Object.prototype`. No `KeyboardEvent.key` value lower-cases to such a name, so the model tests membership in the map alone.
- `sphere.rotation.y` and all other mesh properties: `main.js` never changes them.
