# simple-physics: a verified model of the per-frame motion step

The program draws one rectangle (the entity) on an 800 by 800 canvas. The
arrow keys push it around, and simple physics moves it. Every frame runs
`update(state, elapsed)` on one mutable state object:

1. the acceleration is reset to zero;
2. each held direction adds or subtracts the force `elapsed * accelerationForce / 1000`;
3. the acceleration is added to the velocity;
4. damping adds the drag `-velocity * damping`;
5. each velocity component is clamped to `[-maxVelocity, maxVelocity]`;
6. the velocity is added to the position;
7. the position is clamped so that the entity stays on the canvas.

Key-down and key-up listeners set four input flags (`up`, `down`, `left`,
`right`) through a binding table. The vertical arrows are crossed in that
table: ArrowUp drives `down` and ArrowDown drives `up`. Because canvas y grows
downwards, ArrowUp does move the entity up the screen.

The model has four modules:

- `Clamping` (`clamping.dfy`) is the clamp helper, written as `Math.max(min, Math.min(max, value))`.
- `Keys` (`keys.dfy`) holds the binding table, the key lookup and `ApplyKey`. `ApplyKey` is a pure function that returns the flags after one key event.
- `Physics` (`physics.dfy`) states one frame as a pure function `Step` on values. This is the specification. The module also proves the frame's properties, one frame at a time and over a run of frames (`Run`).
- `State` (`motion_state.dfy`) holds the class `MotionState`, with the fields the program mutates. `Update` changes acceleration, velocity and position in place, stage by stage, and is proved to produce exactly `Step`. `HandleKey` changes the flags in place and is proved to produce exactly `ApplyKey`. The tuning values and the canvas size are `const` fields, so nothing can change them.

All numbers are exact reals. `elapsed` is a parameter; in the program it is the
time between two animation frames.

Structure notes:

- The body of `Update` is split into three methods, one per group of stages: `Accelerate` (1–2), `ChangeVelocity` (3–5) and `ChangePosition` (6–7). `Update` calls them in the source's order. Each keeps the source's statements in its own stages.
- The three damping statements (index.js:81-89) compute `v + (-v) * damping`. They are the function `Physics.Damp`, and `ChangeVelocity` calls it on each component.
- The source reads the canvas size from `context.canvas.width` and `context.canvas.height`. Here these are the `const` fields `canvasWidth` and `canvasHeight`.
- The clamp has no precondition. When `min > max`, the code returns `min`, because `Math.max` is applied last. The model does the same, and `Clamp` says so in its contract.

## Model

| member | source | states |
|---|---|---|
| `Clamping.Min` | index.js:118 | `Math.min` on reals: the result is at most each argument and equals one of them |
| `Clamping.Max` | index.js:118 | `Math.max` on reals: the result is at least each argument and equals one of them |
| `Clamping.Clamp` | index.js:118 | for `lo <= hi` the result lies in `[lo, hi]`; a value already in range is returned unchanged; below `lo` gives `lo`; above a non-empty range gives `hi`; an empty range (`hi < lo`) always gives `lo` |
| `Clamping.ClampIdempotent` | index.js:118 | clamping twice equals clamping once, for any bounds |
| `Clamping.ClampSymmetricShrinks` | index.js:92-93 | clamping to `[-m, m]` with `m >= 0` never increases the magnitude and never flips the sign |
| `Keys.KeyOf` | index.js:122 | exactly the names `ArrowUp`, `ArrowDown`, `ArrowLeft` and `ArrowRight` are recognised; every other name is an unmapped key carrying that name |
| `Keys.Binding` | index.js:34-39 | the key table: exactly the four arrow keys are bound (every other key has no binding) |
| `Keys.BindingInjective` | index.js:34-39 | no two keys drive the same flag |
| `Keys.Set` | index.js:35-38 | a binding callback sets its own flag to the given value and leaves the other three flags as they were |
| `Keys.ApplyKey` | index.js:34-39 | ArrowUp sets `down`, ArrowDown sets `up`, ArrowLeft sets `left` and ArrowRight sets `right`, each to `pressed` (key-down true, key-up false) with the other flags unchanged; an unmapped key changes nothing |
| `Keys.ArrowUpDrivesDown` | index.js:35-36 | pressing ArrowUp from no input holds only `down`, and pressing ArrowDown holds only `up` |
| `Keys.ApplyKeyTouchesOnlyBoundFlag` | index.js:34-39 | a key event never changes a flag other than the one bound to its key |
| `Keys.LastEventWins` | index.js:120-131 | two events on the same key leave the flags as the second one alone would; in particular a repeated key-down is idempotent |
| `Keys.DistinctKeysCommute` | index.js:34-39 | events on two keys bound to different flags, or on an unbound key, can be swapped without changing the result |
| `Keys.PressReleaseRestores` | index.js:120-131 | key-down then key-up on a key whose flag was off restores all four flags |
| `Physics.Force` | index.js:62 | the push of a held direction: a 1000 ms frame gives exactly `accelerationForce`, a 0 ms frame gives nothing |
| `Physics.Acceleration` | index.js:57-74 | on each axis, holding both or neither direction gives 0, `right` and `up` give `+force`, `left` and `down` give `-force` |
| `Physics.Signed` | index.js:63-74 | along one axis, holding one direction gives `+force` or `-force` and holding both or neither gives 0 |
| `Physics.AxisVelocity` | index.js:76-93 | with a non-negative speed limit, the new velocity component lies in `[-maxVelocity, maxVelocity]` |
| `Physics.Damp` | index.js:80-89 | velocity plus the drag `-v * d`: no damping keeps the velocity, damping 1 or a zero velocity gives 0 (the closed form is `DampingScalesVelocity`) |
| `Physics.DampingScalesVelocity` | index.js:80-89 | before the speed limit applies, the new velocity is `(1 - damping) * (old velocity + acceleration)` |
| `Physics.Step` | index.js:56-101 | one frame: with `maxVelocity >= 0` both velocity components lie within the speed limit; with `entityWidth <= canvasWidth` the centre x lies in `[entityWidth/2, canvasWidth - entityWidth/2]`, and likewise for y; when the move stays on the canvas the position advances by exactly the new, already clamped velocity |
| `Physics.AccelerationIgnoresHistory` | index.js:57-74 | the frame's acceleration does not depend on the previous motion; it is `(right ? f : 0) - (left ? f : 0)` on x and `(up ? f : 0) - (down ? f : 0)` on y, where `f = elapsed * accelerationForce / 1000` |
| `Physics.CoastingNeverSpeedsUp` | index.js:76-93 | with no input held, `0 <= damping <= 1` and `maxVelocity >= 0`, neither velocity component grows in magnitude; with `damping > 0` every non-zero component strictly shrinks |
| `Physics.AxisCoasts` | index.js:76-93 | the same as `CoastingNeverSpeedsUp`, for one axis with zero acceleration |
| `Physics.ScaledShrinks` | index.js:85-89 | scaling by a factor in `[0, 1]` never increases the magnitude, and a factor below 1 strictly decreases a non-zero magnitude |
| `Physics.RestIsFixedPoint` | index.js:95-100 | with no input held, zero velocity, a position on the canvas and a non-negative speed limit, a frame changes neither the position nor the velocity |
| `Physics.IdleXStaysPut` | index.js:56-101 | with a non-negative speed limit, an entity at rest along x, inside the x range, with both or neither of `left` and `right` held keeps zero x velocity and the same x |
| `Physics.IdleYStaysPut` | index.js:56-101 | the same for y, with `up` and `down` |
| `Physics.Run` | index.js:42-51 | repeated frames, as `tick` calls `update` once per animation frame: no frames leaves the motion as it is, and after at least one frame the acceleration is that of the last frame's inputs and elapsed time alone |
| `Physics.RunSettles` | index.js:56-101 | for a well-formed configuration, the speed limit and the canvas bounds hold after every run of frames that starts in that state. They also hold after any run of at least one frame, from any starting state |
| `Physics.RestPersists` | index.js:56-101 | with a non-negative speed limit, repeated frames with no input held leave an entity that is at rest on the canvas exactly where it is |
| `Physics.CoastingSlowsDown` | index.js:76-93 | with `0 <= damping <= 1` and `maxVelocity >= 0`, over any run of frames with no input held, neither velocity component ends larger in magnitude than it started |
| `Physics.DefaultWellFormed` | index.js:3-31 | the starting parameters (speed limit 100, 30 by 30 entity, 800 by 800 canvas) are well formed, so the centre x stays in `[15, 785]` |
| `Physics.DownHeldFrame` | index.js:56-101 | from rest at (400, 400) with the starting parameters, holding only `down` for a 1000 ms frame gives acceleration (0, -30), velocity (0, -27) and position (400, 373) |
| `State.MotionState.constructor` | index.js:7-32 | the starting state: the starting parameters, no flag held, the entity at rest at (400, 400), inside the speed limit and the canvas |
| `State.MotionState.Update` | index.js:56-101 | the new acceleration, velocity and position are exactly `Physics.Step` of the old ones; the flags and all tuning values are unchanged (nothing else is in its frame); with `maxVelocity >= 0` the velocity is within the speed limit afterwards, and with a well-formed configuration (non-negative speed limit, entity no larger than the canvas) the position is on the canvas too |
| `State.MotionState.Accelerate` | index.js:57-74 | after the reset and the four conditional increments, the acceleration equals the signed sum `Physics.Acceleration` of the held flags |
| `State.MotionState.ChangeVelocity` | index.js:76-93 | each velocity component becomes `AxisVelocity` of the old component and the acceleration |
| `State.MotionState.ChangePosition` | index.js:95-100 | each coordinate becomes the old coordinate plus the new velocity, clamped to the canvas range |
| `State.ArrowUpOneSecond` | index.js:7-39 | from the starting state, a key-down of ArrowUp followed by one frame of 1000 ms leaves the entity at (400, 373) |
| `State.MotionState.HandleKey` | index.js:120-131 | a key event whose key has name `name` sets the flags to `ApplyKey` of the old flags; position, velocity and acceleration are unchanged |

## Left out

- `draw` (index.js:103-116) is left out. It only paints the canvas, and its one computation is floating-point text formatting of `1000 / elapsed`.
- The `load` handler, `tick`, `requestAnimationFrame` and `performance.now` (index.js:1-54) are left out. They are event-loop scheduling and clock reads. `elapsed` is a parameter of `Update`. A run of frames is `Physics.Run` over a sequence of frames, each with its held inputs and elapsed time.
- `addEventListener` (index.js:121, 126) is left out, because listener registration is DOM plumbing. `HandleKey` models what one delivered event does.
- The lookup `mappings[event.key]` also finds properties that JavaScript objects inherit, such as `toString`. No keyboard key identifier has one of those names, so `KeyOf` treats every name other than the four arrows as unmapped.
- IEEE-754 arithmetic is not modelled: no rounding, NaN, infinities or negative zero. `Math.max` and `Math.min` are modelled on exact reals, so their NaN behaviour is not captured.
- Concurrency is not modelled. Key events and frames run on one thread, and `HandleKey` and `Update` are separate methods that callers may interleave in any order.
- Velocity and position are not scaled by the elapsed time (frame-rate dependence). The model keeps the formulas as written.
