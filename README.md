# Free-look camera controller of the CS3310 ray-tracing demo

The keyboard-and-mouse variant of the demo (`cs3310_control/main.cpp`) keeps
its camera in process-wide variables — field of view `fov`, `cameraPos`,
`cameraUp`, `lookAt`, the mouse-look reference `firstMouse`/`lastX`/`lastY`
and the frame timing `deltaTime`/`lastFrame` — and updates them from three
event handlers and one timing step per frame:

- `processInput` raises the window's close flag on Escape. It then computes the
  forward vector `aaa = lookAt - cameraPos` once, and moves the camera by
  `2.5 * deltaTime` along it for W and S. For A and D it moves along
  `normalize(cross(aaa, cameraUp))`, applying the keys in the order W, S, A, D;
- `scroll_callback` lowers `fov` by the scroll offset and clamps it to [1, 45];
- `mouse_callback` records the first cursor sample without moving the target,
  and afterwards adds `0.1 * (x - lastX)` to `lookAt.x` and
  `0.1 * (lastY - y)` to `lookAt.y`;
- the render loop sets `deltaTime` to the clock minus `lastFrame`, then
  stores the clock in `lastFrame`.

`loadTex` chooses the texture's pixel format from the decoded channel count.

The model has three modules. `Glm` in `glm.dfy` holds the `vec3` arithmetic
over reals. `Control` in `control.dfy` holds the controller itself. `Texture`
in `texture.dfy` holds the format choice. `Control.Controller` is a class
whose fields are the globals; its methods are the handlers, written as the
same sequential in-place updates. Each method's postcondition ties the new
state to a pure reference function: `MovedPosition`, `ScrolledFov`,
`MouseSample` or the timing equations. The lemmas beside those functions
prove what the handlers promise: clamping, the one-shot guard, additive
mouse-look, cancellation and superposition of keys, step lengths, and
non-negative frame times.

The object invariant `Controller.Valid()` holds from construction on. It says
that `fov` lies in [1, 45] and that `cameraUp` is (0, 1, 0): the initial
values of the globals satisfy it, every handler preserves it, and no handler
writes `cameraUp`.

Floats are modelled as reals. GLM's `normalize` divides by a square root,
which reals here do not have. So `Glm.Normalize(v, k)` takes the reciprocal
length `k` as an argument, with `k > 0 && k*k*|v|^2 == 1`. The keyboard
handler takes it as `invLen` and needs it only when A or D is pressed, because
only then does the source normalize.

In a single scroll event the field of view is monotone in the offset
(`ScrollIsMonotone`). Over a series of events it is not a function of the
total offset, since clamping discards input: `ScrollClampForgets` exhibits two
series with total offset 0 that end at 11 and at 1.

Two-channel images (grey with alpha) fall into the RGBA branch of the format
choice, so the upload reads four bytes per pixel for them
(`OtherCountsReadAsFour`).

## Model

| member | source | states |
|---|---|---|
| Glm.Normalize | cs3310_control/main.cpp:175-178 | `glm::normalize` of a non-zero vector, given its reciprocal length: the result has unit length, is parallel to the vector and points the same way |
| Glm.Cross | cs3310_control/main.cpp:175-178 | `glm::cross`, right-handed: the result is orthogonal to both arguments |
| Control.ScrolledFov | cs3310_control/main.cpp:235-242 | after a scroll the field of view is in [1, 45]; it is `fov - yoffset` when that is in range, 1 below the range, 45 above it |
| Control.ScrollIsMonotone | cs3310_control/main.cpp:237-241 | a larger scroll offset never gives a wider field of view |
| Control.ScrollIsMonotoneInFov | cs3310_control/main.cpp:237-241 | for one event, a narrower starting field of view never ends wider |
| Control.ScrollsAreMonotone | cs3310_control/main.cpp:235-242 | over series of the same length, a narrower start and event-by-event larger offsets never end at a wider field of view |
| Control.ScrollsStayInBounds | cs3310_control/main.cpp:235-242 | after any non-empty series of scroll events the field of view is in [1, 45], whatever it started at |
| Control.ScrollClampForgets | cs3310_control/main.cpp:237-241 | two series with the same total offset end at different fields of view (11 and 1) because of clamping |
| Control.MouseSample | cs3310_control/main.cpp:244-269 | the guard is off and `lastX`/`lastY` hold the sample afterwards; a first sample leaves `lookAt` unchanged; later ones add `0.1*(x - lastX)` and `0.1*(lastY - y)` to `lookAt.x`/`lookAt.y` and leave `lookAt.z` |
| Control.GuardNeverReturns | cs3310_control/main.cpp:249-254 | after any non-empty series of cursor events the first-sample guard is off |
| Control.TraceAfterGuard | cs3310_control/main.cpp:256-266 | with the guard off, a series of cursor events moves `lookAt` by 0.1 times the net cursor displacement from the recorded position to the last sample (y inverted), `z` untouched |
| Control.TraceFromFirstSample | cs3310_control/main.cpp:249-266 | from the guard-on state, `lookAt` moves by 0.1 times the displacement from the first sample to the last, whatever the stale `lastX`/`lastY` were |
| Control.MovedPosition | cs3310_control/main.cpp:167-178 | reference definition of one keyboard poll as a single displacement: the W/S pair along `2.5*dt*(lookAt - cameraPos)`, the D/A pair along `2.5*dt` times the unit strafe direction, with the forward vector taken before any key is applied; balanced pairs (both or neither key of each) leave the position unchanged |
| Control.SequentialSteps | cs3310_control/main.cpp:169-178 | the source's in-place update order (W adds, S subtracts the forward step, A subtracts, D adds the strafe step) equals the position plus the net step of each key pair, so the order does not matter |
| Control.SequentialKeys | cs3310_control/main.cpp:167-178 | the source's W, S, A, D updates, with the forward vector taken once beforehand, equal the one-shot displacement `MovedPosition` |
| Control.StillWithoutMovementKeys | cs3310_control/main.cpp:167-178 | with no movement key pressed the position is unchanged |
| Control.ForwardStep | cs3310_control/main.cpp:167-172 | W alone gives `cameraPos + 2.5*dt*(lookAt - cameraPos)` |
| Control.OpposingKeysCancel | cs3310_control/main.cpp:169-178 | W with S, and A with D, cancel exactly: same result as neither key of the pair |
| Control.KeyStepIs | cs3310_control/main.cpp:169-178 | each key alone moves by the forward step (W), its negation (S), the negated strafe step (A) or the strafe step (D) |
| Control.Superposition | cs3310_control/main.cpp:167-178 | the combined displacement is the sum of the displacements of the individual keys pressed |
| Control.ForwardStepLength | cs3310_control/main.cpp:167-172 | the squared length of the W step is `(2.5 dt)^2` times the squared distance from the camera to the target |
| Control.StrafeStepLength | cs3310_control/main.cpp:175-178 | the squared length of an A or D step is `(2.5 dt)^2`, independent of the distance from the target |
| Control.StrafeIsPerpendicular | cs3310_control/main.cpp:175-178 | the strafe direction is orthogonal to both the forward vector and the up vector |
| Control.StrafeKeepsHeight | cs3310_control/main.cpp:175-178 | with up vector (0, 1, 0) and neither W nor S pressed, `cameraPos.y` does not change |
| Control.Deltas | cs3310_control/main.cpp:115-117 | one frame time per clock reading: the first is the reading minus the starting `lastFrame`, each later one the difference of consecutive readings |
| Control.DeltasNonNegative | cs3310_control/main.cpp:115-117 | a non-decreasing clock gives every frame a non-negative `deltaTime` |
| Control.DeltasSumToElapsed | cs3310_control/main.cpp:115-117 | the frame times of a series of frames add up to the last reading minus the starting `lastFrame` |
| Control.Controller.constructor | cs3310_control/main.cpp:33-43 | the globals' initial values; the invariant holds |
| Control.Controller.ProcessInput | cs3310_control/main.cpp:161-179 | Escape sets the close flag; `cameraPos` becomes `MovedPosition` of the old state; `lookAt`, `fov`, `cameraUp` and the timing are untouched; no movement key leaves the position, no forward key leaves its height |
| Control.Controller.ScrollCallback | cs3310_control/main.cpp:235-242 | `fov` becomes `ScrolledFov(old fov, yoffset)`; nothing else changes |
| Control.Controller.MouseCallback | cs3310_control/main.cpp:244-269 | the cursor state becomes `MouseSample` of the old one; a first sample leaves `lookAt` unchanged |
| Control.Controller.Tick | cs3310_control/main.cpp:115-117 | `deltaTime` is the clock minus the old `lastFrame`, `lastFrame` becomes the clock; non-negative for a clock that did not go back |
| Control.Controller.Frame | cs3310_control/main.cpp:113-120 | the controller's part of one loop iteration: the timing update, then keyboard polling with the new `deltaTime` |
| Control.InitialForwardScenario | cs3310_control/main.cpp:167-172 | from the initial globals, a first frame at clock 1.0 with W held moves the camera to (-15, -1.5, -4.5) |
| Texture.SelectFormats | cs3310_control/main.cpp:201-215 | 1 channel gives RED, 3 give RGB, every other count RGBA (each an if-and-only-if); the internal format equals the pixel format |
| Texture.FormatMatchesChannels | cs3310_control/main.cpp:201-215 | for 1, 3 and 4 channels the format reads exactly the decoded number of channels |
| Texture.OtherCountsReadAsFour | cs3310_control/main.cpp:211-215 | every channel count other than 1 and 3 is read as four channels |
| Texture.LoadTex | cs3310_control/main.cpp:188-232 | exactly when decoding succeeded one upload is issued, with the image's size and the format chosen by `SelectFormats` as both internal and pixel format: RGBA for every count other than 1 and 3, and for 1, 3 or 4 channels a format of that many channels |

## Left out

- Window and context creation, the render loop's buffers, shader use, uniform uploads, draw calls and buffer swaps (cs3310_control/main.cpp:46-158): graphics-library calls with no logic of their own. Only the timing lines and the keyboard call of the loop body are modelled (`Controller.Frame`).
- The shader class and the fragment shader that does the ray tracing: neither source is part of this model.
- Key polling, the cursor callback's arguments, the scroll offset and the clock are parameters. `Keys` stands for the key states polled during one call. The close request is the field `shouldClose`.
- Image decoding and freeing, texture-object creation, mipmaps and texture parameters in `loadTex`: foreign library calls. `LoadTex` takes the decoder's result as an `Option`, and the failure message is not modelled.
- Float rounding and the `float`/`double` casts: all quantities are reals.
- The square root in `glm::normalize`: the caller supplies the reciprocal length. The zero cross product, which arises when the forward vector is parallel to `cameraUp` and makes the source compute NaN, is excluded by `StrafeDefined`. That precondition is required only when A or D is pressed.
- The auto-rotating variant `cs3310/main.cpp`: its keyboard handler only checks Escape, its texture loader duplicates this one, and its only other computation is a floating-point angle from the clock.
- `framebuffer_size_callback`: a single viewport call.
