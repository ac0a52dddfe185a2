# Solar viewer control model

A Dafny model of the control logic of `Solar_viewer`, the interactive solar
system viewer of the ProceduralMapGeneration repository. It covers:

- the viewer object's state after construction;
- the keyboard handler: target selection with keys 1..7, the camera distance, the view
  angles, the greyscale and timer toggles, time-step doubling and halving, the curve
  display mode, parallel transport, ship steering, randomize and exit;
- the timer tick, which steps every body and puts each one back on its orbit;
- `randomize_planets`;
- paint's choice of what the camera looks at;
- the order and rendering state of the draws that `draw_scene` issues.

Modules, one concept each:

| file | module | contents |
|---|---|---|
| `wrappers.dfy` | `Wrappers` | `Option` |
| `glfw.dfy` | `Glfw` | the GLFW key and action codes the handler compares against |
| `geometry.dfy` | `Geometry` | `Vec3`, `Vec4`, subtraction, squaring |
| `bodies.dfy` | `Bodies` | the bodies, the ship, the path frame, the collaborators `Env`, orbit placement and the timer tick as functions |
| `input.dfy` | `Input` | the controls the keyboard handler sets, `OnKey`/`OnKeys` and their properties |
| `scene.dfy` | `Scene` | draw commands, what a correct frame is, and the method composing it |
| `viewer.dfy` | `Viewer` | what keys do to the bodies and the ship, paint's target, and the class `SolarViewer` with the source's fields and methods |

The layering follows the source. `Solar_viewer` is an object whose member
functions update its fields in place, so it is the class
`Viewer.SolarViewer`. Its methods `Keyboard`, `Timer`, `RandomizePlanets`,
`UpdateBodyPositions`, `DrawScene` and `Paint` mirror the C++ member
functions. Each method's postcondition ties the new fields to a pure
function of the old ones:

- `ControlState()` to `Input.OnKey`;
- `WorldState()` to `Viewer.WorldOnKey` and `Bodies.Tick`;
- `SolarState()` to `Bodies.Positioned`;
- the draw list to `Scene.IsFrame`.

The lemmas about those functions carry the properties. They say which keys
change which fields, that the invariants are kept through whole key
sequences, what the time step becomes, how the curve mode cycles, where
bodies end up and what every frame looks like.

The classes whose code is not part of this model are left abstract. They
are `Planet`, `Ship`, the path curve, its frame and the trigonometric
functions. They appear as the function-valued fields of `Bodies.Env`:
`newPlanet`, `planetStep`, `newShip`, `updateShip`, `accelerate`,
`accelerateAngular`, `newFrame`, `pathTangent`, `alignTo`, `cos` and `sin`.
The model therefore states what the viewer does with them: which one is
called, on what, how often and in which order. It says nothing about what
they compute, with two exceptions: the Pythagorean identity for `cos`/`sin`
where a lemma needs it, and the frame's `toggleParallelTransport`, which is
taken to flip one flag of the frame and nothing else.

Representation choices:

- `dist_factor_` is an exact integer number of tenths: 25..200, initially 45. The source
  steps a single-precision `float` by 0.1, whose rounding this does not capture (see
  Input.DistanceStaysInRange under "## Left out").
- `time_step_`, the angles and the positions are exact `real`s, so they neither round,
  underflow nor overflow.
- `planet_to_look_at_` is an `Option<BodyId>`; `None` plays the role of `NULL`.
- `glfwSetWindowShouldClose` is the flag `closeRequested`.
- The static `sun_animation_time` of `draw_scene` is the field `sunAnimationTime`.
- `rand()` is the parameter `rnd` of `Keyboard` and `RandomizePlanets`.

Where the code and the design description differ, the model follows the code:

- The R key goes through `timer()`, so while the timer is paused it moves nothing.
  `Viewer.WorldOnKey` and `Viewer.SolarViewer.RandomizePlanets` state this.
- The moon's height is the sun's `y`, not the earth's (`src/solar_viewer.cpp:264-267`).
  They agree because the earth is itself placed at the sun's height, which
  `Bodies.MoonOrbitsCurrentEarth` shows.

## Model

| member | source | states |
|---|---|---|
| Viewer.SolarViewer.constructor | src/solar_viewer.cpp:36-63 | each of the seven bodies, the starfield included, is what `Planet`'s constructor returns for the listed orbit speed, self-rotation speed, radius and distance; the timer is on with a step of 1/24 day; greyscale is off; the target is the earth at distance 4.5; the angles are 0; the ship is 4.5 earth radii behind the earth's centre along -z, heading +z at angle 180; ship mode is off; the invariant `Valid()` holds |
| Input.OnKey | src/solar_viewer.cpp:86-228 | one keyboard call keeps the invariant: exactly one of body target and ship mode, distance in [2.5, 20.0] counted in exact tenths, curve mode in range, positive time step as an exact real |
| Viewer.SolarViewer.Keyboard | src/solar_viewer.cpp:86-228 | any press or repeat updates the controls as `OnKey` and the bodies, ship and frame as `WorldOnKey`, with the invariant kept; anything else changes nothing; the animation time is untouched |
| Viewer.SolarViewer.SelectBody | src/solar_viewer.cpp:92-96 | keys 1..6 select {sun, mercury, venus, earth, moon, mars}[key-1] and leave ship mode; other keys change nothing |
| Viewer.SolarViewer.SwitchOnKey | src/solar_viewer.cpp:97-226 | the switch updates the controls as `SwitchKey` and the world as `WorldOnKey` |
| Viewer.SolarViewer.ControlKey | src/solar_viewer.cpp:97-226 | every case that sets controls (7, 8, 9, G, C, the arrows, SPACE, P/+/=, M/-/-, ESC) updates them exactly as `SwitchKey` |
| Viewer.WorldOnKey | src/solar_viewer.cpp:125-160 | a release changes nothing; the starfield is never touched; only R moves bodies or resets the path parameter, and R changes nothing while the timer is paused; a key that is not R, W, S, A, D or T leaves the world as it was |
| Input.SelectTarget | src/solar_viewer.cpp:92-96 | selecting a body with keys 1..6 keeps the control invariant |
| Input.SwitchKey | src/solar_viewer.cpp:97-226 | every case of the switch keeps the control invariant |
| Viewer.SolarViewer.WorldKey | src/solar_viewer.cpp:125-168 | R, W, S, A, D and T change the world as `WorldOnKey` and keep the time step |
| Viewer.SolarViewer.SteerShip | src/solar_viewer.cpp:137-160 | W and S accelerate the ship by +-0.001, A and D turn it by +-0.02, only in ship mode |
| Input.ValidAfterKeys | src/solar_viewer.cpp:86-228 | every state reached from a valid one by any key sequence is valid |
| Input.DistanceStaysInRange | src/solar_viewer.cpp:111-123 | from the initial state, no key sequence moves the distance out of [2.5, 20.0] or leaves two targets or none |
| Input.DistanceKeys | src/solar_viewer.cpp:111-123 | 8 lowers the distance by 0.1 exactly when it is above 2.5, and 9 raises it by 0.1 exactly when it is below 20.0; otherwise the key changes nothing |
| Input.TargetSelection | src/solar_viewer.cpp:92-105 | keys 1..6 pick that body and leave ship mode, 7 enters ship mode with no body, every other key keeps both |
| Input.InactiveActionIgnored | src/solar_viewer.cpp:89 | a release, or any action that is neither press nor repeat, changes no control |
| Input.TogglesAreInvolutions | src/solar_viewer.cpp:131-135 | G flips only greyscale and SPACE only the timer flag; pressing either twice restores the controls |
| Input.ArrowKeys | src/solar_viewer.cpp:170-192 | left/right change the yaw by -10/+10 and down/up change the pitch by +10/-10, nothing else |
| Input.RandomizeKeepsControls | src/solar_viewer.cpp:125-129 | R leaves every control as it was, the time step included (restored after the randomizing tick) |
| Input.ScaledIsPow2 | src/solar_viewer.cpp:203-219 | k doublings (or -k halvings) of t equal t * 2^k |
| Input.TimeStepScaling | src/solar_viewer.cpp:203-219 | after any key sequence the time step is the old one doubled once per P/+/= press and halved once per M/-/- press, i.e. times 2^(doublings - halvings) |
| Input.StepAfterScaling | src/solar_viewer.cpp:203-219 | following the time step alone through a sequence gives the old step scaled by the net number of doublings |
| Input.DoubleThenHalve | src/solar_viewer.cpp:203-219 | P then M gives the time step back |
| Input.TwoDoublingsFromOneHour | src/solar_viewer.cpp:46 | two presses of P from the initial one-hour step give 4/24 of a day |
| Input.CurveModeAfterPresses | src/solar_viewer.cpp:162-164 | n presses of C advance the curve mode by n modulo the number of modes and change nothing else |
| Input.CurveModeCycles | src/solar_viewer.cpp:162-164 | as many presses of C as there are modes bring the controls back to where they were |
| Viewer.ShipCommandsGated | src/solar_viewer.cpp:137-160 | W/S/A/D leave the whole world unchanged outside ship mode, and in ship mode replace only the ship with the accelerated or turned one |
| Viewer.IgnoredEventsChangeNothing | src/solar_viewer.cpp:89-97 | a non-press event, or a key the handler has no case for, changes neither the controls nor the world |
| Viewer.WorldKeysKeepControls | src/solar_viewer.cpp:125-168 | R, W, S, A, D and T change no control |
| Viewer.ControlKeysKeepWorld | src/solar_viewer.cpp:97-226 | the keys that set controls move no body, ship or frame |
| Viewer.FocusDefined | src/solar_viewer.cpp:404-405 | in every valid state paint has a target: ship mode or a selected body, so `planet_to_look_at_` is never dereferenced as `NULL` |
| Viewer.FocusAfterSelection | src/solar_viewer.cpp:92-105 | after keys 1..6 the camera centres on that body's current position at its radius; after 7 it centres on the ship at 4 times its radius; the key moves nothing |
| Viewer.SelectEarth | src/solar_viewer.cpp:92-96 | key 4 makes the camera look at the earth's current position |
| Viewer.Focus | src/solar_viewer.cpp:404-405 | in ship mode the target is the ship's position at 4 times its radius, otherwise the selected body's position and radius |
| Viewer.SolarViewer.ViewTarget | src/solar_viewer.cpp:404-405 | the centre and radius are the ship's position and 4 times its radius in ship mode, otherwise the selected body's position and radius |
| Bodies.Positioned | src/solar_viewer.cpp:233-269 | the sun is not moved; the four planets are put on circles of their own distance around the sun, at the sun's height, each keeping its w; the moon is put around the earth's new position; no other field changes |
| Viewer.SolarViewer.UpdateBodyPositions | src/solar_viewer.cpp:233-269 | the bodies become `Positioned` of the old bodies, computed in the source's order |
| Bodies.PositionsAreFixedPoint | src/solar_viewer.cpp:233-269 | repositioning already positioned bodies changes nothing |
| Bodies.OrbitRadius | src/solar_viewer.cpp:244-247 | with cos^2 + sin^2 = 1, an orbit point is exactly the body's distance from the centre in the x-z plane |
| Bodies.MoonOrbitsCurrentEarth | src/solar_viewer.cpp:259-267 | after the update the moon shares the earth's height and is exactly its orbit distance from the earth's new position |
| Bodies.PlanetsOrbitSun | src/solar_viewer.cpp:244-262 | mercury, venus, earth and mars lie at the sun's height at their own distance from the sun |
| Viewer.SolarViewer.StepBodies | src/solar_viewer.cpp:277-282 | each of the six bodies is advanced once by `Planet::time_step` with the same step |
| Viewer.SolarViewer.Timer | src/solar_viewer.cpp:274-296 | while paused nothing changes; otherwise the world becomes `Tick` of the old world with the current step; the invariant `Valid()` is kept |
| Viewer.SolarViewer.Advance | src/solar_viewer.cpp:277-294 | the body of the running timer: the world becomes `Tick` of the old world with the given step |
| Bodies.Tick | src/solar_viewer.cpp:276-295 | a tick leaves the bodies positioned (repositioning them changes nothing), keeps the starfield and resets the path parameter to 0 |
| Bodies.TickStepsEachBodyOnce | src/solar_viewer.cpp:276-295 | a tick steps each body exactly once, changes nothing else about them but the planets' positions, leaves them positioned, keeps the starfield, updates the ship once, resets the path parameter to 0 and aligns the frame to the tangent there |
| Viewer.SolarViewer.RandomizePlanets | src/solar_viewer.cpp:577-584 | one tick with a step of rand() % 20000 days if the timer runs; the time step is restored |
| Scene.DrawOverlays | src/solar_viewer.cpp:447-462 | the overlay switch falls through: frame mode draws axes, control polygon and path; control-polygon mode draws the polygon and the path; path mode draws the path; no overlay otherwise; all with the solid-colour program and blending off |
| Scene.DrawPlanets | src/solar_viewer.cpp:492-508 | the loop draws mercury, venus, the moon and mars in that order with the Phong program, extending the frame and keeping what came before |
| Scene.ComposeScene | src/solar_viewer.cpp:445-575 | the draws form a frame (`IsFrame`): the overlays, then sun, mercury, venus, moon, mars, earth, ship, stars and glow, each with its own program and greyscale flag, the animation time given to the sun only; blending is off again afterwards |
| Viewer.SolarViewer.DrawScene | src/solar_viewer.cpp:475-476 | the sun's animation time advances by 0.01 exactly when the timer runs, and the resulting frame uses the curve mode, greyscale flag and new time; the invariant `Valid()` is kept |
| Viewer.SolarViewer.Paint | src/solar_viewer.cpp:378-439 | paint looks at `Focus` of the state and issues one `DrawScene` frame |
| Scene.BlendOnlyForGlow | src/solar_viewer.cpp:557-571 | in every frame blending is on for exactly one draw, the last, the glow |
| Scene.FrameIsUnique | src/solar_viewer.cpp:445-575 | the mode, the greyscale flag and the animation time determine the frame completely |

## Left out

- OpenGL and GLFW calls are not modelled: buffer clears, viewport, shader loading,
  uniforms other than `greyscale` and `t`, texture binding and the error check. A draw is
  represented by its object, program, blend state and those two uniforms.
- `initialize`, `resize` and the texture and model loading are left out: they only set up
  GPU resources.
- Paint's camera maths is left out: the eye and up rotations, `look_at`, the perspective
  projection (`fovy_`, `near_`, `far_`) and the billboard angles need matrices and
  `asin`/`atan2`. Only the choice of centre and radius is modelled.
- `Planet`, `Ship`, the path curve and its moving frame are not part of this model. Their
  effects are the uninterpreted functions of `Bodies.Env`, with one exception: the T key's
  `toggleParallelTransport` is modelled as flipping the frame's `parallelTransport` flag and
  changing nothing else about the frame. That is an assumption about a class whose code is
  not part of this model.
- Bodies.OrbitRadius, Bodies.MoonOrbitsCurrentEarth and Bodies.PlanetsOrbitSun: each
  assumes cos^2 + sin^2 = 1 at the angle involved, because `cos` and `sin` are
  uninterpreted here.
- Input.DistanceKeys: the source adds and subtracts 0.1 in single-precision floating point.
  The model counts in exact tenths, so it does not capture the rounding drift.
- Input.DistanceStaysInRange: the bound [2.5, 20.0] holds only for the exact-tenths
  model. In `float`, 20 presses of 8 from 4.5 leave about 2.5000019, which is still above
  2.5, so the 21st press gives about 2.4000020. Going up, 9 stops at about 20.000042.
- Input.TimeStepScaling: holds over exact reals only, and so does the "positive time
  step" part of `Input.ValidControls` (the Input.OnKey row). From `1.0f/24.0f` the `float`
  time step underflows to 0 after 146 halvings and overflows to infinity after 133
  doublings. The angles and positions are exact reals too.
- Viewer.SolarViewer.RandomizePlanets: does not state that `Valid()` is kept. It keeps the
  time step and modifies no other field `Valid()` reads.
- The `scancode` and `mods` parameters of `keyboard` are unused by the source, and
  therefore absent.
- The `std::cout` logging of the T, SPACE, P/M and R cases is left out.
- `rand()` and `srand(time(NULL))` are replaced by the parameter `rnd`.
- The curve-display-mode numbering (none 0, path 1, control polygon 2, frame 3, count 4)
  and the initial mode and path parameter come from `solar_viewer.h`, which is not part of
  this model. The numbering is assumed. The initial mode and the path parameter are
  constructor parameters.
- `src/rendering/World_Viewer.cpp`, the second viewer, is not part of this model.
- Viewer.SolarViewer.Timer: `ship_speed` is declared but unused in the source. The path
  parameter is reset to 0, so the following `>= 1` reset never fires. The model keeps both
  steps but does not model the unused constant.
