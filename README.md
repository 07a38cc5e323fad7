# Birthday cake diorama: keyboard toggle state machine

The diorama in `index.js` builds a static three.js scene (table, cake, two
candles, text, skybox, a camera model) and then reacts to the keyboard. The
only logic the repository owns is the `keyboard` key-down handler. It switches
on the event's key code and changes live scene objects in place:

- **Q (81)** toggles the spotlight's intensity: 1 if it reads exactly 0, else 0.
- **S (83)** sets both candle point-lights to 1 if both read 0, and otherwise to 0.
- **W (87)** calls `camera.position.set` twice. The second call (24, 6, 0)
  overwrites the first (16, 12, -8). `set` returns the vector object, which is
  always truthy, so the reset in the `else` branch never runs.
- **Space (32)** puts the camera back at (16, 12, -8).
- Every other key code does nothing. This includes the commented-out 65 and 68.

At start-up the spotlight and both candle lights are created with intensity 0,
and the camera is placed at (16, 12, -8). Between key presses the orbit
controls may move the camera anywhere. Nothing but the handler changes the lights.

The project has two modules:

- `ToggleSpec` (`toggle_spec.dfy`) is the value-level specification. It
  defines a `Scene` record of the four controlled values, the effect `Step` of
  one key press, the effect `Apply` of one event (a key press or an orbit move),
  and `Run` over a whole session of events. It also holds the lemmas about them.
- `ToggleController` (`toggle_controller.dfy`) is the in-place model. The class
  `KeyboardControls` has the mutable fields `spot`, `candle1`, `candle2` and
  `cam`, a constructor for the start-up state, `HandleKey`, which follows the
  handler branch by branch, and `OrbitTo` for the orbit controls' effect. Each
  method ties its new state to `Step` or `Apply` of the old state and states
  which fields it leaves unchanged.

The W case names its values `defaultPosition` and `defaultTarget`, but the
second `set` (index.js:89) leaves the camera at (24, 6, 0), and the model
follows the code. That the `else` branch at index.js:94 is dead rests on one
fact about three.js: `Vector3.set` returns the vector itself, an object, and
every object is truthy in JavaScript. `HandleKey` records that result as
`true` and proves the branch unreachable from it.

## Model

| member | source | states |
|---|---|---|
| `ToggleSpec.Toggle` | index.js:79-83 | the written intensity is always 0 or 1, and it is 1 exactly when the light read 0 |
| `ToggleSpec.CandlesAfterS` | index.js:100-106 | the shared candle intensity is 0 or 1, and it is 1 exactly when both candles read 0 |
| `ToggleSpec.Step` | index.js:76-122 | Q toggles the spot; S leaves both candles equal, on iff both were off; Space sets the camera home and W sets it to (24, 6, 0) whatever its prior position; each key leaves all other state unchanged; unknown codes change nothing; the light invariant is preserved |
| `ToggleSpec.Apply` | index.js:66-69 | an orbit move between key presses sets the camera and leaves the lights unchanged; keys other than Q and S leave the lights unchanged; every event preserves the light invariant |
| `ToggleSpec.Run` | index.js:125-127 | a session of key-down events and orbit moves preserves the light invariant |
| `ToggleSpec.QTwiceRestores` | index.js:79-83 | two Q presses restore the whole state when the spotlight is 0 or 1 |
| `ToggleSpec.STwiceRestores` | index.js:100-106 | two S presses restore the whole state when the candles are equal and 0 or 1 |
| `ToggleSpec.CameraKeysIdempotent` | index.js:87-112 | Space and W are each idempotent, and the camera position they leave does not depend on the prior state |
| `ToggleSpec.RunAppend` | index.js:125-127 | handling two sessions one after the other is handling their concatenation |
| `ToggleSpec.LastCameraKeyDecides` | index.js:87-112 | after any history, a final Space leaves the camera at (16, 12, -8) and a final W leaves it at (24, 6, 0) |
| `ToggleSpec.SpotParity` | index.js:78-84 | with the spotlight at 0 or 1, its value after any session is its start value when the session has an even number of Q presses and its toggle when the number is odd, whatever else happens in between |
| `ToggleSpec.CandleParity` | index.js:99-107 | with equal candles at 0 or 1, after any session the candles are still equal, and they are toggled exactly when the session has an odd number of S presses |
| `ToggleSpec.InvariantFromStartup` | index.js:73-123 | from the start-up state, every session leaves the spotlight at 0 or 1 and the candles equal and at 0 or 1 |
| `ToggleSpec.ThousandQPresses` | index.js:78-84 | from start-up, 1000 Q presses leave the spotlight off |
| `ToggleController.KeyboardControls.constructor` | index.js:168-179 | start-up state: spotlight 0 (index.js:171), both candle lights 0 (index.js:346, index.js:389), camera at (16, 12, -8) (index.js:58); the invariant holds |
| `ToggleController.KeyboardControls.OrbitTo` | index.js:66-67 | the orbit controls move only the camera; the lights and the invariant are kept |
| `ToggleController.KeyboardControls.HandleKey` | index.js:73-123 | the new state is `Step` of the old one: Q toggles the spot, S sets both candles to 1 iff both were 0 and otherwise to 0, W leaves the camera at (24, 6, 0), Space at (16, 12, -8), each key leaves every other field unchanged, unknown codes change nothing, and the invariant is preserved; the unreachable `else` of the W case is proved dead |
| `ToggleController.StartupSession` | index.js:125-131 | from start-up, Q, an orbit move, Q, any key and S leave the spotlight off and the candles equal; shown using only the handler contracts |

## Left out

- Building the scene through three.js: geometries, materials, textures, meshes, shadow flags and the skybox. These are calls into a library that is not part of this model.
- The renderer and the `requestAnimationFrame` render loop. They are I/O and scheduling.
- The orbit-control camera math. Only its effect is modelled: `OrbitTo` and the `Orbit` event may put the camera anywhere between key presses.
- The window resize handler. It is DOM I/O, and it computes a floating-point aspect ratio.
- The asynchronous font and GLTF loaders. They are callbacks into external libraries and use `Math.PI` rotations.
- Fixed scene data: the ambient light's 0.3 intensity, the field of view, the aspect ratio and the mesh positions. They are floating-point constants with no logic.
- Registering the key-down listener with the DOM. `Run` and `StartupSession` stand for the stream of events it delivers.
- Intensities and camera coordinates are JavaScript numbers (floats). They are modelled as integers, because the handler only ever writes the integers 0, 1 and the two integer poses. The orbit controls' non-integer camera positions are not modelled.
