# Browser graphics sketches: the discrete logic, modelled in Dafny

The repository is a set of small browser graphics demos. Most of each demo
builds a 3D scene and draws it every frame. Three demos also hold small pieces
of discrete or structural logic, and those pieces are modelled here:

- **The fan control panel** (`002/script.js`, module `FanPanel`).
  Five buttons (POWER, SWING, LOW, MID, HIGH) drive two flags of the page
  script (`isPowerOn`, `isSwingOn`) and two speed fields of the scene object
  (`speed`, `speed_swing`). Each frame turns the blade by `speed` and advances
  the swing angle by `speed_swing`. The class `App3` holds the scene object's
  fields, its setters and its frame step. The class `ControlPanel` holds the
  two flags and the click handlers, which become methods. The pure function
  `Press` specifies one press, and `Run` specifies a sequence of presses.
  The predicate `Inv` is the invariant the panel keeps.
- **The triangle-fan geometry** (`005-2/script/script.js`, module
  `TriangleFan`). `setupGeometry` clears the flat `position` and `color`
  arrays, then pushes one triangle per loop iteration. The draw call draws
  `position.length / positionStride` vertices. The `isRender` flag decides
  whether a frame schedules the next one. `Math.cos` and `Math.sin` are
  function-typed parameters, so the model says where their values go and
  nothing about what they are.
- **The drifting box field** (`001/script.js`, module `BoxField`). `init`
  creates 300 meshes from random draws. Every frame, `render` spins each mesh
  and moves it along z in place. A mesh that passes the camera's depth wraps
  to the far side. Meshes are objects of class `Mesh`, and the list is a
  `seq<Mesh>` field. The `Math.random()` results are an input sequence of
  draws in [0, 1).

The shared module `JsMath` holds `Math.PI` and `Math.round`. All numbers are
reals, and no property stated here depends on floating-point rounding.

## Model

| member | source | states |
|---|---|---|
| `JsMath.Round` | 001/script.js:176 | `Math.round` yields the integer nearest to its argument, with halves rounding up |
| `FanPanel.SpeedOf` | 002/script.js:14-18 | LOW, MID and HIGH select one of the three non-zero speeds 0.05, 0.1 and 0.15 |
| `FanPanel.InitialSatisfiesInv` | 002/script.js:20-21 | at load, power and swing are off, both speeds are 0, and the invariant holds |
| `FanPanel.Press` | 002/script.js:29-71 | one press keeps the invariant. POWER toggles power and leaves the swing flag alone: switching on sets speed 0.05, switching off zeroes both speeds. SWING starts (0.5, flag set) exactly when powered and not swinging, and otherwise stops and clears the flag. LOW, MID and HIGH change nothing while off, and while on they set only the speed |
| `FanPanel.Run` | 002/script.js:29-71 | any sequence of presses keeps the invariant: speed is 0 exactly when power is off, speed is one of the four constants, swing speed is 0 or 0.5, and a non-zero swing speed implies both flags |
| `FanPanel.ReachableSatisfiesInv` | 002/script.js:20-71 | every state reachable from page load satisfies the invariant |
| `FanPanel.PowerPressesAlternate` | 002/script.js:29-39 | n consecutive POWER presses flip the power flag n times and never change the swing flag |
| `FanPanel.StaleSwingFlag` | 002/script.js:34-49 | switching off while swinging leaves `isSwingOn` set. After switching back on, the first SWING press only clears the stale flag (swing speed stays 0), and a second press starts swinging |
| `FanPanel.FramesAccumulate` | 002/script.js:189-196 | n frames subtract n·speed from the blade rotation and add n·speed_swing to the swing angle |
| `FanPanel.PoweredOffIsStill` | 002/script.js:189-196 | while power is off, blade rotation and swing angle never change, however many frames are drawn |
| `FanPanel.App3.constructor` | 002/script.js:163-165 | speed, swing speed and swing angle start at 0 |
| `FanPanel.App3.SetSpeed` | 002/script.js:181-183 | sets `speed` and changes nothing else |
| `FanPanel.App3.SetSwing` | 002/script.js:185-187 | sets `speed_swing` and changes nothing else |
| `FanPanel.App3.Render` | 002/script.js:189-196 | one frame: blade rotation decreases by `speed`, swing angle increases by `speed_swing`, and the speeds are unchanged |
| `FanPanel.ControlPanel.constructor` | 002/script.js:20-21 | both flags start false, so the panel starts in the initial state |
| `FanPanel.ControlPanel.OnPower` | 002/script.js:29-39 | the new flags and speeds are `Press(old, Power)`, and the frame accumulators are untouched |
| `FanPanel.ControlPanel.OnSwing` | 002/script.js:41-50 | the new flags and speeds are `Press(old, Swing)` |
| `FanPanel.ControlPanel.OnLow` | 002/script.js:52-57 | the new flags and speeds are `Press(old, Low)` |
| `FanPanel.ControlPanel.OnMid` | 002/script.js:59-64 | the new flags and speeds are `Press(old, Mid)` |
| `FanPanel.ControlPanel.OnHigh` | 002/script.js:66-71 | the new flags and speeds are `Press(old, High)` |
| `TriangleFan.Theta` | 005-2/script/script.js:165 | the first rim angle of triangle i is 90° plus i steps of 360/num degrees (in radians), so the rim vertices are evenly spaced, num of them to a full turn |
| `TriangleFan.NextTheta` | 005-2/script/script.js:166 | the second rim angle of triangle i, computed as a separate expression, equals the first rim angle of triangle i+1 |
| `TriangleFan.RimVertex` | 005-2/script/script.js:170-171 | a rim vertex has three components and lies in the plane z = 0 |
| `TriangleFan.Triangle` | 005-2/script/script.js:169-173 | each iteration pushes nine numbers (three XYZ vertices) |
| `TriangleFan.FanPositions` | 005-2/script/script.js:164-173 | after k iterations, `position` holds 9·k numbers |
| `TriangleFan.FanColors` | 005-2/script/script.js:175-189 | after k iterations, `color` holds 36·k numbers |
| `TriangleFan.TriangleOfFan` | 005-2/script/script.js:164-173 | the i-th nine-number block of `position` is exactly the triangle pushed in iteration i |
| `TriangleFan.FanShape` | 005-2/script/script.js:165-171 | every triangle starts at the origin and has z = 0 at all three vertices. Consecutive triangles share an edge vertex: the third vertex of triangle i equals the second vertex of triangle i+1 |
| `TriangleFan.ColorsOfFan` | 005-2/script/script.js:175-189 | every 36-number block of `color` is the same fixed literal of nine RGBA groups |
| `TriangleFan.DrawCount` | 005-2/script/script.js:310 | a count exists exactly when the stride is set (non-null and non-zero), and then count × stride = `position.length` |
| `TriangleFan.GeometryCounts` | 005-2/script/script.js:150-195 | with num = 5: 45 position numbers, 180 color numbers, and a draw count of 15 = 3·num. The color array holds three times as many RGBA groups as there are vertices drawn |
| `TriangleFan.App.constructor` | 005-2/script/script.js:56-91 | empty arrays, null strides and buffers, and the render flag off |
| `TriangleFan.App.Init` | 005-2/script/script.js:100-112 | records the start time read from the clock, and changes nothing else in the model |
| `TriangleFan.App.SetupGeometry` | 005-2/script/script.js:150-195 | the arrays are rebuilt from empty (so a second call gives the same arrays rather than longer ones) and equal `FanPositions(5)` and `FanColors(5)`. The strides are 3 and 4, the buffers hold the arrays, and the render flag and start time are unchanged |
| `TriangleFan.App.Render` | 005-2/script/script.js:292-311 | requests another frame if and only if `isRender` is set. Passes the elapsed seconds and the draw count `position.length / positionStride` |
| `TriangleFan.App.Start` | 005-2/script/script.js:232-239 | sets the start time to the first clock reading and sets the flag, so the first frame requests the next one. That frame reads the clock a second time and passes (second − first)·0.001 seconds. The geometry is unchanged |
| `TriangleFan.App.Stop` | 005-2/script/script.js:244-246 | clears the flag, so the next frame requests no further frame, and changes nothing else |
| `BoxField.Spread` | 001/script.js:167-169 | with a draw in [0,1), each initial position coordinate lies in [-6, 6) |
| `BoxField.Turn` | 001/script.js:171-173 | with a draw in [0,1), each initial rotation component lies in [0, 2π) |
| `BoxField.BoxScaleOf` | 001/script.js:175-176 | with `isInit` set, the rounded scale is exactly 1. Without it, the scale lies in [0.5, 1.0) |
| `BoxField.InitialPose` | 001/script.js:163-180 | an initial box has position in [-6,6)³, rotation in [0,2π)³ and a uniform scale, which is exactly 1 under `isInit` |
| `BoxField.Advance` | 001/script.js:230-238 | one frame of one box: afterwards z ≤ 5. z grows by 0.01 unless that passes 5, in which case z becomes exactly -5. Rotation x and y grow by 0.03. Rotation z, position x and y, and scale are unchanged |
| `BoxField.FramesKeepBoxInField` | 001/script.js:230-238 | over n frames a box spins by n·0.03 about x and y, keeps everything else, and keeps its depth in [-6, 6). From the first frame on, its depth is at most 5 |
| `BoxField.Mesh.constructor` | 001/script.js:164 | a new mesh is at the origin, unrotated, at unit scale |
| `BoxField.App.constructor` | 001/script.js:106 | the box list starts empty |
| `BoxField.App.Init` | 001/script.js:151-180 | appends exactly `BOX_COUNT` = 300 fresh, distinct meshes after the existing ones, the k-th posed from the k-th draws with `isInit` set |
| `BoxField.App.Render` | 001/script.js:225-238 | every mesh in the list is advanced one frame in place. The list itself is unchanged, and afterwards every mesh has z ≤ 5 |

## Left out

- Scene construction in all three demos is not modelled: three.js objects, cameras, lights, fog, materials, orbit controls, renderer calls, resize handlers, `requestAnimationFrame` and DOM event registration. Handlers are plain method calls, and "schedules the next frame" is a boolean result.
- The fan's swing angle `group.rotation.y = 1.3 * sin(degree * PI / 180)` (002/script.js:197) is floating-point trigonometry and is not modelled. Only `degree` is.
- The scene object's fields `isPowerOn` and `isSwingOn` (002/script.js:160-161) are never read or written after construction, so they are omitted. The flags that matter are the page script's local variables.
- `load`, `setupLocation`, `setupRendering` and `setupGUI` of 005-2/script/script.js are not modelled. Neither is the canvas and WebGL-context part of `init`, which is modelled only as recording the start time. These are network I/O and foreign WebGL and GUI calls. `createVBO` is modelled only as a snapshot of the array it uploads. `gl.useProgram`, `gl.uniform1f` and `gl.drawArrays` are modelled only through the values passed to them.
- `Date.now()` is a parameter, one per reading. The start time is `null` from the constructor until `init` sets it, and JavaScript subtraction reads `null` as 0, so the constructor in the model sets it to 0.
- `360 / \`${num}\`` (005-2/script/script.js:165-166) depends on string-to-number coercion and is modelled as `360 / num`.
- `TriangleFan.DrawCount`: with a `null` stride, JavaScript yields NaN or Infinity. The model returns `None` and does not distinguish the two.
- In 001/script.js, the point-light motion (240-244) is trigonometry on the clock and is left out. `group.add(mesh)` and the `this.mesh` reference to the last box built are not modelled. The unused `DISTANCE` constants are left out too.
- Numbers are reals, `Math.PI` is the exact real 3.141592653589793, and IEEE-754 rounding is not modelled.
- 003/script.js (flight-path orientation with vectors and quaternions), 005-1/script/webgl.js (WebGL wrappers) and 000/script.js (a spinning cube) are not part of this model.
