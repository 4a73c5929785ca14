# sigma.js Camera, modelled in Dafny

This project models the camera of the sigma.js graph renderer. The camera is
a small viewport state machine plus an invertible map between graph space and
the pixel viewport.

- **State.** The camera holds a current state `{x, y, angle, ratio}` (focal
  point, rotation in radians, zoom ratio), the state before the last accepted
  change, and an `enabled` gate.
- **`setState`.** It lays a partial state over the current one field by field
  and records the old current state as the previous one. A disabled camera
  ignores the call entirely.
- **`graphToViewport`.** It scales the offset from the focal point by
  `min(width, height) / ratio`, flips the y axis, rotates by the angle and
  shifts to the viewport centre.
- **`viewportToGraph`.** It undoes these steps in reverse order.

The implementation file `src/camera.ts` is not part of this model. The model
reproduces the behaviour that its unit tests `test/unit/camera.ts` pin down.
The model takes the scale `min(width, height) / ratio` and the centre
`(width / 2, height / 2)` as the map. The transform formulas are consistent
with the tests' vectors, but the vectors cannot tell them apart from
alternatives: all of them use one 200×100 viewport, where the shorter side
is the height.

Files and modules:

- `geometry.dfy` (`Geometry`): points, viewport dimensions, and the
  cosine/sine pair `Trig` of an angle. It defines rotation by the angle and by
  its opposite, with their inverse and length-preservation laws.
- `camera.dfy`:
  - `Options`: an optional value.
  - `States`: the state, partial states and their field-by-field merge.
  - `Cameras`: the camera value with `New`, `GetState`, `GetPreviousState`,
    `Enable`, `Disable` and `SetState` as pure functions.
- `transform.dfy` (`Transform`): the scale, `GraphToViewport` and
  `ViewportToGraph`. It proves the two round trips, that distances scale
  uniformly, and the screen orientation of the axes.
- `driver.dfy` (`Driver`): a camera driven by any sequence of `setState`,
  `enable` and `disable` calls, with the invariants the gate and the history
  keep over it.
- `scenarios.dfy` (`Scenarios`): the unit tests' concrete states and vectors.

`Enable` is the partner of `Disable`: it opens the gate and leaves both
states alone, and `Cameras.ReenableRestores` proves that disabling and then
enabling again gives back exactly the enabled camera's response to
`setState`. The unit tests never call `enable()`, so no test line pins it down.

The getters `GetState` and `GetPreviousState` (`getState()` and
`getPreviousState()`) are the two field reads `c.state` and `c.previous`.
The rows below that mention `getState()` or `getPreviousState()` pin them
down. They read an immutable value, so defensive copying needs no modelling. Coordinates are exact reals. `Math.cos` and `Math.sin`
are not computed: the transforms take the pair `(cos angle, sin angle)` as a
`Trig` argument. `IsUnit` (c² + s² = 1) is required where the proofs need it.
`TrigOf(angle, t)` records the one value the model relies on: the angle 0 has
the pair (1, 0). The quarter-turn test takes `(0, 1)` as the pair of π/2.

## Model

| member | source | states |
|---|---|---|
| Cameras.New | test/unit/camera.ts:12-21 | a new camera is enabled; its state is x = 0.5, y = 0.5, angle = 0, ratio = 1; its previous state equals its state |
| Scenarios.NewCameraState | test/unit/camera.ts:12-21 | `getState()` on a new camera returns exactly {x: 0.5, y: 0.5, angle: 0, ratio: 1} |
| Cameras.SetState | test/unit/camera.ts:23-76 | a disabled camera is returned unchanged; an enabled one stays enabled, records its old state as the previous state, takes every given field from the partial state and keeps every omitted field |
| States.Merge | test/unit/camera.ts:96-98 | the merged state has each field the partial state gives and the base's value for each field it omits |
| States.MergeUnique | test/unit/camera.ts:96-98 | a state equals the merge if and only if it takes the given fields from the partial state and the omitted ones from the base |
| States.MergeFull | test/unit/camera.ts:37-53 | merging a full state yields that state, whatever the base |
| States.MergeOverride | test/unit/camera.ts:96-109 | a later partial state that gives every field an earlier one gave overrides it completely: merging both is merging the later one alone, as line 109 does over line 96 |
| States.MergeIdempotent | test/unit/camera.ts:96-109 | the case of the override where the two partial states are equal: laying the same partial state over the result again changes nothing |
| Cameras.SetFullState | test/unit/camera.ts:37-53 | after `setState` with a full state S on an enabled camera, `getState()` is S and `getPreviousState()` is the old state |
| Cameras.PreviousAfterTwoSets | test/unit/camera.ts:23-35 | after `setState(S1)` then `setState(S2)`, `getPreviousState()` is S1 and `getState()` is S2 |
| Cameras.Disable | test/unit/camera.ts:71 | disabling closes the gate and leaves the current and previous states as they were |
| Cameras.DisabledKeepsState | test/unit/camera.ts:55-76 | after `setState(S1)`, `disable()` and `setState(S2)`, the state is still S1 and the previous state is the one before S1 |
| Cameras.SetStateOverride | test/unit/camera.ts:96-109 | on an enabled camera, a `setState` that gives every field the previous call gave decides the current state alone, and the earlier call shows only as the previous state |
| Cameras.SetStateIdempotent | test/unit/camera.ts:96-109 | the equal-partials case: repeating a `setState` call leaves the current state as one call did |
| Driver.OnlySetStateMutates | test/unit/camera.ts:70-75 | any sequence of enable and disable calls leaves both the current and the previous state unchanged |
| Driver.DisabledIgnoresSets | test/unit/camera.ts:55-76 | a disabled camera is left entirely unchanged by any number of `setState` calls |
| Driver.FrozenAfterDisable | test/unit/camera.ts:70-75 | after any history, a `disable()` followed by any `setState` calls leaves the camera as it was when disabled |
| Driver.PreviousIsStateBeforeLastSet | test/unit/camera.ts:26-34 | after any history, an accepted `setState` records as previous exactly the state the history left, and the new state has the given fields |
| Driver.RunConcat | test/unit/camera.ts:95-109 | running two sequences of calls one after the other is running their concatenation |
| Driver.RunKeepsRatioPositive | test/unit/camera.ts:95-119 | if every `setState` gives a positive ratio, both states keep a positive ratio, which the transforms need |
| Geometry.Rotate | test/unit/camera.ts:108-111 | the angle-0 pair leaves points unchanged, and the origin stays fixed |
| Geometry.Unrotate | test/unit/camera.ts:112-119 | rotation by the opposite angle: the angle-0 pair leaves points unchanged, and the origin stays fixed |
| Geometry.UnrotateRotate | test/unit/camera.ts:112-119 | for a unit pair, rotating and then rotating back gives the point |
| Geometry.RotateUnrotate | test/unit/camera.ts:112-119 | for a unit pair, rotating back and then rotating gives the point |
| Geometry.RotatePreservesNorm | test/unit/camera.ts:108-111 | for a unit pair, rotation keeps the length of an offset |
| Geometry.RotateSub | test/unit/camera.ts:108-111 | rotation is linear: it commutes with taking differences |
| Transform.ScaleMeaning | test/unit/camera.ts:95-98 | scale × ratio is the shorter viewport side, so halving the ratio doubles the scale; the scale is positive for a positive ratio and a non-empty viewport |
| Transform.InverseScaleMeaning | test/unit/camera.ts:86-93 | for a non-zero ratio and shorter side, the graph-units-per-pixel factor ratio / min(width, height) is the reciprocal of the scale, so multiplying by it is dividing by the scale |
| Transform.ToPixelsInverse | test/unit/camera.ts:86-93 | scaling an offset to pixels (y flipped) and then by the reciprocal factor gives the offset, in either order |
| Transform.ToPixelsNorm | test/unit/camera.ts:95-98 | scaling to pixels multiplies squared lengths by the square of the scale on both axes |
| Transform.GraphToViewport | test/unit/camera.ts:84 | the camera's focal point maps to the viewport centre, for any state with a non-zero ratio, any angle and any viewport |
| Transform.ViewportToGraph | test/unit/camera.ts:86-89 | the viewport centre maps back to the camera's focal point; at a zero ratio every pixel maps to the focal point, as dividing by the then infinite scale gives |
| Transform.GraphRoundTrip | test/unit/camera.ts:86-93 | for any non-zero ratio, any viewport whose shorter side is non-zero and any unit pair, `viewportToGraph(graphToViewport(p)) == p` for every p |
| Transform.ViewportRoundTrip | test/unit/camera.ts:86-93 | under the same conditions, `graphToViewport(viewportToGraph(q)) == q` for every viewport point q |
| Transform.GraphToViewportScalesDistances | test/unit/camera.ts:95-98 | for a unit pair, the viewport distance between any two graph points is the scale times their graph distance: the zoom is isotropic and the rotation keeps shapes |
| Transform.UnrotatedOrientation | test/unit/camera.ts:84-85 | unrotated, with positive ratio and viewport: graph x order is viewport x order, and graph y order is reversed viewport y order |
| Transform.UnrotatedFormula | test/unit/camera.ts:84-85 | unrotated, the map is affine: viewport x is width/2 + (x − focal x)·scale and viewport y is height/2 − (y − focal y)·scale, the same scale on both axes and y flipped |
| Transform.QuarterTurnFormula | test/unit/camera.ts:110-111 | with the pair (0, 1), viewport x is width/2 + (y − focal y)·scale and viewport y is height/2 + (x − focal x)·scale |
| Scenarios.DefaultView | test/unit/camera.ts:84-85 | the new camera on the 200×100 viewport maps every graph point (x, y) to (100 + (x − 0.5)·100, 50 − (y − 0.5)·100) |
| Scenarios.PanZoomView | test/unit/camera.ts:97-98 | the panned and zoomed camera maps every graph point (x, y) to (100 + (x − 1)·200, 50 − (y − 0.5)·200) |
| Scenarios.QuarterTurnView | test/unit/camera.ts:110-111 | the quarter-turned camera maps every graph point (x, y) to (100 + (y − 0.5)·200, 50 + (x − 1)·200) |
| Scenarios.DefaultCentre | test/unit/camera.ts:84 | new camera, 200×100 viewport: (0.5, 0.5) maps to (100, 50) |
| Scenarios.DefaultTopRight | test/unit/camera.ts:85 | new camera, 200×100 viewport: (0.75, 0.75) maps to (125, 25) |
| Scenarios.DefaultRoundTrip | test/unit/camera.ts:86-93 | new camera, 200×100 viewport: every graph point maps to the viewport and back to itself |
| Scenarios.PanZoomState | test/unit/camera.ts:96 | `setState({x: 1, y: 0.5, ratio: 0.5})` on a new camera leaves the angle at 0 |
| Scenarios.PanZoomCentre | test/unit/camera.ts:97 | after that call, (0.5, 0.5) maps to (0, 50) |
| Scenarios.PanZoomTopRight | test/unit/camera.ts:98 | after that call, (0.75, 0.75) maps to (50, 0) |
| Scenarios.PanZoomRoundTrip | test/unit/camera.ts:99-106 | after that call, every graph point maps to the viewport and back |
| Scenarios.QuarterTurnCentre | test/unit/camera.ts:110 | after also setting the angle π/2, whose pair (0, 1) `TrigOf` ties to a non-zero angle, (0.5, 0.5) maps to (100, −50) |
| Scenarios.QuarterTurnTopRight | test/unit/camera.ts:111 | with angle π/2, (0.75, 0.75) maps to (150, 0) |
| Scenarios.QuarterTurnRoundTrip | test/unit/camera.ts:112-119 | with angle π/2, every graph point maps to the viewport and back |
| Scenarios.PreviousStateScenario | test/unit/camera.ts:23-35 | the concrete history test: the previous state is {x: 34, y: 56, ratio: 4, angle: 10} |
| Scenarios.DisabledScenario | test/unit/camera.ts:55-76 | the concrete gate test: the two states differ and the disabled camera keeps {x: 10, y: -45, angle: 0, ratio: 3} |

## Left out

- Floating-point rounding. Coordinates are exact reals, so the round trips
  hold exactly.
- NaN and Infinity propagation. Infinity and NaN do not exist among the
  reals, so the model excludes exactly the inputs that produce them in
  JavaScript. Other degenerate inputs it models as they are:
  - In `graphToViewport`, a zero ratio makes the scale infinite and the
    result Infinity or NaN, so `GraphToViewport` requires `ratio != 0`.
  - In `graphToViewport`, a zero shorter side only makes the scale 0: every
    point maps to the centre, and `GraphToViewport` models that case.
  - In `viewportToGraph`, a zero ratio makes the scale +Infinity, and
    dividing by it gives 0: every pixel maps to the focal point.
    `ViewportToGraph` multiplies by `ratio / min(width, height)` instead of
    dividing by the scale. The two agree for every non-zero ratio, and this
    form models the zero-ratio case too.
  - In `viewportToGraph`, a zero shorter side makes that factor Infinity or
    NaN, so `ViewportToGraph` requires a non-zero shorter side.
- `Math.cos` and `Math.sin`. The pair of the state's angle is an argument of
  the transforms. The model fixes only the angle 0 → (1, 0) and takes (0, 1)
  for π/2 in the quarter-turn test.
- Geometry.Rotate: does not tie `t` to the state's `angle` field beyond the
  angle-0 case, because trigonometry on reals is not expressible here.
- Anything else `src/camera.ts` holds beyond what the tests exercise, such
  as an initial state handed to the constructor. That file is not part of
  this model.
- Defensive copies on `getState`/`getPreviousState`. Immutable values make
  them unnecessary.
- Rendering, input handling, animation loops and concurrency. These are
  callers of the camera, and the camera itself is single-threaded.
