# VRPawn controller input and locomotion, in Dafny

This project models the controller-input and locomotion core of `VRPawn`
(`src/VRPawn.js`), the camera rig of a WebXR template scene. It covers three
pieces.

- **Handedness resolution** (module `Handedness`). `RIndex`/`LIndex` start at
  (0,1). They become (1,0) when input source 0 reports `"left"`.
- **The gamepad sampler** (modules `Gamepad`, `Sampler`).
  - `CheckControllerInputs` walks the right map and, if there is one, the left
    map.
  - Each entry's name goes through seven case-sensitive substring tests. The
    matching tests copy `pressed`, `touched`, the value rounded by
    `toFixed(2)`, or a stick axis into the 24-field `GamepadValues` record.
    Y axes are stored negated.
  - A copy of the record is then pushed onto the two-deep `InputCache`.
- **The handlers** (module `Pawn`) over a pawn state:
  - The state holds the rotation, the root position, the teleport target,
    each controller's selection-sphere opacity and aiming-line scale, and the
    `RightController`/`LeftController` handles.
  - `PressButton` does nothing.
  - `ReleaseButton` hides a grip's sphere.
  - `AxisChange` does three things: it drives the sphere from the grip
    pressure, snap-turns on the right stick, and aims or commits a teleport
    with the left stick.

Modules `SamplerProperties` and `Locomotion` hold the properties that span
several calls:
- the pawn invariant over any run of events;
- one snap turn per push of the stick;
- the grip-opacity trace;
- aim-then-rest teleporting;
- the stick-press finding below.

How the original program's behaviour is represented:
- A JavaScript TypeError becomes an `Err` result. This covers an undefined
  controller handle, a missing `InputCache[1]`, and a missing map, input
  source, gamepad or button.
- A missing axis is reported as the error `NoAxis`; the original stores
  `undefined` instead (see "## Left out").
- Numbers are exact `real`s.
- The root's rotation is an integer count of eighth turns; -1 is
  `rotateY(-π/4)`.
- The teleport target's position is an input. The `Aimed` event stands for
  the scene code that moves it.
- The controller map is an input. The `MapLoaded` event stands for the model
  factory filling it in.
- The sampler applies the stick-press test as the code writes it
  (`Revision.AsWritten`); the corrected test (`Revision.Corrected`) appears
  only in the lemmas of the finding below.

Consequences of the code that the model makes explicit:
- **Grip feedback.** The sphere follows the grip only when the pressure rises
  strictly above the previous sample, and a controller is built with opacity
  0. So the pressures 0.0, 0.4, 0.8 from rest show 0, 0.15, 0.05: the first
  sample does not rise and leaves the sphere invisible
  (`Locomotion.GripScenario`).
- **Snap turn.** A turn needs the previous sample strictly below 0.9
  (strictly above -0.9 for the other direction), so a stick resting exactly
  at 0.9 and then pushed further does not turn.
- **Exceptions.** A rising grip (lines 407-409 and 430-432), a grip release
  (lines 366-368 and 382-384) and any `LStickYAxis` change (line 443)
  dereference a controller handle, so before the first `inputsourceschange`
  they throw. `RStickXAxis` and the other axes never touch a handle. Any
  grip or snap comparison that reads `InputCache[1]` throws while the cache
  holds a single sample.

## Model

| member | source | states |
|---|---|---|
| Common.IncludesIffOccurs | src/VRPawn.js:181-206 | the substring test the map names go through holds exactly when the pattern occurs at some offset of the name |
| Gamepad.Defaults | src/VRPawn.js:26-51 | the initial record has every button false and every axis 0.0 |
| Gamepad.NameRoundTrip | src/VRPawn.js:26-51 | the 24 property names and the 24 keys correspond one to one: parsing a key's name gives the key, and a name parses only to the key it names |
| Gamepad.CopyToObject | src/VRPawn.js:53-55 | the key-by-key copy holds exactly the record's 24 names, each with the record's value, and reads back as the same record |
| Gamepad.FromObjectInverts | src/VRPawn.js:243-245 | an object holding every name with the record's value is that record again, so each cache entry is a faithful copy |
| Sampler.InitialRecords | src/VRPawn.js:26-55 | `GamepadDefaults` has exactly the keys of the initial `GamepadValues`, buttons false and axes 0.0, and equals it key by key |
| Sampler.InitialSampler | src/VRPawn.js:26-57 | a new pawn starts with the all-rest record and an empty input cache |
| Handedness.Resolve | src/VRPawn.js:64-70 | one `inputsourceschange` either swaps to (1,0) or leaves the roles alone, and keeps them distinct |
| Handedness.ScanSources | src/VRPawn.js:65-70 | the loop over the input sources swaps exactly when position 0 reports "left"; later positions never matter |
| Handedness.RolesOverSession | src/VRPawn.js:23-72 | over any series of events the roles are (1,0) exactly when some event listed a left-handed source first, never swap back, and stay distinct |
| Handedness.SessionFromStart | src/VRPawn.js:23-72 | from (0,1), RIndex differs from LIndex after any session, and the swap happens exactly when some event led with a left-handed source |
| Sampler.ToFixed2Close | src/VRPawn.js:183 | `parseFloat(x.toFixed(2))` moves a value by at most half a hundredth and leaves at most two decimals |
| Sampler.ToFixed2Idempotent | src/VRPawn.js:183 | rounding to two decimals twice is rounding once |
| Sampler.PadAt | src/VRPawn.js:182 | reading `inputSources[i].gamepad` succeeds exactly when the source exists and has a gamepad |
| Sampler.ButtonAt | src/VRPawn.js:182 | reading `gamepad.buttons[i]` succeeds exactly when the index is in range, and gives that button |
| Sampler.AxisAt | src/VRPawn.js:202 | reading `gamepad.axes[i]` succeeds exactly when the index is in range, and gives that axis |
| Sampler.ReadCategory | src/VRPawn.js:181-206 | one test's body succeeds exactly when its hardware exists and writes only its own fields |
| Sampler.ReadCategoryReadings | src/VRPawn.js:181-206 | one test's body stores `touched` in touch fields, `pressed` in the others, the rounded value for trigger and grip, the X axis as is and the Y axis negated |
| Sampler.PressureRead | src/VRPawn.js:181-188 | the trigger and squeeze bodies succeed exactly when the button exists, store its `pressed` and its value rounded to two decimals, and touch no other field |
| Sampler.PressTouchRead | src/VRPawn.js:189-200 | the face-button and stick-press bodies succeed exactly when the button exists, store its `pressed` and `touched`, and touch no other field |
| Sampler.StickRead | src/VRPawn.js:201-206 | the stick-axis bodies succeed exactly when the axis exists, store it scaled by the sign (negated for Y), and touch no other field |
| Sampler.ApplyCategories | src/VRPawn.js:181-206 | applying the tests in order changes only fields of matching tests, does nothing when none matches, and fails exactly when a matching test lacks its hardware |
| Sampler.ApplyEntry | src/VRPawn.js:181-206 | one map entry changes only the fields its name's tests fill; an unrecognised name reads no hardware; it fails exactly when a matching test lacks its hardware |
| Sampler.CategorySetsAxis | src/VRPawn.js:181-206 | after the tests, an axis field holds the reading of the test that fills it, whatever the other tests do |
| Sampler.CategorySetsButton | src/VRPawn.js:181-206 | after the tests, a button field holds the reading of the test that fills it |
| Sampler.EntryStickAxes | src/VRPawn.js:201-206 | an "xAxis" entry stores the hardware axis unchanged; a "yAxis" entry stores it negated |
| Sampler.EntryTrigger | src/VRPawn.js:181-184 | a "trigger" entry stores the button's `pressed` and its value rounded to two decimals |
| Sampler.EntrySetsAxis | src/VRPawn.js:181-206 | a matching test fills its axis field with its reading |
| Sampler.EntrySetsButton | src/VRPawn.js:181-206 | a matching test fills its button fields with its reading |
| Sampler.EntryKeepsAxis | src/VRPawn.js:181-206 | an axis field whose test does not match keeps its value |
| Sampler.EntryKeepsButton | src/VRPawn.js:181-206 | a button field whose test does not match keeps its value |
| Sampler.SampleSide | src/VRPawn.js:179-208 | a hand's loop over its map never changes the other hand's fields |
| Sampler.SampleSideLastWriter | src/VRPawn.js:179-208 | after a hand's loop, an axis field holds the reading of the last entry whose name matched its test |
| Sampler.SampleSideLastButtonWriter | src/VRPawn.js:179-208 | after a hand's loop, a button field holds the reading of the last entry whose name matched its test |
| Sampler.SampleSideUnwritten | src/VRPawn.js:179-208 | an axis field no entry's test fills keeps its value through the loop |
| Sampler.PushCache | src/VRPawn.js:247-248 | the new record goes in front, the former head moves to second place, and at most one entry falls off the end |
| Sampler.CacheHoldsLatestTwo | src/VRPawn.js:243-250 | from an empty cache, the cache always holds the latest two samples, newest first, never more than two |
| Sampler.CheckControllerInputs | src/VRPawn.js:167-252 | with the stick-press test as written: no right map throws; the cache head equals the new record and the previous head moves to index 1; the cache stays at most two deep; with no left map every left-hand field keeps its value |
| Sampler.RightFieldsFromRightLoop | src/VRPawn.js:179-240 | the right hand's fields after a sample are what the right loop, with the stick-press test as written, read from the source at RIndex; the left loop never disturbs them |
| SamplerProperties.StickXNameSlipsThrough | src/VRPawn.js:197 | the name "thumbstick.xAxis" passes the stick-press test as written and fails the corrected one |
| SamplerProperties.StickGuardAsWritten | src/VRPawn.js:197-202 | as written, an axis entry passing the stick-press test stores its axis and also overwrites the stick-press fields with the button at the same index |
| SamplerProperties.AxisEntryKeepsStickButton | src/VRPawn.js:197-206 | with the corrected test, an "xAxis"/"yAxis" entry never writes the stick-press fields, and the X axis is still stored |
| SamplerProperties.StickPressUnmatched | src/VRPawn.js:197-200 | with the corrected test, an "xAxis"/"yAxis" entry leaves the stick press and its touch flag as they were |
| SamplerProperties.RevisionsAgree | src/VRPawn.js:197 | the two tests give the same result on every name that does not combine "thumbstick" with "xAxis" or "yAxis" |
| SamplerProperties.LeftHandedSourceDrivesRightTrigger | src/VRPawn.js:179-184 | once source 0 reports "left", for any right map the right trigger fields hold `pressed` and the rounded value of source 1's button at the index of the last entry whose name contains "trigger"; later entries and the left loop leave them alone |
| SamplerProperties.EntryKeepsRange | src/VRPawn.js:181-206 | with in-range hardware, an entry keeps every axis of the record in its range |
| SamplerProperties.SampleKeepsRange | src/VRPawn.js:167-240 | sampling in-range gamepads keeps trigger and grip values in [0,1] and stick axes in [-1,1] |
| Pawn.NewPawn | src/VRPawn.js:11-57 | a new pawn has its root at the origin (the local position of the empty child just added to the camera), two controllers with invisible spheres and full-length lines, no handles, roles (0,1), an empty map and cache |
| Pawn.OnInputSourcesChange | src/VRPawn.js:64-73 | the listener re-resolves the roles and points the two handles at the controllers the roles name, changing nothing else |
| Pawn.ControllerOf | src/VRPawn.js:71-72 | dereferencing a hand's controller succeeds exactly when its handle is defined |
| Pawn.Sample | src/VRPawn.js:167-252 | a sample changes only the sampler state; the cache head is the new record; the old head moves to second place; no right map throws |
| Pawn.PressButton | src/VRPawn.js:254-324 | no press changes the pawn |
| Pawn.ReleaseButton | src/VRPawn.js:326-396 | releasing anything but a grip leaves the pawn unchanged |
| Pawn.SetOpacity | src/VRPawn.js:366-368 | a sphere-opacity write succeeds exactly when the handle is defined and changes only that controller's opacity |
| Pawn.GripOpacity | src/VRPawn.js:407-410 | the grip opacity lies in [0, 0.25] for a pressure in [0,1], is 0.25 exactly at pressure 0 and 0 exactly at pressure 1 |
| Pawn.GripAxisChange | src/VRPawn.js:405-412 | without a previous sample the grip case throws; the sphere takes the grip opacity only when the pressure rose strictly; otherwise nothing changes |
| Pawn.SnapTurn | src/VRPawn.js:414-420 | one clockwise eighth turn exactly when the stick is past 0.9 and the previous sample below 0.9, one counter-clockwise exactly when past -0.9 from above -0.9, never more than one; the previous sample is needed only past a threshold |
| Pawn.TeleportAxisChange | src/VRPawn.js:440-460 | the teleport case succeeds exactly when the left handle is defined |
| Pawn.Previous | src/VRPawn.js:407 | the compared sample is `InputCache[1]` when the cache holds two |
| Pawn.AxisChange | src/VRPawn.js:398-464 | every axis name other than the two grips, the right X and the left Y leaves the pawn unchanged |
| Locomotion.NewPawnValid | src/VRPawn.js:11-57 | a new pawn satisfies the invariant |
| Locomotion.ResolvedHandsDefined | src/VRPawn.js:71-72 | once resolved, each handle names the controller its role names, so no handler meets an undefined controller |
| Locomotion.SourcesChangeResolves | src/VRPawn.js:64-72 | after any `inputsourceschange` both handles are defined and the invariant holds |
| Locomotion.SetOpacityKeepsValid | src/VRPawn.js:366-384 | writing an in-range opacity keeps the invariant |
| Locomotion.AxisChangeKeepsValid | src/VRPawn.js:398-464 | every axis handler keeps opacities in [0, 0.25] and line scales uniform in [0,1] |
| Locomotion.StepKeepsValid | src/VRPawn.js:64-464 | every event the hardware can produce keeps the invariant |
| Locomotion.RunKeepsValid | src/VRPawn.js:64-464 | the invariant holds after any run of in-range events |
| Locomotion.SessionValid | src/VRPawn.js:11-464 | from a fresh pawn, after any run of in-range events, the invariant holds and the two roles stay distinct |
| Locomotion.SnapAxisChange | src/VRPawn.js:414-423 | the right X case fails only past a threshold with no previous sample, and otherwise only adds the snap step to the rotation |
| Locomotion.TurnStepsAppend | src/VRPawn.js:414-423 | the turns over two joined series of samples are each part's turns plus the turn at the join |
| Locomotion.NoTurnInSeries | src/VRPawn.js:414-423 | a series in which no sample turns turns nothing in total |
| Locomotion.RestingNoTurn | src/VRPawn.js:414-423 | samples inside the dead zone never turn |
| Locomotion.HeldNoTurn | src/VRPawn.js:414-423 | samples held past one threshold never turn again |
| Locomotion.PushTurns | src/VRPawn.js:414-423 | rest, push and rest again turn only on the push's first sample |
| Locomotion.SnapOncePerPush | src/VRPawn.js:414-418 | a push to the right held for any number of samples turns exactly once clockwise |
| Locomotion.SnapOncePerLeftPush | src/VRPawn.js:418-420 | a push to the left held for any number of samples turns exactly once counter-clockwise |
| Locomotion.SnapScenario | src/VRPawn.js:414-423 | the samples 0.5, 0.95, 0.95, 0.95, 0.2 make one clockwise eighth turn |
| Locomotion.SnapFramesTurn | src/VRPawn.js:414-423 | calling the handler frame by frame never fails and turns the root by exactly the series' snap steps |
| Locomotion.GripAxisChangeIsStep | src/VRPawn.js:405-412 | the grip handler with a previous sample is one step of the opacity trace |
| Locomotion.OpeningKeepsOpacity | src/VRPawn.js:405-412 | while the pressure never rises, the opacity never changes |
| Locomotion.GripTraceInRange | src/VRPawn.js:405-412 | with pressures in [0,1], every opacity shown lies in [0, 0.25] |
| Locomotion.GripScenario | src/VRPawn.js:405-412 | pressures 0.0, 0.4, 0.8 from rest show opacities 0, 0.15, 0.05 |
| Locomotion.ReleaseGripHidesSphere | src/VRPawn.js:366-384 | releasing a grip sets that hand's sphere opacity to 0 whatever it was, leaves the other controller alone and changes nothing else |
| Locomotion.TeleportOnRest | src/VRPawn.js:440-460 | the line takes the forward deflection (or 0) as uniform scale, the root moves to the target exactly when the stick is at 0 and untouched, and nothing else changes |
| Locomotion.AimThenRestTeleports | src/VRPawn.js:440-460 | placing the target and then resting the stick untouched puts the root on the target |
| Locomotion.RestAgainStays | src/VRPawn.js:440-460 | a second notification at rest after the teleport leaves the root on the target |
| Locomotion.AimingDoesNotMove | src/VRPawn.js:440-460 | while the stick is pushed forward the root does not move |

## Left out

- Scene construction is not modelled: `SetupVRControllers`, `BuildController`, meshes, materials, geometry and `attach`. A controller is reduced to its sphere opacity and line scale.
- `TraceFromController` and the ray cast toward the navigable scene are not modelled: they are matrix arithmetic on floats through three.js. The teleport target's position is an input, set by the `Aimed` event.
- The XR session's event wiring and `XRControllerModelFactory` are not modelled: they are foreign and asynchronous. The input sources and the controller map are inputs; the `MapLoaded` event stands for the factory filling the map.
- The code that compares the two cache entries and calls `PressButton`, `ReleaseButton` or `AxisChange` is not part of this model: neither src/VRPawn.js nor src/webXRapp.js calls them. Handler calls are events.
- src/webXRapp.js, src/TextPanels.js and src/InteractiveMesh.js are not part of this model: they are bootstrap, UI layout and asset loading.
- Floating point is not modelled: numbers are exact reals. `Sampler.ToFixed2` rounds the exact value. A double such as 1.005, stored just below 1.005, rounds the other way in the original.
- The root's rotation is not modelled as a matrix: it is the count of eighth turns `yawSteps`, with no reduction modulo a full turn.
- An axis index beyond `gamepad.axes` is not modelled as JavaScript has it: there it stores `undefined` (or `NaN` once negated). The model reports it as the error `NoAxis`.
- `MovementSpeed` is not modelled: it is set and never read.
- The console logging that is commented out in `PressButton`/`ReleaseButton` is not modelled.
- Map values are not checked for being integers: they are taken as integers, with no JavaScript property-name coercion.
- A sample that throws part-way is not modelled as the original has it: there the fields written before the throw stay in `GamepadValues`, which is updated in place. The model's sample returns `Err` and the pawn keeps its previous record.

## Findings

| source | as written | input that shows it | evidently intended | confidence | as-written member | corrected member |
|---|---|---|---|---|---|---|
| src/VRPawn.js:197 | the stick-press copy is guarded by `includes("thumbstick") && includes("axis") === false`; the test is case-sensitive, and the axis names the next two tests look for spell "xAxis"/"yAxis" | a right-map entry named "thumbstick.xAxis" at an index where a button also exists | only the stick's press entry writes `RStick`/`RStickTouch`; an axis entry writes only its axis (the same holds for the left loop at line 229) | not executed | SamplerProperties.StickGuardAsWritten | SamplerProperties.AxisEntryKeepsStickButton |
