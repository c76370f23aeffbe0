/** The pawn: the camera rig root, the two controllers with their aiming
    line and selection sphere, and the handlers that turn input events into
    snap turns, teleports and grip feedback. Scene objects are reduced to the
    numbers the handlers read and write. */
module Pawn {
  import opened Common
  import opened Gamepad
  import opened XR
  import opened Handedness
  import opened Sampler
  import opened SamplerProperties

  /** A position or a scale. */
  datatype Vec3 = Vec3(x: real, y: real, z: real)

  /** A scale with the same factor on every axis. */
  function Uniform(s: real): (v: Vec3)
    ensures v.x == s && v.y == s && v.z == s
  {
    Vec3(s, s, s)
  }

  /** The rig root's origin: where a fresh pawn's root starts, and where the
      teleport target sits before anything moves it. */
  function Origin(): Vec3
  {
    Vec3(0.0, 0.0, 0.0)
  }

  /** What the handlers touch of one built controller: the opacity of the
      selection sphere (child 1) and the scale of the aiming line (child 0). */
  datatype Controller = Controller(sphereOpacity: real, lineScale: Vec3)

  /** The pawn's state. `right` and `left` are `RightController` and
      `LeftController`: positions in `controllers`, undefined until the first
      `inputsourceschange`. The root's rotation is kept as a count of
      eighth turns about the vertical axis, positive counter-clockwise. */
  datatype Pawn = Pawn(
    sampler: SamplerState,
    controllerMap: ControllerMap,
    roles: Roles,
    controllers: seq<Controller>,
    right: Option<nat>,
    left: Option<nat>,
    yawSteps: int,
    root: Vec3,
    moveTarget: Vec3)

  /** The ways a handler or a sample throws. */
  datatype PawnError =
    | SampleFailed(cause: SampleError)  // `CheckControllerInputs` threw
    | UndefinedController               // `RightController`/`LeftController` is undefined
    | NoPreviousSample                  // `InputCache[1]` is undefined

  /** A freshly built controller: the sphere invisible, the line at full length. */
  function BuiltController(): (c: Controller)
    ensures c.sphereOpacity == 0.0 && c.lineScale == Uniform(1.0)
  {
    Controller(0.0, Uniform(1.0))
  }

  /** The constructor. The root copies the local position of the camera's
      first child, the empty object just added to a camera with no other
      children, so it starts at the origin. Then: two built controllers, an
      empty controller map, index 0 as the right hand, no controller handles
      yet, no rotation, the all-rest record and an empty cache, and the
      teleport target at the origin. */
  function NewPawn(): (p: Pawn)
    ensures p.root == Origin() && p.yawSteps == 0 && p.moveTarget == Origin()
    ensures p.roles == InitialRoles() && p.right.None? && p.left.None?
    ensures |p.controllers| == 2 && forall c <- p.controllers :: c == BuiltController()
    ensures p.controllerMap.right.None? && p.controllerMap.left.None?
    ensures p.sampler.cache == [] && p.sampler.values == Defaults()
  {
    Pawn(InitialSampler(), ControllerMap(None, None), InitialRoles(),
         [BuiltController(), BuiltController()], None, None, 0, Origin(), Origin())
  }

  /** `Controllers[i]`, undefined when `i` is out of range. */
  function HandleAt(p: Pawn, i: int): (h: Option<nat>)
    ensures h.Some? <==> 0 <= i < |p.controllers|
    ensures h.Some? ==> h.value == i
  {
    if 0 <= i < |p.controllers| then Some(i) else None
  }

  /** The `inputsourceschange` listener: re-resolves the roles, then points
      `RightController` and `LeftController` at the controllers the roles name. */
  function OnInputSourcesChange(p: Pawn, sources: seq<XRInputSource>): (r: Pawn)
    ensures r.roles == Resolve(p.roles, sources)
    ensures r.right == HandleAt(p, r.roles.rIndex) && r.left == HandleAt(p, r.roles.lIndex)
    ensures r.(roles := p.roles, right := p.right, left := p.left) == p
  {
    var roles := Resolve(p.roles, sources);
    p.(roles := roles, right := HandleAt(p, roles.rIndex), left := HandleAt(p, roles.lIndex))
  }

  /** The controller handle a hand's handlers write through. */
  function Hand(p: Pawn, side: Side): Option<nat>
  {
    match side
    case RightSide => p.right
    case LeftSide => p.left
  }

  /** Dereferencing a hand's controller: a TypeError while it is undefined. */
  function ControllerOf(p: Pawn, side: Side): (r: Result<nat, PawnError>)
    ensures r.Ok? <==> Hand(p, side).Some? && Hand(p, side).value < |p.controllers|
    ensures r.Ok? ==> r.value == Hand(p, side).value
    ensures r.Err? ==> r.error == UndefinedController
  {
    match Hand(p, side)
    case Some(i) => if i < |p.controllers| then Ok(i) else Err(UndefinedController)
    case None => Err(UndefinedController)
  }

  /** `CheckControllerInputs` on the pawn's own map and roles. */
  function Sample(p: Pawn, sources: seq<XRInputSource>): (r: Result<Pawn, PawnError>)
    ensures r.Ok? ==> r.value.(sampler := p.sampler) == p
    ensures r.Ok? ==> 0 < |r.value.sampler.cache| && r.value.sampler.cache[0] == r.value.sampler.values
    ensures r.Ok? && 0 < |p.sampler.cache| ==>
      2 <= |r.value.sampler.cache| && r.value.sampler.cache[1] == p.sampler.cache[0]
    ensures p.controllerMap.right.None? ==> r == Err(SampleFailed(NoRightMap))
  {
    match CheckControllerInputs(p.sampler, p.controllerMap, p.roles, sources)
    case Ok(s) => Ok(p.(sampler := s))
    case Err(e) => Err(SampleFailed(e))
  }

  /** `PressButton`: every case of its switch is empty, so no press changes
      the pawn. */
  function PressButton(p: Pawn, input: string): (r: Pawn)
    ensures r == p
  {
    match ParseKey(input)
    case _ => p
  }

  /** The sphere opacity a released grip leaves. */
  const ReleasedOpacity: real := 0.0

  /** `ReleaseButton`: releasing a grip hides that hand's selection sphere;
      every other release is a no-op. */
  function ReleaseButton(p: Pawn, input: string): (r: Result<Pawn, PawnError>)
    ensures ParseKey(input) != Some(Button(RGrip)) && ParseKey(input) != Some(Button(LGrip)) ==> r == Ok(p)
  {
    match ParseKey(input)
    case Some(Button(RGrip)) => HideSphere(p, RightSide)
    case Some(Button(LGrip)) => HideSphere(p, LeftSide)
    case _ => Ok(p)
  }

  /** Sets one hand's sphere opacity; only that controller changes. */
  function SetOpacity(p: Pawn, side: Side, opacity: real): (r: Result<Pawn, PawnError>)
    ensures r.Ok? <==> ControllerOf(p, side).Ok?
    ensures r.Ok? ==> var i := ControllerOf(p, side).value;
      && |r.value.controllers| == |p.controllers|
      && r.value.controllers[i].sphereOpacity == opacity
      && r.value.controllers[i].lineScale == p.controllers[i].lineScale
      && (forall j :: 0 <= j < |p.controllers| && j != i ==> r.value.controllers[j] == p.controllers[j])
      && r.value.(controllers := p.controllers) == p
  {
    var i :- ControllerOf(p, side);
    Ok(p.(controllers := p.controllers[i := p.controllers[i].(sphereOpacity := opacity)]))
  }

  function HideSphere(p: Pawn, side: Side): (r: Result<Pawn, PawnError>)
    ensures r.Ok? <==> ControllerOf(p, side).Ok?
  {
    SetOpacity(p, side, ReleasedOpacity)
  }

  /** The sphere opacity a grip pressure maps to: faint (0.25) with the grip
      open, invisible with it fully closed. */
  function GripOpacity(pressure: real): (o: real)
    ensures 0.0 <= pressure <= 1.0 ==> 0.0 <= o <= 0.25
    ensures o == 0.25 <==> pressure == 0.0
    ensures o == 0.0 <==> pressure == 1.0
  {
    0.25 - pressure * 0.25
  }

  /** The grip cases of `AxisChange`: the sphere follows the pressure only when
      it rose strictly since the previous sample; a missing previous sample
      throws before anything is written. */
  function GripAxisChange(p: Pawn, side: Side, k: AxisKey, prev: Option<GamepadValues>): (r: Result<Pawn, PawnError>)
    ensures prev.None? ==> r == Err(NoPreviousSample)
    ensures prev.Some? && AxisOf(p.sampler.values, k) <= AxisOf(prev.value, k) ==> r == Ok(p)
    ensures prev.Some? && AxisOf(p.sampler.values, k) > AxisOf(prev.value, k) ==>
      r == SetOpacity(p, side, GripOpacity(AxisOf(p.sampler.values, k)))
  {
    var last :- OrFail(prev, NoPreviousSample);
    if AxisOf(p.sampler.values, k) > AxisOf(last, k) then SetOpacity(p, side, GripOpacity(AxisOf(p.sampler.values, k)))
    else Ok(p)
  }

  /** The snap-turn threshold on the right stick's X axis. */
  const SnapThreshold: real := 0.9

  /** The snap-turn case of `AxisChange`, as a number of eighth turns:
      pushing past +0.9 from below 0.9 turns clockwise (-1), pushing past
      -0.9 from above -0.9 turns counter-clockwise (+1). The previous sample
      is read only when the stick is past a threshold, so only then can its
      absence throw. */
  function SnapTurn(cur: real, prev: Option<real>): (r: Result<int, PawnError>)
    ensures r.Err? <==> (cur > SnapThreshold || cur < -SnapThreshold) && prev.None?
    ensures r.Err? ==> r.error == NoPreviousSample
    ensures r == Ok(-1) <==> cur > SnapThreshold && prev.Some? && prev.value < SnapThreshold
    ensures r == Ok(1) <==> cur < -SnapThreshold && prev.Some? && prev.value > -SnapThreshold
    ensures r.Ok? ==> -1 <= r.value <= 1
  {
    if cur > SnapThreshold then
      var last :- OrFail(prev, NoPreviousSample);
      if last < SnapThreshold then Ok(-1) else Ok(0)
    else if cur < -SnapThreshold then
      var last :- OrFail(prev, NoPreviousSample);
      if last > -SnapThreshold then Ok(1) else Ok(0)
    else Ok(0)
  }

  /** The teleport case of `AxisChange`: the left aiming line is scaled by
      the forward deflection (zero when not pushed forward), and with the
      stick exactly at rest and untouched the root jumps to the teleport
      target. */
  function TeleportAxisChange(p: Pawn): (r: Result<Pawn, PawnError>)
    ensures r.Ok? <==> ControllerOf(p, LeftSide).Ok?
  {
    var i :- ControllerOf(p, LeftSide);
    var y := AxisOf(p.sampler.values, LStickYAxis);
    var scale := if y > 0.0 then y else 0.0;
    var aimed := p.(controllers := p.controllers[i := p.controllers[i].(lineScale := Uniform(scale))]);
    if y == 0.0 && !ButtonOf(p.sampler.values, LStickTouch) then Ok(aimed.(root := p.moveTarget))
    else Ok(aimed)
  }

  /** The sample `AxisChange` compares with: `InputCache[1]`, if any. */
  function Previous(cache: seq<GamepadValues>): (r: Option<GamepadValues>)
    ensures r.Some? <==> 1 < |cache|
    ensures r.Some? ==> r.value == cache[1]
  {
    if 1 < |cache| then Some(cache[1]) else None
  }

  /** The axis names `AxisChange` acts on. */
  predicate HandledAxis(input: string)
  {
    ParseKey(input) in {Some(Axis(RGripAxis)), Some(Axis(LGripAxis)), Some(Axis(RStickXAxis)), Some(Axis(LStickYAxis))}
  }

  /** `AxisChange`: dispatches on the axis name; the trigger axes, the right
      stick's Y axis, the left stick's X axis and every other name do nothing. */
  function AxisChange(p: Pawn, input: string, cache: seq<GamepadValues>): (r: Result<Pawn, PawnError>)
    ensures !HandledAxis(input) ==> r == Ok(p)
  {
    var prev := Previous(cache);
    match ParseKey(input)
    case Some(Axis(RGripAxis)) => GripAxisChange(p, RightSide, RGripAxis, prev)
    case Some(Axis(LGripAxis)) => GripAxisChange(p, LeftSide, LGripAxis, prev)
    case Some(Axis(RStickXAxis)) =>
      var last := if prev.Some? then Some(AxisOf(prev.value, RStickXAxis)) else None;
      var step :- SnapTurn(AxisOf(p.sampler.values, RStickXAxis), last);
      Ok(p.(yawSteps := p.yawSteps + step))
    case Some(Axis(LStickYAxis)) => TeleportAxisChange(p)
    case _ => Ok(p)
  }

  /** What happens to a pawn between frames: the session's sources change,
      the controller models report their map, a frame is sampled, a handler
      is called, or the scene moves the teleport target. */
  datatype Event =
    | SourcesChanged(sources: seq<XRInputSource>)
    | MapLoaded(m: ControllerMap)
    | Sampled(sources: seq<XRInputSource>)
    | Pressed(input: string)
    | Released(input: string)
    | AxisChanged(input: string)
    | Aimed(target: Vec3)

  function Step(p: Pawn, e: Event): Result<Pawn, PawnError>
  {
    match e
    case SourcesChanged(sources) => Ok(OnInputSourcesChange(p, sources))
    case MapLoaded(m) => Ok(p.(controllerMap := m))
    case Sampled(sources) => Sample(p, sources)
    case Pressed(input) => Ok(PressButton(p, input))
    case Released(input) => ReleaseButton(p, input)
    case AxisChanged(input) => AxisChange(p, input, p.sampler.cache)
    case Aimed(target) => Ok(p.(moveTarget := target))
  }

  /** A sequence of events, stopping at the first that throws. */
  function Run(p: Pawn, es: seq<Event>): Result<Pawn, PawnError>
    decreases |es|
  {
    if |es| == 0 then Ok(p)
    else
      var q :- Step(p, es[0]);
      Run(q, es[1..])
  }
}
