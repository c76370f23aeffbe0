/** Properties of the pawn over whole runs of events: the state invariant,
    one snap turn per push of the stick, the grip feedback trace, the
    teleport commit, and the grip release. */
module Locomotion {
  import opened Common
  import opened Gamepad
  import opened XR
  import opened Handedness
  import opened Sampler
  import opened SamplerProperties
  import opened Pawn

  /** A controller whose sphere and line are in their ranges: the opacity in
      [0, 0.25], the line scaled uniformly by a factor in [0, 1]. */
  predicate ControllerInRange(c: Controller)
  {
    && 0.0 <= c.sphereOpacity <= 0.25
    && c.lineScale == Uniform(c.lineScale.x) && 0.0 <= c.lineScale.x <= 1.0
  }

  /** The pawn's invariant: the roles name the two controllers once each, the
      handles (once resolved) point at the controllers the roles name, both
      handles are resolved together, the visuals are in range, the cache is
      at most two deep and the record is in range. */
  predicate Valid(p: Pawn)
  {
    && Distinct(p.roles)
    && |p.controllers| == 2
    && (p.right.Some? ==> p.right.value == p.roles.rIndex)
    && (p.left.Some? ==> p.left.value == p.roles.lIndex)
    && p.right.Some? == p.left.Some?
    && (forall c <- p.controllers :: ControllerInRange(c))
    && |p.sampler.cache| <= 2
    && RecordInRange(p.sampler.values)
  }

  /** Events the hardware can produce: a sample reads in-range gamepads. */
  predicate EventInRange(e: Event)
  {
    e.Sampled? ==> SourcesInRange(e.sources)
  }

  lemma NewPawnValid()
    ensures Valid(NewPawn())
  {
    var p := NewPawn();
    assert forall k :: AxisOf(p.sampler.values, k) == 0.0;
  }

  /** With the handles resolved, a hand's controller is always defined, so
      no handler can fail on an undefined controller. */
  lemma ResolvedHandsDefined(p: Pawn, side: Side)
    requires Valid(p) && p.right.Some?
    ensures ControllerOf(p, side).Ok?
    ensures ControllerOf(p, side).value == (if side == RightSide then p.roles.rIndex else p.roles.lIndex)
  {
  }

  /** After any `inputsourceschange` the handles are resolved. */
  lemma SourcesChangeResolves(p: Pawn, sources: seq<XRInputSource>)
    requires Valid(p)
    ensures Valid(OnInputSourcesChange(p, sources))
    ensures OnInputSourcesChange(p, sources).right.Some?
  {
  }

  /** Setting one hand's opacity to a value in range keeps the controllers in range. */
  lemma SetOpacityKeepsValid(p: Pawn, side: Side, o: real)
    requires Valid(p) && 0.0 <= o <= 0.25
    requires SetOpacity(p, side, o).Ok?
    ensures Valid(SetOpacity(p, side, o).value)
  {
    var q := SetOpacity(p, side, o).value;
    var i := ControllerOf(p, side).value;
    forall c <- q.controllers ensures ControllerInRange(c) {
      var j :| 0 <= j < |q.controllers| && q.controllers[j] == c;
      if j != i {
        assert p.controllers[j] in p.controllers;
      } else {
        assert p.controllers[i] in p.controllers;
      }
    }
  }

  lemma AxisChangeKeepsValid(p: Pawn, input: string)
    requires Valid(p)
    requires AxisChange(p, input, p.sampler.cache).Ok?
    ensures Valid(AxisChange(p, input, p.sampler.cache).value)
  {
    var v := p.sampler.values;
    match ParseKey(input)
    case Some(Axis(RGripAxis)) => {
      assert AxisLow(RGripAxis) <= AxisOf(v, RGripAxis) <= 1.0;
      if AxisOf(v, RGripAxis) > AxisOf(Previous(p.sampler.cache).value, RGripAxis) {
        SetOpacityKeepsValid(p, RightSide, GripOpacity(AxisOf(v, RGripAxis)));
      }
    }
    case Some(Axis(LGripAxis)) => {
      assert AxisLow(LGripAxis) <= AxisOf(v, LGripAxis) <= 1.0;
      if AxisOf(v, LGripAxis) > AxisOf(Previous(p.sampler.cache).value, LGripAxis) {
        SetOpacityKeepsValid(p, LeftSide, GripOpacity(AxisOf(v, LGripAxis)));
      }
    }
    case Some(Axis(LStickYAxis)) => {
      assert AxisLow(LStickYAxis) <= AxisOf(v, LStickYAxis) <= 1.0;
      var q := AxisChange(p, input, p.sampler.cache).value;
      var i := ControllerOf(p, LeftSide).value;
      forall c <- q.controllers ensures ControllerInRange(c) {
        var j :| 0 <= j < |q.controllers| && q.controllers[j] == c;
        if j != i {
          assert p.controllers[j] in p.controllers;
        } else {
          assert p.controllers[i] in p.controllers;
        }
      }
    }
    case _ => {}
  }

  /** Every event the hardware can produce keeps the invariant. */
  lemma StepKeepsValid(p: Pawn, e: Event)
    requires Valid(p) && EventInRange(e)
    requires Step(p, e).Ok?
    ensures Valid(Step(p, e).value)
  {
    match e
    case SourcesChanged(sources) => SourcesChangeResolves(p, sources);
    case MapLoaded(m) => {}
    case Sampled(sources) => {
      SampleKeepsRange(p.sampler, p.controllerMap, p.roles, sources);
    }
    case Pressed(input) => {}
    case Released(input) => {
      match ParseKey(input)
      case Some(Button(RGrip)) => SetOpacityKeepsValid(p, RightSide, ReleasedOpacity);
      case Some(Button(LGrip)) => SetOpacityKeepsValid(p, LeftSide, ReleasedOpacity);
      case _ => {}
    }
    case AxisChanged(input) => AxisChangeKeepsValid(p, input);
    case Aimed(target) => {}
  }

  /** Over any run of in-range events the invariant holds after every event,
      from a fresh pawn onward. */
  lemma {:induction false} RunKeepsValid(p: Pawn, es: seq<Event>)
    requires Valid(p) && forall e <- es :: EventInRange(e)
    requires Run(p, es).Ok?
    ensures Valid(Run(p, es).value)
    decreases |es|
  {
    if |es| > 0 {
      assert es[0] in es;
      StepKeepsValid(p, es[0]);
      assert forall e <- es[1..] :: e in es;
      RunKeepsValid(Step(p, es[0]).value, es[1..]);
    }
  }

  lemma SessionValid(es: seq<Event>)
    requires forall e <- es :: EventInRange(e)
    requires Run(NewPawn(), es).Ok?
    ensures Valid(Run(NewPawn(), es).value)
    ensures Distinct(Run(NewPawn(), es).value.roles)
  {
    NewPawnValid();
    RunKeepsValid(NewPawn(), es);
  }

  // ----- Snap turn -----

  /** The turn one sample makes once a previous sample exists. */
  function SnapStep(cur: real, prev: real): (r: int)
    ensures -1 <= r <= 1
  {
    SnapTurn(cur, Some(prev)).value
  }

  /** The total turn, in eighth turns, over a series of stick samples. */
  function TurnSteps(xs: seq<real>): int
    decreases |xs|
  {
    if |xs| < 2 then 0
    else TurnSteps(xs[..|xs| - 1]) + SnapStep(xs[|xs| - 1], xs[|xs| - 2])
  }

  /** Turning over two joined series: each part's turns, plus the turn the
      first sample of the second part makes against the last of the first. */
  lemma {:induction false} TurnStepsAppend(xs: seq<real>, ys: seq<real>)
    requires 0 < |xs| && 0 < |ys|
    ensures TurnSteps(xs + ys) == TurnSteps(xs) + SnapStep(ys[0], xs[|xs| - 1]) + TurnSteps(ys)
    decreases |ys|
  {
    if |ys| == 1 {
      assert (xs + ys)[..|xs + ys| - 1] == xs;
    } else {
      var n := |ys| - 1;
      assert (xs + ys)[..|xs + ys| - 1] == xs + ys[..n];
      TurnStepsAppend(xs, ys[..n]);
    }
  }

  /** A series in which no sample makes a turn turns nothing. */
  lemma {:induction false} NoTurnInSeries(xs: seq<real>)
    requires forall i :: 1 <= i < |xs| ==> SnapStep(xs[i], xs[i - 1]) == 0
    ensures TurnSteps(xs) == 0
    decreases |xs|
  {
    if |xs| >= 2 {
      NoTurnInSeries(xs[..|xs| - 1]);
    }
  }

  /** Inside the dead zone. */
  predicate Resting(x: real)
  {
    -SnapThreshold <= x <= SnapThreshold
  }

  /** Samples that all rest in the dead zone make no turn. */
  lemma RestingNoTurn(xs: seq<real>)
    requires forall x <- xs :: Resting(x)
    ensures TurnSteps(xs) == 0
  {
    forall i | 1 <= i < |xs| ensures SnapStep(xs[i], xs[i - 1]) == 0 {
      assert xs[i] in xs;
    }
    NoTurnInSeries(xs);
  }

  /** Samples that all stay past one threshold make no turn: the stick is
      held, not pushed again. */
  lemma HeldNoTurn(xs: seq<real>)
    requires (forall x <- xs :: x > SnapThreshold) || (forall x <- xs :: x < -SnapThreshold)
    ensures TurnSteps(xs) == 0
  {
    forall i | 1 <= i < |xs| ensures SnapStep(xs[i], xs[i - 1]) == 0 {
      assert xs[i] in xs && xs[i - 1] in xs;
    }
    NoTurnInSeries(xs);
  }

  /** Rest, a push held past one threshold, then rest again: the only turn is
      the one the push makes on its first sample. */
  lemma PushTurns(rest: seq<real>, held: seq<real>, back: seq<real>)
    requires 0 < |rest| && 0 < |held| && 0 < |back|
    requires forall x <- rest :: Resting(x)
    requires (forall x <- held :: x > SnapThreshold) || (forall x <- held :: x < -SnapThreshold)
    requires forall x <- back :: Resting(x)
    ensures TurnSteps(rest + held + back) == SnapStep(held[0], rest[|rest| - 1])
  {
    RestingNoTurn(rest);
    HeldNoTurn(held);
    RestingNoTurn(back);
    assert back[0] in back;
    TurnStepsAppend(rest, held);
    TurnStepsAppend(rest + held, back);
  }

  /** Holding the stick to the right turns once, however long it is held:
      samples at rest below the threshold, then any number of samples past
      +0.9, then back to rest, make exactly one clockwise eighth turn. */
  lemma SnapOncePerPush(rest: seq<real>, held: seq<real>, back: seq<real>)
    requires 0 < |rest| && 0 < |held| && 0 < |back|
    requires forall x <- rest :: Resting(x) && x < SnapThreshold
    requires forall x <- held :: x > SnapThreshold
    requires forall x <- back :: Resting(x)
    ensures TurnSteps(rest + held + back) == -1
  {
    PushTurns(rest, held, back);
    assert rest[|rest| - 1] in rest && held[0] in held;
  }

  /** The mirror image: holding it to the left turns once counter-clockwise. */
  lemma SnapOncePerLeftPush(rest: seq<real>, held: seq<real>, back: seq<real>)
    requires 0 < |rest| && 0 < |held| && 0 < |back|
    requires forall x <- rest :: Resting(x) && x > -SnapThreshold
    requires forall x <- held :: x < -SnapThreshold
    requires forall x <- back :: Resting(x)
    ensures TurnSteps(rest + held + back) == 1
  {
    PushTurns(rest, held, back);
    assert rest[|rest| - 1] in rest && held[0] in held;
  }

  /** The stick pushed to 0.95 for three samples and released to 0.2 turns once. */
  lemma SnapScenario()
    ensures TurnSteps([0.5, 0.95, 0.95, 0.95, 0.2]) == -1
  {
    SnapOncePerPush([0.5], [0.95, 0.95, 0.95], [0.2]);
    assert [0.5] + [0.95, 0.95, 0.95] + [0.2] == [0.5, 0.95, 0.95, 0.95, 0.2];
  }

  /** The record of one frame in which the right stick's X axis reads `x`. */
  function StickFrame(x: real): GamepadValues
  {
    WithAxis(Defaults(), RStickXAxis, x)
  }

  /** `AxisChange("RStickXAxis", cache)` once per frame over a series of
      stick samples, each frame with the previous one as `InputCache[1]`. */
  function SnapFrames(p: Pawn, xs: seq<real>): Result<Pawn, PawnError>
    decreases |xs|
  {
    if |xs| < 2 then Ok(p)
    else
      var q :- SnapFrames(p, xs[..|xs| - 1]);
      var cache := [StickFrame(xs[|xs| - 1]), StickFrame(xs[|xs| - 2])];
      AxisChange(q.(sampler := SamplerState(cache[0], cache)), "RStickXAxis", cache)
  }

  /** The handler run frame by frame turns the root by exactly `TurnSteps`
      and never fails once there is a previous sample. */
  lemma {:induction false} SnapFramesTurn(p: Pawn, xs: seq<real>)
    ensures SnapFrames(p, xs).Ok?
    ensures SnapFrames(p, xs).value.yawSteps == p.yawSteps + TurnSteps(xs)
    ensures SnapFrames(p, xs).value.root == p.root
    decreases |xs|
  {
    if |xs| >= 2 {
      SnapFramesTurn(p, xs[..|xs| - 1]);
      NameRoundTrip(Axis(RStickXAxis), "RStickXAxis");
    }
  }

  /** The right stick's X case of `AxisChange`: it fails only when the stick
      is past a threshold with no previous sample, and otherwise turns the
      root by the snap step and changes nothing else. */
  lemma SnapAxisChange(p: Pawn, cache: seq<GamepadValues>)
    ensures var x := AxisOf(p.sampler.values, RStickXAxis);
      var r := AxisChange(p, "RStickXAxis", cache);
      && (r.Ok? <==> Resting(x) || 1 < |cache|)
      && (r.Ok? && 1 < |cache| ==> r.value == p.(yawSteps := p.yawSteps + SnapStep(x, AxisOf(cache[1], RStickXAxis))))
      && (r.Ok? && Resting(x) ==> r.value == p)
  {
    NameRoundTrip(Axis(RStickXAxis), "RStickXAxis");
  }

  // ----- Grip feedback -----

  /** One grip sample's effect on its sphere's opacity. */
  function GripStep(opacity: real, cur: real, prev: real): real
  {
    if cur > prev then GripOpacity(cur) else opacity
  }

  /** The opacities shown after each of a series of grip samples, starting
      from opacity `o` and a previous sample `prev`. */
  function GripTrace(o: real, prev: real, xs: seq<real>): (os: seq<real>)
    ensures |os| == |xs|
    decreases |xs|
  {
    if |xs| == 0 then []
    else
      var o' := GripStep(o, xs[0], prev);
      [o'] + GripTrace(o', xs[0], xs[1..])
  }

  /** The grip handler is one step of the trace: with a previous sample and a
      resolved handle, the hand's opacity becomes `GripStep` of the old one. */
  lemma GripAxisChangeIsStep(p: Pawn, side: Side, k: AxisKey, prev: GamepadValues)
    requires Valid(p) && p.right.Some?
    ensures GripAxisChange(p, side, k, Some(prev)).Ok?
    ensures var i := ControllerOf(p, side).value;
      GripAxisChange(p, side, k, Some(prev)).value.controllers[i].sphereOpacity
        == GripStep(p.controllers[i].sphereOpacity, AxisOf(p.sampler.values, k), AxisOf(prev, k))
  {
  }

  /** Opening the hand never changes the opacity: along samples that never
      rise, every opacity shown is the starting one. */
  lemma {:induction false} OpeningKeepsOpacity(o: real, prev: real, xs: seq<real>)
    requires 0 < |xs| ==> xs[0] <= prev
    requires forall i :: 1 <= i < |xs| ==> xs[i] <= xs[i - 1]
    ensures forall i :: 0 <= i < |xs| ==> GripTrace(o, prev, xs)[i] == o
    decreases |xs|
  {
    if |xs| > 0 {
      assert GripStep(o, xs[0], prev) == o;
      forall i | 1 <= i < |xs[1..]| ensures xs[1..][i] <= xs[1..][i - 1] {
        assert xs[1..][i] == xs[i + 1];
      }
      if 1 < |xs| {
        assert xs[1] <= xs[0];
      }
      OpeningKeepsOpacity(o, xs[0], xs[1..]);
      forall i | 1 <= i < |xs| ensures GripTrace(o, prev, xs)[i] == o {
        assert GripTrace(o, prev, xs)[i] == GripTrace(o, xs[0], xs[1..])[i - 1];
      }
    }
  }

  /** With pressures in [0,1] and a starting opacity in range, every opacity
      shown stays in [0, 0.25]. */
  lemma {:induction false} GripTraceInRange(o: real, prev: real, xs: seq<real>)
    requires 0.0 <= o <= 0.25
    requires forall x <- xs :: 0.0 <= x <= 1.0
    ensures forall o' <- GripTrace(o, prev, xs) :: 0.0 <= o' <= 0.25
    decreases |xs|
  {
    if |xs| > 0 {
      assert xs[0] in xs;
      assert forall x <- xs[1..] :: x in xs;
      GripTraceInRange(GripStep(o, xs[0], prev), xs[0], xs[1..]);
    }
  }

  /** Closing the grip from rest over 0.0, 0.4, 0.8 shows 0, 0.15, 0.05: the
      first sample does not rise above the rest record, so the sphere stays
      as built. */
  lemma GripScenario()
    ensures GripTrace(0.0, 0.0, [0.0, 0.4, 0.8]) == [0.0, 0.15, 0.05]
  {
    var xs := [0.0, 0.4, 0.8];
    assert xs[1..] == [0.4, 0.8];
    assert xs[1..][1..] == [0.8];
    assert xs[1..][1..][1..] == [];
  }

  /** Releasing a grip hides that hand's sphere whatever the grip showed
      before, and leaves the other controller and the rest of the pawn alone. */
  lemma ReleaseGripHidesSphere(p: Pawn, side: Side)
    requires Valid(p) && p.right.Some?
    ensures var input := if side == RightSide then "RGrip" else "LGrip";
      var i := if side == RightSide then p.roles.rIndex else p.roles.lIndex;
      var other := if side == RightSide then p.roles.lIndex else p.roles.rIndex;
      && ReleaseButton(p, input).Ok?
      && ReleaseButton(p, input).value.controllers[i].sphereOpacity == 0.0
      && ReleaseButton(p, input).value.controllers[other] == p.controllers[other]
      && ReleaseButton(p, input).value.(controllers := p.controllers) == p
  {
    NameRoundTrip(Button(RGrip), "RGrip");
    NameRoundTrip(Button(LGrip), "LGrip");
  }

  // ----- Teleport -----

  /** The left stick's Y case, with the handle resolved: the line takes the
      forward deflection as its uniform scale (zero when pulled back or at
      rest), and the root moves to the target exactly when the stick is at
      rest and untouched. */
  lemma TeleportOnRest(p: Pawn, cache: seq<GamepadValues>)
    requires Valid(p) && p.right.Some?
    ensures var y := AxisOf(p.sampler.values, LStickYAxis);
      var r := AxisChange(p, "LStickYAxis", cache);
      && r.Ok?
      && r.value.controllers[p.roles.lIndex].lineScale == Uniform(if y > 0.0 then y else 0.0)
      && (r.value.root == p.moveTarget <==>
          (y == 0.0 && !ButtonOf(p.sampler.values, LStickTouch)) || p.root == p.moveTarget)
      && (r.value.root == p.root || r.value.root == p.moveTarget)
      && r.value.controllers[p.roles.rIndex] == p.controllers[p.roles.rIndex]
      && r.value.controllers[p.roles.lIndex].sphereOpacity == p.controllers[p.roles.lIndex].sphereOpacity
      && r.value.(controllers := p.controllers, root := p.root) == p
  {
    NameRoundTrip(Axis(LStickYAxis), "LStickYAxis");
  }

  /** A run of events is its first step followed by the rest. */
  lemma RunStep(p: Pawn, e: Event, es: seq<Event>)
    requires Step(p, e).Ok?
    ensures Run(p, [e] + es) == Run(Step(p, e).value, es)
  {
    assert ([e] + es)[1..] == es;
  }

  /** A run of events followed by one more is that run, then a step. */
  lemma {:induction false} RunSnoc(p: Pawn, es: seq<Event>, e: Event)
    requires Run(p, es).Ok?
    ensures Run(p, es + [e]) == Step(Run(p, es).value, e)
    decreases |es|
  {
    if |es| > 0 {
      assert (es + [e])[1..] == es[1..] + [e];
      RunSnoc(Step(p, es[0]).value, es[1..], e);
    }
  }

  /** Aiming and then letting the stick rest untouched puts the root on the
      target. */
  lemma AimThenRestTeleports(p: Pawn, target: Vec3)
    requires Valid(p) && p.right.Some?
    requires AxisOf(p.sampler.values, LStickYAxis) == 0.0 && !ButtonOf(p.sampler.values, LStickTouch)
    ensures Run(p, [Aimed(target), AxisChanged("LStickYAxis")]).Ok?
    ensures Run(p, [Aimed(target), AxisChanged("LStickYAxis")]).value.root == target
    ensures Run(p, [Aimed(target), AxisChanged("LStickYAxis")]).value.moveTarget == target
  {
    var q := p.(moveTarget := target);
    TeleportOnRest(q, q.sampler.cache);
    RunStep(q, AxisChanged("LStickYAxis"), []);
    RunStep(p, Aimed(target), [AxisChanged("LStickYAxis")]);
    assert [Aimed(target)] + [AxisChanged("LStickYAxis")] == [Aimed(target), AxisChanged("LStickYAxis")];
  }

  /** Once the root is on the target, a further notification at rest leaves
      it there: the commit happens once. */
  lemma RestAgainStays(p: Pawn, target: Vec3)
    requires Valid(p) && p.right.Some?
    requires AxisOf(p.sampler.values, LStickYAxis) == 0.0 && !ButtonOf(p.sampler.values, LStickTouch)
    ensures Run(p, [Aimed(target), AxisChanged("LStickYAxis"), AxisChanged("LStickYAxis")]).Ok?
    ensures Run(p, [Aimed(target), AxisChanged("LStickYAxis"), AxisChanged("LStickYAxis")]).value.root == target
  {
    var es := [Aimed(target), AxisChanged("LStickYAxis")];
    AimThenRestTeleports(p, target);
    var q := Run(p, es).value;
    RunKeepsValid(p, es);
    assert q.right.Some? by {
      RunStep(p, Aimed(target), [AxisChanged("LStickYAxis")]);
      assert [Aimed(target)] + [AxisChanged("LStickYAxis")] == es;
      var q0 := p.(moveTarget := target);
      RunStep(q0, AxisChanged("LStickYAxis"), []);
      TeleportOnRest(q0, q0.sampler.cache);
    }
    TeleportOnRest(q, q.sampler.cache);
    RunSnoc(p, es, AxisChanged("LStickYAxis"));
    assert es + [AxisChanged("LStickYAxis")] == [Aimed(target), AxisChanged("LStickYAxis"), AxisChanged("LStickYAxis")];
  }

  /** While the stick is pushed forward the root stays where it is. */
  lemma AimingDoesNotMove(p: Pawn)
    requires Valid(p) && p.right.Some?
    requires AxisOf(p.sampler.values, LStickYAxis) > 0.0
    ensures AxisChange(p, "LStickYAxis", p.sampler.cache).Ok?
    ensures AxisChange(p, "LStickYAxis", p.sampler.cache).value.root == p.root
  {
    TeleportOnRest(p, p.sampler.cache);
  }
}
