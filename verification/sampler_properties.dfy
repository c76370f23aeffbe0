/** Properties of the sampler that span several calls or both revisions of
    the stick-press test. */
module SamplerProperties {
  import opened Common
  import opened Gamepad
  import opened XR
  import opened Handedness
  import opened Sampler

  /** The name a controller map would naturally give a stick's X axis. */
  const StickXName: string := "thumbstick.xAxis"

  /** The name starts with "thumbstick" and carries "xAxis" at offset 11. */
  lemma StickXNameParts()
    ensures Includes(StickXName, "thumbstick") && Includes(StickXName, "xAxis")
  {
    assert StickXName[..10] == "thumbstick";
    IncludesIffOccurs(StickXName, "xAxis");
    assert OccursAt(StickXName, "xAxis", 11);
  }

  /** The name slips past the stick-press test as written (it has no
      lower-case "axis") and is stopped by the corrected one. */
  lemma StickXNameSlipsThrough()
    ensures Includes(StickXName, "thumbstick") && Includes(StickXName, "xAxis")
    ensures !Includes(StickXName, "axis")
    ensures IsStickButtonName(AsWritten, StickXName)
    ensures !IsStickButtonName(Corrected, StickXName)
  {
    StickXNameParts();
    assert 'a' !in StickXName;
    AbsentCharExcludes(StickXName, "axis", 'a');
  }

  /** As written, an axis entry whose name passes the stick-press test (such
      as `StickXName`) stores its axis and also copies the button at the same
      index into the stick-press fields: `pressed` into the stick, `touched`
      into its touch flag. */
  lemma StickGuardAsWritten(side: Side, v: GamepadValues, e: MapEntry, g: XRGamepad)
    requires IsStickButtonName(AsWritten, e.name) && Includes(e.name, "xAxis")
    requires 0 <= e.index < |g.buttons| && e.index < |g.axes|
    ensures ApplyEntry(AsWritten, side, v, e, Ok(g)).Ok?
    ensures var r := ApplyEntry(AsWritten, side, v, e, Ok(g)).value;
      && ButtonOf(r, SlotsOf(side).stick) == g.buttons[e.index].pressed
      && ButtonOf(r, SlotsOf(side).stickTouch) == g.buttons[e.index].touched
      && AxisOf(r, SlotsOf(side).stickX) == g.axes[e.index]
  {
    SlotsBelongToSide(side);
    assert forall c <- CategoryOrder() :: Readable(c, g, e.index);
    assert Matches(AsWritten, side, e.name, StickPress);
    EntrySetsButton(AsWritten, side, v, e, Ok(g), StickPress, SlotsOf(side).stick);
    EntrySetsButton(AsWritten, side, v, e, Ok(g), StickPress, SlotsOf(side).stickTouch);
    EntrySetsAxis(AsWritten, side, v, e, Ok(g), StickX, SlotsOf(side).stickX);
  }

  /** With the corrected test, an entry whose name carries "xAxis" or "yAxis"
      never writes the stick-press fields, whatever else it contains; the axis
      is still stored. */
  lemma AxisEntryKeepsStickButton(side: Side, v: GamepadValues, e: MapEntry,
                                  pad: Result<XRGamepad, SampleError>)
    requires Includes(e.name, "xAxis") || Includes(e.name, "yAxis")
    requires ApplyEntry(Corrected, side, v, e, pad).Ok?
    ensures ButtonOf(ApplyEntry(Corrected, side, v, e, pad).value, SlotsOf(side).stick) == ButtonOf(v, SlotsOf(side).stick)
    ensures ButtonOf(ApplyEntry(Corrected, side, v, e, pad).value, SlotsOf(side).stickTouch)
      == ButtonOf(v, SlotsOf(side).stickTouch)
    ensures Includes(e.name, "xAxis") ==>
      && pad.Ok? && 0 <= e.index < |pad.value.axes|
      && AxisOf(ApplyEntry(Corrected, side, v, e, pad).value, SlotsOf(side).stickX) == pad.value.axes[e.index]
  {
    StickPressUnmatched(side, v, e, pad);
    EntryStickAxes(Corrected, side, v, e, pad);
  }

  /** The corrected stick-press test turns such a name away, so the stick
      press and its touch flag keep their values. */
  lemma StickPressUnmatched(side: Side, v: GamepadValues, e: MapEntry,
                            pad: Result<XRGamepad, SampleError>)
    requires Includes(e.name, "xAxis") || Includes(e.name, "yAxis")
    requires ApplyEntry(Corrected, side, v, e, pad).Ok?
    ensures ButtonOf(ApplyEntry(Corrected, side, v, e, pad).value, SlotsOf(side).stick) == ButtonOf(v, SlotsOf(side).stick)
    ensures ButtonOf(ApplyEntry(Corrected, side, v, e, pad).value, SlotsOf(side).stickTouch)
      == ButtonOf(v, SlotsOf(side).stickTouch)
  {
    assert !Matches(Corrected, side, e.name, StickPress);
    EntryKeepsButton(Corrected, side, v, e, pad, StickPress, SlotsOf(side).stick);
    EntryKeepsButton(Corrected, side, v, e, pad, StickPress, SlotsOf(side).stickTouch);
  }

  /** The two revisions differ only on names that contain "thumbstick" and an
      "xAxis" or "yAxis": on every other name they compute the same thing. */
  lemma RevisionsAgree(side: Side, v: GamepadValues, e: MapEntry, pad: Result<XRGamepad, SampleError>)
    requires !(Includes(e.name, "thumbstick") && (Includes(e.name, "xAxis") || Includes(e.name, "yAxis")))
    ensures ApplyEntry(AsWritten, side, v, e, pad) == ApplyEntry(Corrected, side, v, e, pad)
  {
    forall c ensures Matches(AsWritten, side, e.name, c) == Matches(Corrected, side, e.name, c) {
    }
    CategoriesAgree(side, CategoryOrder(), v, e, pad);
  }

  lemma {:induction false} CategoriesAgree(side: Side, cs: seq<Category>, v: GamepadValues, e: MapEntry,
                                           pad: Result<XRGamepad, SampleError>)
    requires forall c :: Matches(AsWritten, side, e.name, c) == Matches(Corrected, side, e.name, c)
    ensures ApplyCategories(AsWritten, side, cs, v, e, pad) == ApplyCategories(Corrected, side, cs, v, e, pad)
    decreases |cs|
  {
    if |cs| > 0 {
      var w := if Matches(AsWritten, side, e.name, cs[0]) then ReadCategory(side, cs[0], v, pad, e.index) else Ok(v);
      if w.Ok? {
        CategoriesAgree(side, cs[1..], w.value, e, pad);
      }
    }
  }

  /** Handedness and sampling together: once input source 0 reports "left",
      the right hand's trigger fields hold what source 1's gamepad reports at
      the index of the last right-map entry whose name contains "trigger";
      later entries and the left hand's loop do not disturb them. */
  lemma LeftHandedSourceDrivesRightTrigger(s: SamplerState, right: seq<MapEntry>, j: nat,
                                          left: Option<seq<MapEntry>>, sources: seq<XRInputSource>)
    requires 0 < |sources| && sources[0].handedness == LeftHanded
    requires j < |right| && Includes(right[j].name, "trigger")
    requires forall j' :: j < j' < |right| ==> !Includes(right[j'].name, "trigger")
    requires CheckControllerInputs(s, ControllerMap(Some(right), left), Resolve(InitialRoles(), sources), sources).Ok?
    ensures 1 < |sources| && sources[1].gamepad.Some? && 0 <= right[j].index < |sources[1].gamepad.value.buttons|
    ensures var r := CheckControllerInputs(s, ControllerMap(Some(right), left), Resolve(InitialRoles(), sources), sources).value;
      var b := sources[1].gamepad.value.buttons[right[j].index];
      && ButtonOf(r.values, RTrigger) == b.pressed
      && AxisOf(r.values, RTriggerAxis) == ToFixed2(b.value)
  {
    var roles := Resolve(InitialRoles(), sources);
    assert roles == SwappedRoles();
    var m := ControllerMap(Some(right), left);
    RightFieldsFromRightLoop(s, m, roles, sources);
    var pad := PadAt(sources, 1);
    assert forall j' :: j < j' < |right| ==> !Matches(AsWritten, RightSide, right[j'].name, Trigger);
    SampleSideLastButtonWriter(AsWritten, RightSide, s.values, right, pad, j, Trigger, RTrigger);
    SampleSideLastWriter(AsWritten, RightSide, s.values, right, pad, j, Trigger, RTriggerAxis);
  }

  /** The lowest value an axis of the record can take: trigger and grip
      values are button pressures in [0,1], stick axes lie in [-1,1]. */
  function AxisLow(k: AxisKey): real
  {
    match k
    case RStickXAxis | RStickYAxis | LStickXAxis | LStickYAxis => -1.0
    case _ => 0.0
  }

  /** Every axis of the record lies in its range. */
  predicate RecordInRange(v: GamepadValues)
  {
    forall k :: AxisLow(k) <= AxisOf(v, k) <= 1.0
  }

  /** The ranges a WebXR gamepad reports: button values in [0,1], axes in [-1,1]. */
  predicate PadInRange(g: XRGamepad)
  {
    && (forall b <- g.buttons :: 0.0 <= b.value <= 1.0)
    && (forall a <- g.axes :: -1.0 <= a <= 1.0)
  }

  predicate SourcesInRange(sources: seq<XRInputSource>)
  {
    forall src <- sources :: src.gamepad.Some? ==> PadInRange(src.gamepad.value)
  }

  /** What a category stores in an axis field lies in that field's range. */
  lemma ReadingInRange(side: Side, c: Category, g: XRGamepad, i: int, k: AxisKey)
    requires PadInRange(g) && Readable(c, g, i) && k in CategoryAxes(side, c)
    ensures AxisLow(k) <= AxisReading(c, g, i) <= 1.0
  {
    if c == StickX || c == StickY {
      assert g.axes[i] in g.axes;
      SlotsBelongToSide(side);
      assert k == SlotsOf(side).stickX || k == SlotsOf(side).stickY;
      match side
      case RightSide => {}
      case LeftSide => {}
    } else {
      assert g.buttons[i] in g.buttons;
    }
  }

  /** One entry keeps the record in range when the hardware is in range. */
  lemma EntryKeepsRange(rev: Revision, side: Side, v: GamepadValues, e: MapEntry,
                        pad: Result<XRGamepad, SampleError>)
    requires RecordInRange(v) && (pad.Ok? ==> PadInRange(pad.value))
    requires ApplyEntry(rev, side, v, e, pad).Ok?
    ensures RecordInRange(ApplyEntry(rev, side, v, e, pad).value)
  {
    var r := ApplyEntry(rev, side, v, e, pad).value;
    forall k ensures AxisLow(k) <= AxisOf(r, k) <= 1.0 {
      if AxisOf(r, k) != AxisOf(v, k) {
        var c :| Matches(rev, side, e.name, c) && k in CategoryAxes(side, c);
        EntrySetsAxis(rev, side, v, e, pad, c, k);
        ReadingInRange(side, c, pad.value, e.index, k);
      }
    }
  }

  /** A hand's whole loop keeps the record in range. */
  lemma {:induction false} SideKeepsRange(rev: Revision, side: Side, v: GamepadValues, entries: seq<MapEntry>,
                                          pad: Result<XRGamepad, SampleError>)
    requires RecordInRange(v) && (pad.Ok? ==> PadInRange(pad.value))
    requires SampleSide(rev, side, v, entries, pad).Ok?
    ensures RecordInRange(SampleSide(rev, side, v, entries, pad).value)
    decreases |entries|
  {
    if |entries| > 0 {
      var n := |entries| - 1;
      var w := SampleSide(rev, side, v, entries[..n], pad);
      assert w.Ok? && SampleSide(rev, side, v, entries, pad) == ApplyEntry(rev, side, w.value, entries[n], pad);
      SideKeepsRange(rev, side, v, entries[..n], pad);
      EntryKeepsRange(rev, side, w.value, entries[n], pad);
    }
  }

  /** Sampling in-range hardware keeps the record in range. */
  lemma SampleKeepsRange(s: SamplerState, m: ControllerMap, roles: Roles, sources: seq<XRInputSource>)
    requires RecordInRange(s.values) && SourcesInRange(sources)
    requires CheckControllerInputs(s, m, roles, sources).Ok?
    ensures RecordInRange(CheckControllerInputs(s, m, roles, sources).value.values)
  {
    var rp := PadAt(sources, roles.rIndex);
    if rp.Ok? { assert sources[roles.rIndex] in sources; }
    var afterRight := SampleSide(AsWritten, RightSide, s.values, m.right.value, rp);
    SideKeepsRange(AsWritten, RightSide, s.values, m.right.value, rp);
    if m.left.Some? {
      var lp := PadAt(sources, roles.lIndex);
      if lp.Ok? { assert sources[roles.lIndex] in sources; }
      SideKeepsRange(AsWritten, LeftSide, afterRight.value, m.left.value, lp);
    }
  }
}
