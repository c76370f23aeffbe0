/** The gamepad sampler (`CheckControllerInputs`): walks the controller map
    of each hand, copies the hardware buttons and axes it names into the
    normalised record, and pushes a copy of the record onto the two-deep
    input cache. */
module Sampler {
  import opened Common
  import opened Gamepad
  import opened XR
  import opened Handedness

  /** One `name: hardwareIndex` pair of a hand's controller map. */
  datatype MapEntry = MapEntry(name: string, index: int)

  /** `ControllerMap`: a list of entries per hand, either of which may be
      missing (the pawn starts with the empty object `{}`). */
  datatype ControllerMap = ControllerMap(right: Option<seq<MapEntry>>, left: Option<seq<MapEntry>>)

  /** The ways a sample throws a TypeError. */
  datatype SampleError =
    | NoRightMap              // `Object.keys(undefined)`
    | NoInputSource(at: int)  // `inputSources[i]` is undefined
    | NoGamepad(at: int)      // the input source has no gamepad
    | NoButton(at: int)       // `buttons[i]` is undefined
    | NoAxis(at: int)         // `axes[i]` is undefined

  /** The recorded value and the input cache, which sampling updates together. */
  datatype SamplerState = SamplerState(values: GamepadValues, cache: seq<GamepadValues>)

  /** The state a pawn is constructed with: the all-rest record, no samples. */
  function InitialSampler(): (s: SamplerState)
    ensures s.cache == []
    ensures forall k :: !ButtonOf(s.values, k)
    ensures forall k :: AxisOf(s.values, k) == 0.0
  {
    SamplerState(Defaults(), [])
  }

  /** The constructor's two records: the initial `GamepadValues` and its
      key-by-key copy `GamepadDefaults`, which has exactly the 24 names of
      the record, every button `false` and every axis `0.0`. */
  method InitialRecords() returns (values: GamepadValues, defaults: map<string, Value>)
    ensures forall k :: KeyName(Button(k)) in defaults && defaults[KeyName(Button(k))] == Flag(false)
    ensures forall k :: KeyName(Axis(k)) in defaults && defaults[KeyName(Axis(k))] == Number(0.0)
    ensures forall name :: name in defaults ==> ParseKey(name).Some?
    ensures FromObject(defaults) == Some(values)
  {
    values := Defaults();
    defaults := CopyToObject(values);
    forall k ensures KeyName(Button(k)) in defaults && defaults[KeyName(Button(k))] == Flag(false) {
      assert Get(values, Button(k)) == Flag(ButtonOf(values, k));
    }
    forall k ensures KeyName(Axis(k)) in defaults && defaults[KeyName(Axis(k))] == Number(0.0) {
      assert Get(values, Axis(k)) == Number(AxisOf(values, k));
    }
  }

  /** From this magnitude on, `toFixed` prints the number unrounded. */
  const ExponentialLimit: real := 1000000000000000000000.0

  /** JavaScript's `parseFloat(x.toFixed(2))` on an exact value: the nearest
      multiple of 1/100, ties going away from zero, and magnitudes of 1e21 and
      above left as they are. */
  function ToFixed2(x: real): (r: real)
    ensures 0.0 <= x <= 1.0 ==> 0.0 <= r <= 1.0
    ensures x == 0.0 ==> r == 0.0
  {
    if x < 0.0 then -FixedMagnitude(-x) else FixedMagnitude(x)
  }

  function FixedMagnitude(x: real): (r: real)
    requires 0.0 <= x
    ensures 0.0 <= r
    ensures x <= 1.0 ==> r <= 1.0
  {
    if x >= ExponentialLimit then x
    else (x * 100.0 + 0.5).Floor as real / 100.0
  }

  /** The value has at most two decimals. */
  predicate Hundredths(r: real)
  {
    (r * 100.0).Floor as real == r * 100.0
  }

  lemma FixedMagnitudeClose(x: real)
    requires 0.0 <= x < ExponentialLimit
    ensures x - 0.005 < FixedMagnitude(x) <= x + 0.005
    ensures Hundredths(FixedMagnitude(x))
  {
    var n := (x * 100.0 + 0.5).Floor;
    assert FixedMagnitude(x) * 100.0 == n as real;
  }

  /** Two decimals are kept under negation. */
  lemma HundredthsNegate(r: real)
    requires Hundredths(r)
    ensures Hundredths(-r)
  {
    var n := (r * 100.0).Floor;
    assert -r * 100.0 == (-n) as real;
  }

  /** Rounding moves a value by at most half a hundredth and leaves two decimals. */
  lemma ToFixed2Close(x: real)
    requires -ExponentialLimit < x < ExponentialLimit
    ensures x - 0.005 <= ToFixed2(x) <= x + 0.005
    ensures Hundredths(ToFixed2(x))
  {
    if x < 0.0 {
      var m := FixedMagnitude(-x);
      FixedMagnitudeClose(-x);
      HundredthsNegate(m);
      assert ToFixed2(x) == -m;
    } else {
      FixedMagnitudeClose(x);
    }
  }

  /** Rounding to two decimals twice is rounding once. */
  lemma ToFixed2Idempotent(x: real)
    requires -ExponentialLimit < x < ExponentialLimit
    ensures ToFixed2(ToFixed2(x)) == ToFixed2(x)
  {
    ToFixed2Close(x);
    var r := ToFixed2(x);
    var n := (r * 100.0).Floor;
    assert r == n as real / 100.0;
    if r < 0.0 {
      assert (-r * 100.0 + 0.5).Floor == -n;
    } else {
      assert (r * 100.0 + 0.5).Floor == n;
    }
  }

  /** What one hand's half of the sampler reads: the name each category is
      recognised by and the record fields it fills. */
  datatype Slots = Slots(
    trigger: ButtonKey, triggerAxis: AxisKey,
    grip: ButtonKey, gripAxis: AxisKey,
    firstFaceName: string, firstFace: ButtonKey, firstFaceTouch: ButtonKey,
    secondFaceName: string, secondFace: ButtonKey, secondFaceTouch: ButtonKey,
    stick: ButtonKey, stickTouch: ButtonKey,
    stickX: AxisKey, stickY: AxisKey)

  function SlotsOf(side: Side): (s: Slots)
  {
    match side
    case RightSide =>
      Slots(RTrigger, RTriggerAxis, RGrip, RGripAxis,
            "a_button", A, ATouch, "b_button", B, BTouch,
            RStick, RStickTouch, RStickXAxis, RStickYAxis)
    case LeftSide =>
      Slots(LTrigger, LTriggerAxis, LGrip, LGripAxis,
            "x_button", X, XTouch, "y_button", Y, YTouch,
            LStick, LStickTouch, LStickXAxis, LStickYAxis)
  }

  /** Every field a hand's slots name belongs to that hand, and no two
      categories share a field. */
  lemma SlotsBelongToSide(side: Side)
    ensures var s := SlotsOf(side);
      && ButtonSide(s.trigger) == side && ButtonSide(s.grip) == side
      && ButtonSide(s.firstFace) == side && ButtonSide(s.firstFaceTouch) == side
      && ButtonSide(s.secondFace) == side && ButtonSide(s.secondFaceTouch) == side
      && ButtonSide(s.stick) == side && ButtonSide(s.stickTouch) == side
      && AxisSide(s.triggerAxis) == side && AxisSide(s.gripAxis) == side
      && AxisSide(s.stickX) == side && AxisSide(s.stickY) == side
      && s.stickX != s.stickY && s.triggerAxis != s.gripAxis
      && s.triggerAxis != s.stickX && s.triggerAxis != s.stickY
      && s.gripAxis != s.stickX && s.gripAxis != s.stickY
  {
  }

  /** The two readings of the stick-press test: the source's, which excludes
      names containing the lower-case word "axis", and the corrected one,
      which also excludes the "xAxis"/"yAxis" names the axis tests look for. */
  datatype Revision = AsWritten | Corrected

  predicate IsStickButtonName(rev: Revision, name: string)
  {
    && Includes(name, "thumbstick")
    && !Includes(name, "axis")
    && (rev == AsWritten || (!Includes(name, "xAxis") && !Includes(name, "yAxis")))
  }

  /** The category tests one entry's name goes through, in source order. */
  datatype Category = Trigger | Squeeze | FirstFace | SecondFace | StickPress | StickX | StickY

  function CategoryOrder(): (cs: seq<Category>)
    ensures forall i, j :: 0 <= i < j < |cs| ==> cs[i] != cs[j]
  {
    [Trigger, Squeeze, FirstFace, SecondFace, StickPress, StickX, StickY]
  }

  /** Every category appears in the order the tests run. */
  lemma CategoryOrderCovers(c: Category)
    ensures c in CategoryOrder()
  {
    match c
    case Trigger => {} case Squeeze => {} case FirstFace => {} case SecondFace => {}
    case StickPress => {} case StickX => {} case StickY => {}
  }

  /** The substring test of each category, applied to an entry's name. */
  predicate Matches(rev: Revision, side: Side, name: string, c: Category)
  {
    match c
    case Trigger => Includes(name, "trigger")
    case Squeeze => Includes(name, "squeeze")
    case FirstFace => Includes(name, SlotsOf(side).firstFaceName)
    case SecondFace => Includes(name, SlotsOf(side).secondFaceName)
    case StickPress => IsStickButtonName(rev, name)
    case StickX => Includes(name, "xAxis")
    case StickY => Includes(name, "yAxis")
  }

  /** The button fields a category fills. */
  function CategoryButtons(side: Side, c: Category): set<ButtonKey>
  {
    var s := SlotsOf(side);
    match c
    case Trigger => {s.trigger}
    case Squeeze => {s.grip}
    case FirstFace => {s.firstFace, s.firstFaceTouch}
    case SecondFace => {s.secondFace, s.secondFaceTouch}
    case StickPress => {s.stick, s.stickTouch}
    case StickX => {}
    case StickY => {}
  }

  /** The axis fields a category fills. */
  function CategoryAxes(side: Side, c: Category): set<AxisKey>
  {
    var s := SlotsOf(side);
    match c
    case Trigger => {s.triggerAxis}
    case Squeeze => {s.gripAxis}
    case StickX => {s.stickX}
    case StickY => {s.stickY}
    case _ => {}
  }

  /** The button fields a map entry of this name assigns. */
  ghost predicate WritesButton(rev: Revision, side: Side, name: string, k: ButtonKey)
  {
    exists c :: Matches(rev, side, name, c) && k in CategoryButtons(side, c)
  }

  /** The axis fields a map entry of this name assigns. */
  ghost predicate WritesAxis(rev: Revision, side: Side, name: string, k: AxisKey)
  {
    exists c :: Matches(rev, side, name, c) && k in CategoryAxes(side, c)
  }

  /** Some category test matches the name, so the entry reads the hardware. */
  predicate Recognised(rev: Revision, side: Side, name: string)
  {
    exists c <- CategoryOrder() :: Matches(rev, side, name, c)
  }

  /** `inputSources[i].gamepad`. */
  function PadAt(sources: seq<XRInputSource>, i: int): (r: Result<XRGamepad, SampleError>)
    ensures r.Ok? <==> 0 <= i < |sources| && sources[i].gamepad.Some?
  {
    if 0 <= i < |sources| then OrFail(sources[i].gamepad, NoGamepad(i))
    else Err(NoInputSource(i))
  }

  /** `gamepad.buttons[i]`, a TypeError once a property of it is read if absent. */
  function ButtonAt(pad: Result<XRGamepad, SampleError>, i: int): (r: Result<GamepadButton, SampleError>)
    ensures r.Ok? <==> pad.Ok? && 0 <= i < |pad.value.buttons|
    ensures r.Ok? ==> r.value == pad.value.buttons[i]
  {
    var g :- pad;
    if 0 <= i < |g.buttons| then Ok(g.buttons[i]) else Err(NoButton(i))
  }

  /** `gamepad.axes[i]`. */
  function AxisAt(pad: Result<XRGamepad, SampleError>, i: int): (r: Result<real, SampleError>)
    ensures r.Ok? <==> pad.Ok? && 0 <= i < |pad.value.axes|
    ensures r.Ok? ==> r.value == pad.value.axes[i]
  {
    var g :- pad;
    if 0 <= i < |g.axes| then Ok(g.axes[i]) else Err(NoAxis(i))
  }

  /** The hardware a category reads exists: a button for the button
      categories, an axis for the two stick axes. */
  predicate Readable(c: Category, g: XRGamepad, i: int)
  {
    if c == StickX || c == StickY then 0 <= i < |g.axes| else 0 <= i < |g.buttons|
  }

  /** What a category stores in one of its button fields: `touched` for the
      touch fields, `pressed` for the others. */
  function ButtonReading(side: Side, c: Category, k: ButtonKey, g: XRGamepad, i: int): bool
    requires Readable(c, g, i)
  {
    var s := SlotsOf(side);
    if c == StickX || c == StickY then false
    else if k == s.firstFaceTouch || k == s.secondFaceTouch || k == s.stickTouch then g.buttons[i].touched
    else g.buttons[i].pressed
  }

  /** What a category stores in its axis field: the rounded button value for
      trigger and squeeze, the raw X axis, the negated Y axis. */
  function AxisReading(c: Category, g: XRGamepad, i: int): real
    requires Readable(c, g, i)
  {
    match c
    case StickX => g.axes[i]
    case StickY => -g.axes[i]
    case _ => ToFixed2(g.buttons[i].value)
  }

  /** The body of one category's `if`: reads the hardware at index `i` and
      fills the category's fields. Trigger and squeeze take `pressed` and the
      value rounded to two decimals, face buttons and the stick press take
      `pressed` and `touched`, the X axis is copied and the Y axis negated. */
  function ReadCategory(side: Side, c: Category, v: GamepadValues,
                        pad: Result<XRGamepad, SampleError>, i: int): (r: Result<GamepadValues, SampleError>)
    ensures r.Ok? <==> pad.Ok? && Readable(c, pad.value, i)
    ensures r.Ok? ==> forall k :: k !in CategoryButtons(side, c) ==> ButtonOf(r.value, k) == ButtonOf(v, k)
    ensures r.Ok? ==> forall k :: k !in CategoryAxes(side, c) ==> AxisOf(r.value, k) == AxisOf(v, k)
  {
    var s := SlotsOf(side);
    SlotsBelongToSide(side);
    match c
    case Trigger => PressureRead(v, s.trigger, s.triggerAxis, pad, i)
    case Squeeze => PressureRead(v, s.grip, s.gripAxis, pad, i)
    case FirstFace => PressTouchRead(v, s.firstFace, s.firstFaceTouch, pad, i)
    case SecondFace => PressTouchRead(v, s.secondFace, s.secondFaceTouch, pad, i)
    case StickPress => PressTouchRead(v, s.stick, s.stickTouch, pad, i)
    case StickX => StickRead(v, s.stickX, 1.0, pad, i)
    case StickY => StickRead(v, s.stickY, -1.0, pad, i)
  }

  /** What one category's read stores in its own fields: `touched` in the
      touch fields, `pressed` in the other buttons, the rounded value for
      trigger and squeeze, the X axis as is and the Y axis negated. */
  predicate StoresReadings(side: Side, c: Category, v: GamepadValues,
                           pad: Result<XRGamepad, SampleError>, i: int)
    requires ReadCategory(side, c, v, pad, i).Ok?
  {
    var r := ReadCategory(side, c, v, pad, i).value;
    && (forall k :: k in CategoryButtons(side, c) ==> ButtonOf(r, k) == ButtonReading(side, c, k, pad.value, i))
    && (forall k :: k in CategoryAxes(side, c) ==> AxisOf(r, k) == AxisReading(c, pad.value, i))
  }

  lemma ReadCategoryReadings(side: Side, c: Category, v: GamepadValues,
                             pad: Result<XRGamepad, SampleError>, i: int)
    requires ReadCategory(side, c, v, pad, i).Ok?
    ensures forall k :: k in CategoryButtons(side, c) ==>
      ButtonOf(ReadCategory(side, c, v, pad, i).value, k) == ButtonReading(side, c, k, pad.value, i)
    ensures forall k :: k in CategoryAxes(side, c) ==>
      AxisOf(ReadCategory(side, c, v, pad, i).value, k) == AxisReading(c, pad.value, i)
  {
    if c == Trigger || c == Squeeze {
      PressureReadings(side, c, v, pad, i);
    } else if c == StickX || c == StickY {
      StickReadings(side, c, v, pad, i);
    } else {
      PressTouchReadings(side, c, v, pad, i);
    }
  }

  lemma PressureReadings(side: Side, c: Category, v: GamepadValues,
                         pad: Result<XRGamepad, SampleError>, i: int)
    requires c == Trigger || c == Squeeze
    requires ReadCategory(side, c, v, pad, i).Ok?
    ensures StoresReadings(side, c, v, pad, i)
  {
    SlotsBelongToSide(side);
  }

  lemma PressTouchReadings(side: Side, c: Category, v: GamepadValues,
                           pad: Result<XRGamepad, SampleError>, i: int)
    requires c == FirstFace || c == SecondFace || c == StickPress
    requires ReadCategory(side, c, v, pad, i).Ok?
    ensures StoresReadings(side, c, v, pad, i)
  {
    match c
    case FirstFace => FirstFaceReadings(side, v, pad, i);
    case SecondFace => SecondFaceReadings(side, v, pad, i);
    case StickPress => StickPressReadings(side, v, pad, i);
  }

  lemma FirstFaceReadings(side: Side, v: GamepadValues, pad: Result<XRGamepad, SampleError>, i: int)
    requires ReadCategory(side, FirstFace, v, pad, i).Ok?
    ensures StoresReadings(side, FirstFace, v, pad, i)
  {
    SlotsBelongToSide(side);
  }

  lemma SecondFaceReadings(side: Side, v: GamepadValues, pad: Result<XRGamepad, SampleError>, i: int)
    requires ReadCategory(side, SecondFace, v, pad, i).Ok?
    ensures StoresReadings(side, SecondFace, v, pad, i)
  {
    SlotsBelongToSide(side);
  }

  lemma StickPressReadings(side: Side, v: GamepadValues, pad: Result<XRGamepad, SampleError>, i: int)
    requires ReadCategory(side, StickPress, v, pad, i).Ok?
    ensures StoresReadings(side, StickPress, v, pad, i)
  {
    SlotsBelongToSide(side);
  }

  lemma StickReadings(side: Side, c: Category, v: GamepadValues,
                      pad: Result<XRGamepad, SampleError>, i: int)
    requires c == StickX || c == StickY
    requires ReadCategory(side, c, v, pad, i).Ok?
    ensures StoresReadings(side, c, v, pad, i)
  {
    SlotsBelongToSide(side);
  }

  /** A trigger or squeeze read: `pressed` into the button, the rounded value
      into the axis. */
  function PressureRead(v: GamepadValues, k: ButtonKey, a: AxisKey,
                        pad: Result<XRGamepad, SampleError>, i: int): (r: Result<GamepadValues, SampleError>)
    ensures r.Ok? <==> pad.Ok? && 0 <= i < |pad.value.buttons|
    ensures r.Ok? ==> ButtonOf(r.value, k) == pad.value.buttons[i].pressed
    ensures r.Ok? ==> AxisOf(r.value, a) == ToFixed2(pad.value.buttons[i].value)
    ensures r.Ok? ==> forall k' :: k' != k ==> ButtonOf(r.value, k') == ButtonOf(v, k')
    ensures r.Ok? ==> forall a' :: a' != a ==> AxisOf(r.value, a') == AxisOf(v, a')
  {
    var btn :- ButtonAt(pad, i);
    Ok(WithAxis(WithButton(v, k, btn.pressed), a, ToFixed2(btn.value)))
  }

  /** A face-button or stick-press read: `pressed` and `touched`. */
  function PressTouchRead(v: GamepadValues, k: ButtonKey, t: ButtonKey,
                          pad: Result<XRGamepad, SampleError>, i: int): (r: Result<GamepadValues, SampleError>)
    requires k != t
    ensures r.Ok? <==> pad.Ok? && 0 <= i < |pad.value.buttons|
    ensures r.Ok? ==> ButtonOf(r.value, k) == pad.value.buttons[i].pressed
    ensures r.Ok? ==> ButtonOf(r.value, t) == pad.value.buttons[i].touched
    ensures r.Ok? ==> forall k' :: k' != k && k' != t ==> ButtonOf(r.value, k') == ButtonOf(v, k')
    ensures r.Ok? ==> forall a :: AxisOf(r.value, a) == AxisOf(v, a)
  {
    var btn :- ButtonAt(pad, i);
    Ok(WithButton(WithButton(v, k, btn.pressed), t, btn.touched))
  }

  /** A stick-axis read, scaled by `sign` (the Y axes are stored negated). */
  function StickRead(v: GamepadValues, a: AxisKey, sign: real,
                     pad: Result<XRGamepad, SampleError>, i: int): (r: Result<GamepadValues, SampleError>)
    ensures r.Ok? <==> pad.Ok? && 0 <= i < |pad.value.axes|
    ensures r.Ok? ==> AxisOf(r.value, a) == pad.value.axes[i] * sign
    ensures r.Ok? ==> forall a' :: a' != a ==> AxisOf(r.value, a') == AxisOf(v, a')
    ensures r.Ok? ==> forall k :: ButtonOf(r.value, k) == ButtonOf(v, k)
  {
    var x :- AxisAt(pad, i);
    Ok(WithAxis(v, a, x * sign))
  }

  /** The category tests `cs`, applied in order to one entry; each one that
      matches runs its read. */
  function ApplyCategories(rev: Revision, side: Side, cs: seq<Category>, v: GamepadValues,
                           e: MapEntry, pad: Result<XRGamepad, SampleError>): (r: Result<GamepadValues, SampleError>)
    ensures r.Ok? ==> forall k :: ButtonOf(r.value, k) != ButtonOf(v, k) ==>
      exists c :: c in cs && Matches(rev, side, e.name, c) && k in CategoryButtons(side, c)
    ensures r.Ok? ==> forall k :: AxisOf(r.value, k) != AxisOf(v, k) ==>
      exists c :: c in cs && Matches(rev, side, e.name, c) && k in CategoryAxes(side, c)
    ensures (forall c <- cs :: !Matches(rev, side, e.name, c)) ==> r == Ok(v)
    ensures r.Ok? <==> forall c <- cs :: Matches(rev, side, e.name, c) ==> pad.Ok? && Readable(c, pad.value, e.index)
    decreases |cs|
  {
    if |cs| == 0 then Ok(v)
    else
      var w :- if Matches(rev, side, e.name, cs[0]) then ReadCategory(side, cs[0], v, pad, e.index) else Ok(v);
      ApplyCategories(rev, side, cs[1..], w, e, pad)
  }

  /** One turn of a hand's loop: every category test is applied to the
      entry's name in turn. Only the fields of matching categories change,
      and a name no test recognises reads no hardware at all. */
  function ApplyEntry(rev: Revision, side: Side, v: GamepadValues, e: MapEntry,
                      pad: Result<XRGamepad, SampleError>): (r: Result<GamepadValues, SampleError>)
    ensures r.Ok? ==> forall k :: !WritesButton(rev, side, e.name, k) ==> ButtonOf(r.value, k) == ButtonOf(v, k)
    ensures r.Ok? ==> forall k :: !WritesAxis(rev, side, e.name, k) ==> AxisOf(r.value, k) == AxisOf(v, k)
    ensures !Recognised(rev, side, e.name) ==> r == Ok(v)
    ensures r.Ok? <==> forall c <- CategoryOrder() :: Matches(rev, side, e.name, c) ==>
      pad.Ok? && Readable(c, pad.value, e.index)
  {
    ApplyCategories(rev, side, CategoryOrder(), v, e, pad)
  }

  /** No two categories fill the same field. */
  lemma CategoriesDisjoint(side: Side, c: Category, c': Category)
    requires c != c'
    ensures CategoryButtons(side, c) !! CategoryButtons(side, c')
    ensures CategoryAxes(side, c) !! CategoryAxes(side, c')
  {
    match side
    case RightSide => {}
    case LeftSide => {}
  }

  /** The value of a field after one entry is the reading of the last
      matching category that fills it. */
  lemma {:induction false} CategorySetsAxis(rev: Revision, side: Side, cs: seq<Category>, v: GamepadValues,
                                            e: MapEntry, pad: Result<XRGamepad, SampleError>, j: nat, k: AxisKey)
    requires j < |cs| && Matches(rev, side, e.name, cs[j]) && k in CategoryAxes(side, cs[j])
    requires forall j' :: j < j' < |cs| ==> cs[j'] != cs[j]
    requires ApplyCategories(rev, side, cs, v, e, pad).Ok?
    ensures pad.Ok? && Readable(cs[j], pad.value, e.index)
    ensures AxisOf(ApplyCategories(rev, side, cs, v, e, pad).value, k) == AxisReading(cs[j], pad.value, e.index)
    decreases j
  {
    var w := if Matches(rev, side, e.name, cs[0]) then ReadCategory(side, cs[0], v, pad, e.index) else Ok(v);
    assert w.Ok?;
    if Matches(rev, side, e.name, cs[0]) {
      ReadCategoryReadings(side, cs[0], v, pad, e.index);
    }
    forall c | c != cs[j] ensures k !in CategoryAxes(side, c) {
      CategoriesDisjoint(side, c, cs[j]);
    }
    if j > 0 {
      CategorySetsAxis(rev, side, cs[1..], w.value, e, pad, j - 1, k);
    }
  }

  lemma {:induction false} CategorySetsButton(rev: Revision, side: Side, cs: seq<Category>, v: GamepadValues,
                                              e: MapEntry, pad: Result<XRGamepad, SampleError>, j: nat, k: ButtonKey)
    requires j < |cs| && Matches(rev, side, e.name, cs[j]) && k in CategoryButtons(side, cs[j])
    requires forall j' :: j < j' < |cs| ==> cs[j'] != cs[j]
    requires ApplyCategories(rev, side, cs, v, e, pad).Ok?
    ensures pad.Ok? && Readable(cs[j], pad.value, e.index)
    ensures ButtonOf(ApplyCategories(rev, side, cs, v, e, pad).value, k) == ButtonReading(side, cs[j], k, pad.value, e.index)
    decreases j
  {
    var w := if Matches(rev, side, e.name, cs[0]) then ReadCategory(side, cs[0], v, pad, e.index) else Ok(v);
    assert w.Ok?;
    if Matches(rev, side, e.name, cs[0]) {
      ReadCategoryReadings(side, cs[0], v, pad, e.index);
    }
    forall c | c != cs[j] ensures k !in CategoryButtons(side, c) {
      CategoriesDisjoint(side, c, cs[j]);
    }
    if j > 0 {
      CategorySetsButton(rev, side, cs[1..], w.value, e, pad, j - 1, k);
    }
  }

  /** What one entry stores: an "xAxis" entry copies the axis unchanged and
      a "yAxis" entry stores it negated. */
  lemma EntryStickAxes(rev: Revision, side: Side, v: GamepadValues, e: MapEntry,
                       pad: Result<XRGamepad, SampleError>)
    requires ApplyEntry(rev, side, v, e, pad).Ok?
    ensures Includes(e.name, "xAxis") ==>
      && pad.Ok? && 0 <= e.index < |pad.value.axes|
      && AxisOf(ApplyEntry(rev, side, v, e, pad).value, SlotsOf(side).stickX) == pad.value.axes[e.index]
    ensures Includes(e.name, "yAxis") ==>
      && pad.Ok? && 0 <= e.index < |pad.value.axes|
      && AxisOf(ApplyEntry(rev, side, v, e, pad).value, SlotsOf(side).stickY) == -pad.value.axes[e.index]
  {
    if Includes(e.name, "xAxis") {
      EntrySetsAxis(rev, side, v, e, pad, StickX, SlotsOf(side).stickX);
    }
    if Includes(e.name, "yAxis") {
      EntrySetsAxis(rev, side, v, e, pad, StickY, SlotsOf(side).stickY);
    }
  }

  /** A "trigger" entry stores the button's `pressed` flag and its value
      rounded to two decimals. */
  lemma EntryTrigger(rev: Revision, side: Side, v: GamepadValues, e: MapEntry,
                     pad: Result<XRGamepad, SampleError>)
    requires ApplyEntry(rev, side, v, e, pad).Ok?
    requires Includes(e.name, "trigger")
    ensures pad.Ok? && 0 <= e.index < |pad.value.buttons|
    ensures ButtonOf(ApplyEntry(rev, side, v, e, pad).value, SlotsOf(side).trigger) == pad.value.buttons[e.index].pressed
    ensures AxisOf(ApplyEntry(rev, side, v, e, pad).value, SlotsOf(side).triggerAxis)
      == ToFixed2(pad.value.buttons[e.index].value)
  {
    var cs := CategoryOrder();
    var s := SlotsOf(side);
    SlotsBelongToSide(side);
    assert cs == [Trigger, Squeeze, FirstFace, SecondFace, StickPress, StickX, StickY];
    CategorySetsAxis(rev, side, cs, v, e, pad, 0, s.triggerAxis);
    CategorySetsButton(rev, side, cs, v, e, pad, 0, s.trigger);
    assert !(s.trigger == s.firstFaceTouch || s.trigger == s.secondFaceTouch || s.trigger == s.stickTouch);
  }

  /** A category that matches fills its axis field with its reading, whatever
      the other categories do. */
  lemma EntrySetsAxis(rev: Revision, side: Side, v: GamepadValues, e: MapEntry,
                      pad: Result<XRGamepad, SampleError>, c: Category, k: AxisKey)
    requires Matches(rev, side, e.name, c) && k in CategoryAxes(side, c)
    requires ApplyEntry(rev, side, v, e, pad).Ok?
    ensures pad.Ok? && Readable(c, pad.value, e.index)
    ensures AxisOf(ApplyEntry(rev, side, v, e, pad).value, k) == AxisReading(c, pad.value, e.index)
  {
    var cs := CategoryOrder();
    CategoryOrderCovers(c);
    var j :| 0 <= j < |cs| && cs[j] == c;
    CategorySetsAxis(rev, side, cs, v, e, pad, j, k);
  }

  /** A category that matches fills each of its button fields with its reading. */
  lemma EntrySetsButton(rev: Revision, side: Side, v: GamepadValues, e: MapEntry,
                        pad: Result<XRGamepad, SampleError>, c: Category, k: ButtonKey)
    requires Matches(rev, side, e.name, c) && k in CategoryButtons(side, c)
    requires ApplyEntry(rev, side, v, e, pad).Ok?
    ensures pad.Ok? && Readable(c, pad.value, e.index)
    ensures ButtonOf(ApplyEntry(rev, side, v, e, pad).value, k) == ButtonReading(side, c, k, pad.value, e.index)
  {
    var cs := CategoryOrder();
    CategoryOrderCovers(c);
    var j :| 0 <= j < |cs| && cs[j] == c;
    CategorySetsButton(rev, side, cs, v, e, pad, j, k);
  }

  /** A field whose category does not match keeps its value. */
  lemma EntryKeepsAxis(rev: Revision, side: Side, v: GamepadValues, e: MapEntry,
                       pad: Result<XRGamepad, SampleError>, c: Category, k: AxisKey)
    requires !Matches(rev, side, e.name, c) && k in CategoryAxes(side, c)
    requires ApplyEntry(rev, side, v, e, pad).Ok?
    ensures AxisOf(ApplyEntry(rev, side, v, e, pad).value, k) == AxisOf(v, k)
  {
    if WritesAxis(rev, side, e.name, k) {
      var c' :| Matches(rev, side, e.name, c') && k in CategoryAxes(side, c');
      if c' != c {
        CategoriesDisjoint(side, c, c');
      }
    }
  }

  lemma EntryKeepsButton(rev: Revision, side: Side, v: GamepadValues, e: MapEntry,
                         pad: Result<XRGamepad, SampleError>, c: Category, k: ButtonKey)
    requires !Matches(rev, side, e.name, c) && k in CategoryButtons(side, c)
    requires ApplyEntry(rev, side, v, e, pad).Ok?
    ensures ButtonOf(ApplyEntry(rev, side, v, e, pad).value, k) == ButtonOf(v, k)
  {
    if WritesButton(rev, side, e.name, k) {
      var c' :| Matches(rev, side, e.name, c') && k in CategoryButtons(side, c');
      if c' != c {
        CategoriesDisjoint(side, c, c');
      }
    }
  }

  /** Every field a hand's entries can fill belongs to that hand. */
  lemma CategoryFieldsOnSide(side: Side, c: Category)
    ensures forall k :: k in CategoryButtons(side, c) ==> ButtonSide(k) == side
    ensures forall k :: k in CategoryAxes(side, c) ==> AxisSide(k) == side
  {
    SlotsBelongToSide(side);
  }

  /** One hand's loop over its controller map, entry by entry in map order.
      Whatever the map holds, the other hand's fields keep their values. */
  function SampleSide(rev: Revision, side: Side, v: GamepadValues, entries: seq<MapEntry>,
                      pad: Result<XRGamepad, SampleError>): (r: Result<GamepadValues, SampleError>)
    ensures r.Ok? ==> forall k :: ButtonSide(k) != side ==> ButtonOf(r.value, k) == ButtonOf(v, k)
    ensures r.Ok? ==> forall k :: AxisSide(k) != side ==> AxisOf(r.value, k) == AxisOf(v, k)
    decreases |entries|
  {
    if |entries| == 0 then Ok(v)
    else
      var w :- SampleSide(rev, side, v, entries[..|entries| - 1], pad);
      var e := entries[|entries| - 1];
      forall k | ButtonSide(k) != side ensures !WritesButton(rev, side, e.name, k) {
        forall c ensures !(Matches(rev, side, e.name, c) && k in CategoryButtons(side, c)) {
          CategoryFieldsOnSide(side, c);
        }
      }
      forall k | AxisSide(k) != side ensures !WritesAxis(rev, side, e.name, k) {
        forall c ensures !(Matches(rev, side, e.name, c) && k in CategoryAxes(side, c)) {
          CategoryFieldsOnSide(side, c);
        }
      }
      ApplyEntry(rev, side, w, e, pad)
  }

  /** After a hand's loop, a stick-axis or trigger-value field holds the
      reading of the last entry whose name matched its category; later
      entries of other categories leave it alone. */
  lemma {:induction false} SampleSideLastWriter(rev: Revision, side: Side, v: GamepadValues, entries: seq<MapEntry>,
                                                pad: Result<XRGamepad, SampleError>, j: nat, c: Category, k: AxisKey)
    requires j < |entries| && Matches(rev, side, entries[j].name, c) && k in CategoryAxes(side, c)
    requires forall j' :: j < j' < |entries| ==> !Matches(rev, side, entries[j'].name, c)
    requires SampleSide(rev, side, v, entries, pad).Ok?
    ensures pad.Ok? && Readable(c, pad.value, entries[j].index)
    ensures AxisOf(SampleSide(rev, side, v, entries, pad).value, k) == AxisReading(c, pad.value, entries[j].index)
    decreases |entries|
  {
    var n := |entries| - 1;
    var w := SampleSide(rev, side, v, entries[..n], pad);
    assert w.Ok?;
    if j == n {
      EntrySetsAxis(rev, side, w.value, entries[n], pad, c, k);
    } else {
      assert entries[..n][j] == entries[j];
      SampleSideLastWriter(rev, side, v, entries[..n], pad, j, c, k);
      EntryKeepsAxis(rev, side, w.value, entries[n], pad, c, k);
    }
  }

  /** The button counterpart: after a hand's loop, a button field holds the
      reading of the last entry whose name matched its category. */
  lemma {:induction false} SampleSideLastButtonWriter(rev: Revision, side: Side, v: GamepadValues,
                                                      entries: seq<MapEntry>, pad: Result<XRGamepad, SampleError>,
                                                      j: nat, c: Category, k: ButtonKey)
    requires j < |entries| && Matches(rev, side, entries[j].name, c) && k in CategoryButtons(side, c)
    requires forall j' :: j < j' < |entries| ==> !Matches(rev, side, entries[j'].name, c)
    requires SampleSide(rev, side, v, entries, pad).Ok?
    ensures pad.Ok? && Readable(c, pad.value, entries[j].index)
    ensures ButtonOf(SampleSide(rev, side, v, entries, pad).value, k) == ButtonReading(side, c, k, pad.value, entries[j].index)
    decreases |entries|
  {
    var n := |entries| - 1;
    var w := SampleSide(rev, side, v, entries[..n], pad);
    assert w.Ok?;
    if j == n {
      EntrySetsButton(rev, side, w.value, entries[n], pad, c, k);
    } else {
      assert entries[..n][j] == entries[j];
      SampleSideLastButtonWriter(rev, side, v, entries[..n], pad, j, c, k);
      EntryKeepsButton(rev, side, w.value, entries[n], pad, c, k);
    }
  }

  /** A field no entry's category fills keeps its value through the loop. */
  lemma {:induction false} SampleSideUnwritten(rev: Revision, side: Side, v: GamepadValues, entries: seq<MapEntry>,
                                               pad: Result<XRGamepad, SampleError>, c: Category, k: AxisKey)
    requires k in CategoryAxes(side, c)
    requires forall j :: 0 <= j < |entries| ==> !Matches(rev, side, entries[j].name, c)
    requires SampleSide(rev, side, v, entries, pad).Ok?
    ensures AxisOf(SampleSide(rev, side, v, entries, pad).value, k) == AxisOf(v, k)
    decreases |entries|
  {
    if |entries| > 0 {
      var n := |entries| - 1;
      var w := SampleSide(rev, side, v, entries[..n], pad);
      assert w.Ok?;
      assert forall j :: 0 <= j < n ==> entries[..n][j] == entries[j];
      SampleSideUnwritten(rev, side, v, entries[..n], pad, c, k);
      EntryKeepsAxis(rev, side, w.value, entries[n], pad, c, k);
    }
  }

  /** `InputCache.unshift(copy); if (InputCache.length > 2) InputCache.pop()`:
      the new record goes in front, the former head moves to second place,
      and at most one entry falls off the end. */
  function PushCache(cache: seq<GamepadValues>, v: GamepadValues): (c: seq<GamepadValues>)
    ensures 0 < |c| && c[0] == v
    ensures 0 < |cache| ==> 2 <= |c| && c[1] == cache[0]
    ensures c[1..] <= cache
    ensures |c| == (if |cache| < 2 then |cache| + 1 else |cache|)
  {
    var pushed := [v] + cache;
    if |pushed| > 2 then pushed[..|pushed| - 1] else pushed
  }

  /** The cache after pushing each record of `vs` in turn. */
  function PushAll(cache: seq<GamepadValues>, vs: seq<GamepadValues>): seq<GamepadValues>
    decreases |vs|
  {
    if |vs| == 0 then cache
    else PushCache(PushAll(cache, vs[..|vs| - 1]), vs[|vs| - 1])
  }

  /** Starting from the empty cache, the cache always holds the latest two
      samples, newest first, and never more than two. */
  lemma {:induction false} CacheHoldsLatestTwo(vs: seq<GamepadValues>)
    ensures |PushAll([], vs)| == (if |vs| < 2 then |vs| else 2)
    ensures 0 < |vs| ==> PushAll([], vs)[0] == vs[|vs| - 1]
    ensures 1 < |vs| ==> PushAll([], vs)[1] == vs[|vs| - 2]
    decreases |vs|
  {
    if 0 < |vs| {
      var n := |vs| - 1;
      CacheHoldsLatestTwo(vs[..n]);
      if 0 < n {
        assert vs[..n][n - 1] == vs[n - 1];
      }
    }
  }

  /** One call of `CheckControllerInputs`: the right hand's loop over the
      source at `RIndex`, the left hand's loop over the source at `LIndex`
      only when a left map exists, then the cache push. */
  function CheckControllerInputs(s: SamplerState, m: ControllerMap, roles: Roles,
                                 sources: seq<XRInputSource>): (r: Result<SamplerState, SampleError>)
    ensures m.right.None? ==> r == Err(NoRightMap)
    ensures r.Ok? ==> 0 < |r.value.cache| && r.value.cache[0] == r.value.values
    ensures r.Ok? && 0 < |s.cache| ==> 2 <= |r.value.cache| && r.value.cache[1] == s.cache[0]
    ensures r.Ok? && |s.cache| <= 2 ==> |r.value.cache| <= 2
    ensures r.Ok? && m.left.None? ==>
      forall k :: ButtonSide(k) == LeftSide ==> ButtonOf(r.value.values, k) == ButtonOf(s.values, k)
    ensures r.Ok? && m.left.None? ==>
      forall k :: AxisSide(k) == LeftSide ==> AxisOf(r.value.values, k) == AxisOf(s.values, k)
  {
    var right :- OrFail(m.right, NoRightMap);
    var afterRight :- SampleSide(AsWritten, RightSide, s.values, right, PadAt(sources, roles.rIndex));
    var afterLeft :- match m.left
      case None => Ok(afterRight)
      case Some(left) => SampleSide(AsWritten, LeftSide, afterRight, left, PadAt(sources, roles.lIndex));
    Ok(SamplerState(afterLeft, PushCache(s.cache, afterLeft)))
  }

  /** The right hand's fields after a sample are exactly what the right
      hand's loop stored, read from the source at `RIndex`; the left hand's
      loop never disturbs them. */
  lemma RightFieldsFromRightLoop(s: SamplerState, m: ControllerMap, roles: Roles, sources: seq<XRInputSource>)
    requires CheckControllerInputs(s, m, roles, sources).Ok?
    ensures m.right.Some?
    ensures SampleSide(AsWritten, RightSide, s.values, m.right.value, PadAt(sources, roles.rIndex)).Ok?
    ensures var w := SampleSide(AsWritten, RightSide, s.values, m.right.value, PadAt(sources, roles.rIndex)).value;
      var r := CheckControllerInputs(s, m, roles, sources).value;
      && (forall k :: ButtonSide(k) == RightSide ==> ButtonOf(r.values, k) == ButtonOf(w, k))
      && (forall k :: AxisSide(k) == RightSide ==> AxisOf(r.values, k) == AxisOf(w, k))
  {
  }

  /** A loop over a one-entry map is that entry's application. */
  lemma SampleSideSingle(rev: Revision, side: Side, v: GamepadValues, e: MapEntry,
                         pad: Result<XRGamepad, SampleError>)
    ensures SampleSide(rev, side, v, [e], pad) == ApplyEntry(rev, side, v, e, pad)
  {
    assert [e][..0] == [];
  }
}
