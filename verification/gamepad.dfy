/** The normalised controller record (`GamepadValues` in VRPawn.js): sixteen
    buttons and eight axes under fixed names, its all-rest default, and the
    key-by-key copy into a plain object that the constructor and the input
    cache perform. */
module Gamepad {
  import opened Common

  /** The two hand roles a logical input belongs to. */
  datatype Side = RightSide | LeftSide

  /** The boolean inputs of the record. */
  datatype ButtonKey =
    | A | ATouch | B | BTouch | X | XTouch | Y | YTouch
    | RTrigger | RGrip | RStick | RStickTouch
    | LTrigger | LGrip | LStick | LStickTouch

  /** The numeric inputs of the record. */
  datatype AxisKey =
    | RTriggerAxis | RGripAxis | RStickXAxis | RStickYAxis
    | LTriggerAxis | LGripAxis | LStickXAxis | LStickYAxis

  /** Any one of the 24 logical inputs. */
  datatype InputKey = Button(button: ButtonKey) | Axis(axis: AxisKey)

  /** The value stored under one key of a plain JavaScript object. */
  datatype Value = Flag(on: bool) | Number(x: real)

  /** The record itself: the sixteen buttons and the eight axes, each bank
      indexed by the position of its key in source order. */
  datatype GamepadValues = GamepadValues(buttons: ButtonBank, axes: AxisBank)

  type ButtonBank = s: seq<bool> | |s| == 16
    witness [false, false, false, false, false, false, false, false,
             false, false, false, false, false, false, false, false]

  type AxisBank = s: seq<real> | |s| == 8
    witness [0.0, 0.0, 0.0, 0.0, 0.0, 0.0, 0.0, 0.0]

  /** The position of a button in its bank. */
  function ButtonSlot(k: ButtonKey): (i: nat)
    ensures i < 16
  {
    match k
    case A => 0
    case ATouch => 1
    case B => 2
    case BTouch => 3
    case X => 4
    case XTouch => 5
    case Y => 6
    case YTouch => 7
    case RTrigger => 8
    case RGrip => 9
    case RStick => 10
    case RStickTouch => 11
    case LTrigger => 12
    case LGrip => 13
    case LStick => 14
    case LStickTouch => 15
  }

  /** The position of an axis in its bank. */
  function AxisSlot(k: AxisKey): (i: nat)
    ensures i < 8
  {
    match k
    case RTriggerAxis => 0
    case RGripAxis => 1
    case RStickXAxis => 2
    case RStickYAxis => 3
    case LTriggerAxis => 4
    case LGripAxis => 5
    case LStickXAxis => 6
    case LStickYAxis => 7
  }

  /** Different buttons live in different slots. */
  lemma ButtonSlotsDistinct(k: ButtonKey, k': ButtonKey)
    ensures ButtonSlot(k) == ButtonSlot(k') ==> k == k'
  {
    match k
    case A => {} case ATouch => {} case B => {} case BTouch => {}
    case X => {} case XTouch => {} case Y => {} case YTouch => {}
    case RTrigger => {} case RGrip => {} case RStick => {} case RStickTouch => {}
    case LTrigger => {} case LGrip => {} case LStick => {} case LStickTouch => {}
  }

  /** Different axes live in different slots. */
  lemma AxisSlotsDistinct(k: AxisKey, k': AxisKey)
    ensures AxisSlot(k) == AxisSlot(k') ==> k == k'
  {
    match k
    case RTriggerAxis => {} case RGripAxis => {} case RStickXAxis => {} case RStickYAxis => {}
    case LTriggerAxis => {} case LGripAxis => {} case LStickXAxis => {} case LStickYAxis => {}
  }

  /** The record every session starts from, and the rest state it is compared with. */
  function Defaults(): (d: GamepadValues)
    ensures forall k :: !ButtonOf(d, k)
    ensures forall k :: AxisOf(d, k) == 0.0
  {
    GamepadValues(
      [false, false, false, false, false, false, false, false,
       false, false, false, false, false, false, false, false],
      [0.0, 0.0, 0.0, 0.0, 0.0, 0.0, 0.0, 0.0])
  }

  function ButtonOf(v: GamepadValues, k: ButtonKey): bool
  {
    v.buttons[ButtonSlot(k)]
  }

  function AxisOf(v: GamepadValues, k: AxisKey): real
  {
    v.axes[AxisSlot(k)]
  }

  /** The value under any key, as it appears in a plain object. */
  function Get(v: GamepadValues, k: InputKey): Value
  {
    match k
    case Button(b) => Flag(ButtonOf(v, b))
    case Axis(a) => Number(AxisOf(v, a))
  }

  /** Assignment to one boolean field; every other field keeps its value. */
  function WithButton(v: GamepadValues, k: ButtonKey, on: bool): (r: GamepadValues)
    ensures ButtonOf(r, k) == on
    ensures forall k' :: k' != k ==> ButtonOf(r, k') == ButtonOf(v, k')
    ensures forall a :: AxisOf(r, a) == AxisOf(v, a)
  {
    forall k' | k' != k ensures ButtonSlot(k') != ButtonSlot(k) {
      ButtonSlotsDistinct(k, k');
    }
    v.(buttons := v.buttons[ButtonSlot(k) := on])
  }

  /** Assignment to one numeric field; every other field keeps its value. */
  function WithAxis(v: GamepadValues, k: AxisKey, x: real): (r: GamepadValues)
    ensures AxisOf(r, k) == x
    ensures forall k' :: k' != k ==> AxisOf(r, k') == AxisOf(v, k')
    ensures forall b :: ButtonOf(r, b) == ButtonOf(v, b)
  {
    forall k' | k' != k ensures AxisSlot(k') != AxisSlot(k) {
      AxisSlotsDistinct(k, k');
    }
    v.(axes := v.axes[AxisSlot(k) := x])
  }

  /** The hand a button belongs to: A/B and the R* inputs are the right hand's,
      X/Y and the L* inputs the left hand's. */
  function ButtonSide(k: ButtonKey): Side
  {
    match k
    case A | ATouch | B | BTouch | RTrigger | RGrip | RStick | RStickTouch => RightSide
    case _ => LeftSide
  }

  function AxisSide(k: AxisKey): Side
  {
    match k
    case RTriggerAxis | RGripAxis | RStickXAxis | RStickYAxis => RightSide
    case _ => LeftSide
  }

  /** The property name of each key, as the handlers receive it. */
  function KeyName(k: InputKey): string
  {
    match k
    case Button(A) => "A"
    case Button(ATouch) => "ATouch"
    case Button(B) => "B"
    case Button(BTouch) => "BTouch"
    case Button(X) => "X"
    case Button(XTouch) => "XTouch"
    case Button(Y) => "Y"
    case Button(YTouch) => "YTouch"
    case Button(RTrigger) => "RTrigger"
    case Axis(RTriggerAxis) => "RTriggerAxis"
    case Button(RGrip) => "RGrip"
    case Axis(RGripAxis) => "RGripAxis"
    case Button(RStick) => "RStick"
    case Button(RStickTouch) => "RStickTouch"
    case Axis(RStickXAxis) => "RStickXAxis"
    case Axis(RStickYAxis) => "RStickYAxis"
    case Button(LTrigger) => "LTrigger"
    case Axis(LTriggerAxis) => "LTriggerAxis"
    case Button(LGrip) => "LGrip"
    case Axis(LGripAxis) => "LGripAxis"
    case Button(LStick) => "LStick"
    case Button(LStickTouch) => "LStickTouch"
    case Axis(LStickXAxis) => "LStickXAxis"
    case Axis(LStickYAxis) => "LStickYAxis"
  }

  /** The key a property name denotes, if any: the reading a `switch` on the
      name performs. A name parses only to the key it names. */
  function ParseKey(s: string): (r: Option<InputKey>)
    ensures r.Some? ==> KeyName(r.value) == s
  {
    if |s| == 0 then None
    else if s[0] == 'R' then ParseRightKey(s)
    else if s[0] == 'L' then ParseLeftKey(s)
    else if s == "A" then Some(Button(A))
    else if s == "ATouch" then Some(Button(ATouch))
    else if s == "B" then Some(Button(B))
    else if s == "BTouch" then Some(Button(BTouch))
    else if s == "X" then Some(Button(X))
    else if s == "XTouch" then Some(Button(XTouch))
    else if s == "Y" then Some(Button(Y))
    else if s == "YTouch" then Some(Button(YTouch))
    else None
  }

  function ParseRightKey(s: string): (r: Option<InputKey>)
    ensures r.Some? ==> KeyName(r.value) == s
  {
    if s == "RTrigger" then Some(Button(RTrigger))
    else if s == "RTriggerAxis" then Some(Axis(RTriggerAxis))
    else if s == "RGrip" then Some(Button(RGrip))
    else if s == "RGripAxis" then Some(Axis(RGripAxis))
    else if s == "RStick" then Some(Button(RStick))
    else if s == "RStickTouch" then Some(Button(RStickTouch))
    else if s == "RStickXAxis" then Some(Axis(RStickXAxis))
    else if s == "RStickYAxis" then Some(Axis(RStickYAxis))
    else None
  }

  function ParseLeftKey(s: string): (r: Option<InputKey>)
    ensures r.Some? ==> KeyName(r.value) == s
  {
    if s == "LTrigger" then Some(Button(LTrigger))
    else if s == "LTriggerAxis" then Some(Axis(LTriggerAxis))
    else if s == "LGrip" then Some(Button(LGrip))
    else if s == "LGripAxis" then Some(Axis(LGripAxis))
    else if s == "LStick" then Some(Button(LStick))
    else if s == "LStickTouch" then Some(Button(LStickTouch))
    else if s == "LStickXAxis" then Some(Axis(LStickXAxis))
    else if s == "LStickYAxis" then Some(Axis(LStickYAxis))
    else None
  }

  /** Names and keys are in one-to-one correspondence: parsing a key's name
      gives the key back, and a name parses only to the key it names. */
  lemma NameRoundTrip(k: InputKey, s: string)
    ensures ParseKey(KeyName(k)) == Some(k)
    ensures ParseKey(s) == Some(k) ==> KeyName(k) == s
  {
    match k
    case Button(b) => {
      match b
      case A => {} case ATouch => {} case B => {} case BTouch => {}
      case X => {} case XTouch => {} case Y => {} case YTouch => {}
      case RTrigger => {} case RGrip => {} case RStick => {} case RStickTouch => {}
      case LTrigger => {} case LGrip => {} case LStick => {} case LStickTouch => {}
    }
    case Axis(a) => {
      match a
      case RTriggerAxis => {} case RGripAxis => {} case RStickXAxis => {} case RStickYAxis => {}
      case LTriggerAxis => {} case LGripAxis => {} case LStickXAxis => {} case LStickYAxis => {}
    }
  }

  /** Distinct keys have distinct names. */
  lemma NamesDistinct(k: InputKey, k': InputKey)
    requires k != k'
    ensures KeyName(k) != KeyName(k')
  {
    NameRoundTrip(k, KeyName(k));
    NameRoundTrip(k', KeyName(k'));
  }

  /** The 24 keys in the order the record declares them, which is the order
      a `for..in` loop over the record visits them. */
  function KeyOrder(): (ks: seq<InputKey>)
    ensures |ks| == 24
    ensures forall i, j :: 0 <= i < j < |ks| ==> ks[i] != ks[j]
  {
    [Button(A), Button(ATouch), Button(B), Button(BTouch),
     Button(X), Button(XTouch), Button(Y), Button(YTouch),
     Button(RTrigger), Axis(RTriggerAxis), Button(RGrip), Axis(RGripAxis),
     Button(RStick), Button(RStickTouch), Axis(RStickXAxis), Axis(RStickYAxis),
     Button(LTrigger), Axis(LTriggerAxis), Button(LGrip), Axis(LGripAxis),
     Button(LStick), Button(LStickTouch), Axis(LStickXAxis), Axis(LStickYAxis)]
  }

  /** Every key is visited by the copy loop. */
  lemma KeyOrderCovers(k: InputKey)
    ensures k in KeyOrder()
  {
    NameRoundTrip(k, KeyName(k));
  }

  /** The buttons in source order: the inverse of `ButtonSlot`. */
  function ButtonOrder(): (ks: seq<ButtonKey>)
    ensures |ks| == 16
    ensures forall k :: ks[ButtonSlot(k)] == k
  {
    [A, ATouch, B, BTouch, X, XTouch, Y, YTouch,
     RTrigger, RGrip, RStick, RStickTouch, LTrigger, LGrip, LStick, LStickTouch]
  }

  /** The axes in source order: the inverse of `AxisSlot`. */
  function AxisOrder(): (ks: seq<AxisKey>)
    ensures |ks| == 8
    ensures forall k :: ks[AxisSlot(k)] == k
  {
    [RTriggerAxis, RGripAxis, RStickXAxis, RStickYAxis,
     LTriggerAxis, LGripAxis, LStickXAxis, LStickYAxis]
  }

  /** Reads a record back out of a plain object, when every key is present
      with a value of the right kind. */
  function FromObject(o: map<string, Value>): Option<GamepadValues>
  {
    if forall k <- KeyOrder() :: KeyName(k) in o && o[KeyName(k)].Flag? == k.Button?
    then Some(GamepadValues(
      seq(16, i requires 0 <= i < 16 => FlagAt(o, KeyName(Button(ButtonOrder()[i])))),
      seq(8, i requires 0 <= i < 8 => NumberAt(o, KeyName(Axis(AxisOrder()[i]))))))
    else None
  }

  function FlagAt(o: map<string, Value>, name: string): bool
  {
    if name in o && o[name].Flag? then o[name].on else false
  }

  function NumberAt(o: map<string, Value>, name: string): real
  {
    if name in o && o[name].Number? then o[name].x else 0.0
  }

  /** An object holding every key's name with the record's value reads back
      as that record. */
  lemma FromObjectInverts(o: map<string, Value>, v: GamepadValues)
    requires forall k :: KeyName(k) in o && o[KeyName(k)] == Get(v, k)
    ensures FromObject(o) == Some(v)
  {
    var bs := seq(16, i requires 0 <= i < 16 => FlagAt(o, KeyName(Button(ButtonOrder()[i]))));
    forall i | 0 <= i < 16 ensures bs[i] == v.buttons[i] {
      var k := ButtonOrder()[i];
      assert o[KeyName(Button(k))] == Flag(ButtonOf(v, k));
      assert ButtonOrder()[ButtonSlot(k)] == k;
      ButtonSlotsDistinct(ButtonOrder()[ButtonSlot(k)], ButtonOrder()[i]);
      assert ButtonSlot(k) == i by {
        var ks := ButtonOrder();
        assert ks == [A, ATouch, B, BTouch, X, XTouch, Y, YTouch,
          RTrigger, RGrip, RStick, RStickTouch, LTrigger, LGrip, LStick, LStickTouch];
      }
    }
    var xs := seq(8, i requires 0 <= i < 8 => NumberAt(o, KeyName(Axis(AxisOrder()[i]))));
    forall i | 0 <= i < 8 ensures xs[i] == v.axes[i] {
      var k := AxisOrder()[i];
      assert o[KeyName(Axis(k))] == Number(AxisOf(v, k));
      assert AxisSlot(k) == i by {
        var ks := AxisOrder();
        assert ks == [RTriggerAxis, RGripAxis, RStickXAxis, RStickYAxis,
          LTriggerAxis, LGripAxis, LStickXAxis, LStickYAxis];
      }
    }
    assert bs == v.buttons;
    assert xs == v.axes;
  }

  /** The key-by-key copy `for (key in values) copy[key] = values[key]` into a
      fresh object: the copy holds exactly the 24 names, each with the
      record's value, and reads back as the same record. */
  method CopyToObject(v: GamepadValues) returns (o: map<string, Value>)
    ensures forall k :: KeyName(k) in o && o[KeyName(k)] == Get(v, k)
    ensures forall name :: name in o ==> ParseKey(name).Some?
    ensures FromObject(o) == Some(v)
  {
    var keys := KeyOrder();
    o := map[];
    var i := 0;
    while i < |keys|
      invariant 0 <= i <= |keys|
      invariant forall j :: 0 <= j < i ==> KeyName(keys[j]) in o && o[KeyName(keys[j])] == Get(v, keys[j])
      invariant forall name :: name in o ==> ParseKey(name).Some?
    {
      NameRoundTrip(keys[i], KeyName(keys[i]));
      forall j | 0 <= j < i ensures KeyName(keys[j]) != KeyName(keys[i]) {
        NamesDistinct(keys[j], keys[i]);
      }
      o := o[KeyName(keys[i]) := Get(v, keys[i])];
      i := i + 1;
    }
    forall k ensures KeyName(k) in o && o[KeyName(k)] == Get(v, k) {
      KeyOrderCovers(k);
      var j :| 0 <= j < |keys| && keys[j] == k;
    }
    FromObjectInverts(o, v);
  }
}
