/** What the WebXR session reports about each connected input source: its
    handedness and, when it has one, its gamepad. */
module XR {
  import opened Common

  /** `XRInputSource.handedness`. */
  datatype XRHandedness = Unhanded | LeftHanded | RightHanded

  /** One entry of `Gamepad.buttons`. */
  datatype GamepadButton = GamepadButton(pressed: bool, touched: bool, value: real)

  /** `XRInputSource.gamepad`: its buttons and its axes, by hardware index. */
  datatype XRGamepad = XRGamepad(buttons: seq<GamepadButton>, axes: seq<real>)

  /** One entry of `XRSession.inputSources`; the gamepad may be null. */
  datatype XRInputSource = XRInputSource(handedness: XRHandedness, gamepad: Option<XRGamepad>)
}

/** The handedness resolver: which physical controller plays the right hand
    (`RIndex`) and which the left (`LIndex`). */
module Handedness {
  import opened XR

  /** The pair of physical indices assigned to the two roles. */
  datatype Roles = Roles(rIndex: int, lIndex: int)

  /** The assignment a pawn starts with: index 0 is the right hand. */
  function InitialRoles(): Roles
  {
    Roles(0, 1)
  }

  /** The assignment after the swap: index 0 is the left hand. */
  function SwappedRoles(): Roles
  {
    Roles(1, 0)
  }

  /** The two roles name the two physical controllers, each exactly once. */
  predicate Distinct(r: Roles)
  {
    (r.rIndex == 0 && r.lIndex == 1) || (r.rIndex == 1 && r.lIndex == 0)
  }

  /** The scan over `inputSources` that `inputsourceschange` performs from
      position `index` on: only position 0 can trigger the swap, and only when
      that source reports "left"; nothing ever swaps back. */
  function ScanSources(roles: Roles, sources: seq<XRInputSource>, index: nat): (r: Roles)
    requires index <= |sources|
    ensures r == (if index == 0 && 0 < |sources| && sources[0].handedness == LeftHanded
                  then SwappedRoles() else roles)
    decreases |sources| - index
  {
    if index == |sources| then roles
    else
      var roles' := if index == 0 && sources[index].handedness == LeftHanded
                    then Roles(1, 0) else roles;
      ScanSources(roles', sources, index + 1)
  }

  /** The roles after one `inputsourceschange` event. */
  function Resolve(roles: Roles, sources: seq<XRInputSource>): (r: Roles)
    ensures Distinct(roles) ==> Distinct(r)
    ensures r == SwappedRoles() || r == roles
  {
    ScanSources(roles, sources, 0)
  }

  /** The roles after a whole session's worth of `inputsourceschange` events. */
  function ResolveAll(roles: Roles, events: seq<seq<XRInputSource>>): Roles
    decreases |events|
  {
    if |events| == 0 then roles
    else ResolveAll(Resolve(roles, events[0]), events[1..])
  }

  /** Some event of the session reported a left-handed controller first. */
  ghost predicate SomeEventLeadsLeft(events: seq<seq<XRInputSource>>)
  {
    exists i :: 0 <= i < |events| && 0 < |events[i]| && events[i][0].handedness == LeftHanded
  }

  /** Over any session the indices are swapped exactly when some event listed
      a left-handed controller first, and they are never back to (0,1) after
      that; in every case they stay distinct. */
  lemma {:induction false} RolesOverSession(roles: Roles, events: seq<seq<XRInputSource>>)
    requires Distinct(roles)
    ensures Distinct(ResolveAll(roles, events))
    ensures ResolveAll(roles, events) ==
      (if SomeEventLeadsLeft(events) then SwappedRoles() else roles)
    decreases |events|
  {
    if |events| > 0 {
      var roles' := Resolve(roles, events[0]);
      RolesOverSession(roles', events[1..]);
      if SomeEventLeadsLeft(events[1..]) {
        var i :| 0 <= i < |events[1..]| && 0 < |events[1..][i]| && events[1..][i][0].handedness == LeftHanded;
        assert 0 < |events[i + 1]| && events[i + 1][0].handedness == LeftHanded;
      }
      if 0 < |events[0]| && events[0][0].handedness == LeftHanded {
        assert SomeEventLeadsLeft(events);
        RolesOverSession(SwappedRoles(), events[1..]);
      } else if SomeEventLeadsLeft(events) {
        var i :| 0 <= i < |events| && 0 < |events[i]| && events[i][0].handedness == LeftHanded;
        assert events[1..][i - 1] == events[i];
      }
    }
  }

  /** From a fresh pawn: the right hand is index 1 and the left index 0 exactly
      when some event reported a left-handed controller first; otherwise the
      defaults (0,1) remain. */
  lemma SessionFromStart(events: seq<seq<XRInputSource>>)
    ensures ResolveAll(InitialRoles(), events).rIndex != ResolveAll(InitialRoles(), events).lIndex
    ensures ResolveAll(InitialRoles(), events) ==
      (if SomeEventLeadsLeft(events) then Roles(1, 0) else Roles(0, 1))
  {
    RolesOverSession(InitialRoles(), events);
  }
}
