/**
 * The drive controls of the `frontend` console
 * (`frontend/src/app/modules/components/controls/controls.component.ts`):
 * keyboard events and the tracked gamepad's triggers become calls into the
 * control-state service, and the mode buttons call it only for a real change.
 * The component mirrors the service's state through a subscription.
 *
 * The calls into `ControlService` are recorded, in order, in `serviceCalls`.
 * The gamepads the browser reports are a parameter of one poll; the
 * `requestAnimationFrame` scheduling of the poll is not part of this model.
 */
module FrontendControls {
  import opened Common
  import opened TelemetryModel
  import FrontendControl

  /** The calls the component makes into `ControlService`. */
  datatype ServiceCall =
    | SetKeyboardKeyState(key: string, isActive: bool)
    | SetThrottle(throttle: real)
    | SetBrake(brake: real)
    | UpdateDriveMode(driveMode: DriveMode)
    | UpdateSteeringMode(steeringMode: SteeringMode)

  /** The element a keyboard event is aimed at. */
  datatype EventTarget = InputElement | TextAreaElement | SelectElement | OtherElement(isContentEditable: bool) | NoTarget

  /** A gamepad as the browser reports it: `buttons` holds each button's analogue `value`. */
  datatype Gamepad = Gamepad(buttons: seq<real>)

  const WasdKeys: seq<string> := ["w", "a", "s", "d"]

  /** `isTyping`: focus is in a text-entry element. */
  predicate IsTyping(target: EventTarget)
  {
    match target
    case InputElement => true
    case TextAreaElement => true
    case SelectElement => true
    case OtherElement(editable) => editable
    case NoTarget => false
  }

  /** `normalizeTrigger`: the value clamped into [0, 1]. */
  function NormalizeTrigger(value: real): (r: real)
    ensures 0.0 <= r <= 1.0
    ensures 0.0 <= value <= 1.0 ==> r == value
    ensures value < 0.0 ==> r == 0.0
    ensures value > 1.0 ==> r == 1.0
  {
    Min(Max(value, 0.0), 1.0)
  }

  /** The bar height of `getFillStyle`, in percent: the value scaled to percent, capped at 100. */
  function FillPercent(value: real): (r: real)
    ensures r <= 100.0
    ensures value <= 1.0 ==> r == value * 100.0
    ensures value >= 1.0 ==> r == 100.0
  {
    Min(value * 100.0, 100.0)
  }

  /** `buttons[index]?.value ?? 0`. */
  function TriggerValue(pad: Gamepad, index: nat): real
  {
    if index < |pad.buttons| then pad.buttons[index] else 0.0
  }

  /** `gamepads[index]`: the tracked pad, or nothing when no pad is tracked or the slot is empty. */
  function TrackedPad(gamepads: seq<Option<Gamepad>>, index: Option<int>): (r: Option<Gamepad>)
    ensures index.None? ==> r.None?
    ensures r.Some? ==> 0 <= index.value < |gamepads| && gamepads[index.value] == r
  {
    if index.Some? && 0 <= index.value < |gamepads| then gamepads[index.value] else None
  }

  class ControlsComponent {
    var activeKeys: set<string>
    var throttle: real
    var brake: real
    var driveMode: DriveMode
    var steeringMode: SteeringMode
    var connectedGamepadIndex: Option<int>
    var serviceCalls: seq<ServiceCall>

    constructor ()
      ensures activeKeys == {} && throttle == 0.0 && brake == 0.0
      ensures driveMode == Normal && steeringMode == TwoWheel
      ensures connectedGamepadIndex == None && serviceCalls == []
    {
      activeKeys := {};
      throttle, brake := 0.0, 0.0;
      driveMode, steeringMode := Normal, TwoWheel;
      connectedGamepadIndex := None;
      serviceCalls := [];
    }

    /** The state subscription: every field mirrors the published state. */
    method OnState(state: FrontendControl.ControlState)
      modifies this
      ensures activeKeys == state.activeKeys && throttle == state.throttle && brake == state.brake
      ensures driveMode == state.driveMode && steeringMode == state.steeringMode
      ensures connectedGamepadIndex == old(connectedGamepadIndex) && serviceCalls == old(serviceCalls)
    {
      activeKeys := state.activeKeys;
      throttle := state.throttle;
      brake := state.brake;
      driveMode := state.driveMode;
      steeringMode := state.steeringMode;
    }

    /** Presses a drive key, unless the event repeats, the user is typing or the key is not w/a/s/d. */
    method HandleKeyDown(eventKey: string, repeat: bool, target: EventTarget)
      modifies this
      ensures var key := ToLower(eventKey);
        serviceCalls == old(serviceCalls)
          + (if !repeat && !IsTyping(target) && key in WasdKeys then [SetKeyboardKeyState(key, true)] else [])
      ensures connectedGamepadIndex == old(connectedGamepadIndex) && driveMode == old(driveMode) && steeringMode == old(steeringMode)
      ensures activeKeys == old(activeKeys) && throttle == old(throttle) && brake == old(brake)
    {
      if repeat || IsTyping(target) {
        return;
      }
      var key := ToLower(eventKey);
      if key !in WasdKeys {
        return;
      }
      serviceCalls := serviceCalls + [SetKeyboardKeyState(key, true)];
    }

    /** Releases a drive key unless the user is typing; repeats are not filtered here. */
    method HandleKeyUp(eventKey: string, target: EventTarget)
      modifies this
      ensures var key := ToLower(eventKey);
        serviceCalls == old(serviceCalls)
          + (if !IsTyping(target) && key in WasdKeys then [SetKeyboardKeyState(key, false)] else [])
      ensures connectedGamepadIndex == old(connectedGamepadIndex) && driveMode == old(driveMode) && steeringMode == old(steeringMode)
      ensures activeKeys == old(activeKeys) && throttle == old(throttle) && brake == old(brake)
    {
      if IsTyping(target) {
        return;
      }
      var key := ToLower(eventKey);
      if key !in WasdKeys {
        return;
      }
      serviceCalls := serviceCalls + [SetKeyboardKeyState(key, false)];
    }

    method SelectDriveMode(mode: DriveMode)
      modifies this
      ensures serviceCalls == old(serviceCalls) + (if mode != driveMode then [UpdateDriveMode(mode)] else [])
      ensures driveMode == old(driveMode) && steeringMode == old(steeringMode) && connectedGamepadIndex == old(connectedGamepadIndex)
      ensures activeKeys == old(activeKeys) && throttle == old(throttle) && brake == old(brake)
    {
      if driveMode == mode {
        return;
      }
      serviceCalls := serviceCalls + [UpdateDriveMode(mode)];
    }

    method SelectSteeringMode(mode: SteeringMode)
      modifies this
      ensures serviceCalls == old(serviceCalls) + (if mode != steeringMode then [UpdateSteeringMode(mode)] else [])
      ensures driveMode == old(driveMode) && steeringMode == old(steeringMode) && connectedGamepadIndex == old(connectedGamepadIndex)
      ensures activeKeys == old(activeKeys) && throttle == old(throttle) && brake == old(brake)
    {
      if steeringMode == mode {
        return;
      }
      serviceCalls := serviceCalls + [UpdateSteeringMode(mode)];
    }

    method GamepadConnected(index: int)
      modifies this
      ensures connectedGamepadIndex == Some(index) && serviceCalls == old(serviceCalls)
      ensures activeKeys == old(activeKeys) && throttle == old(throttle) && brake == old(brake)
      ensures driveMode == old(driveMode) && steeringMode == old(steeringMode)
    {
      connectedGamepadIndex := Some(index);
    }

    /** Losing the tracked pad releases both triggers; losing any other pad changes nothing. */
    method GamepadDisconnected(index: int)
      modifies this
      ensures old(connectedGamepadIndex) == Some(index) ==>
        connectedGamepadIndex == None && serviceCalls == old(serviceCalls) + [SetThrottle(0.0), SetBrake(0.0)]
      ensures old(connectedGamepadIndex) != Some(index) ==>
        connectedGamepadIndex == old(connectedGamepadIndex) && serviceCalls == old(serviceCalls)
      ensures activeKeys == old(activeKeys) && throttle == old(throttle) && brake == old(brake)
      ensures driveMode == old(driveMode) && steeringMode == old(steeringMode)
    {
      if connectedGamepadIndex == Some(index) {
        connectedGamepadIndex := None;
        serviceCalls := serviceCalls + [SetThrottle(0.0), SetBrake(0.0)];
      }
    }

    /** One poll: the tracked pad's right trigger (button 7) is throttle, its left trigger (button 6) brake. */
    method PollGamepad(gamepads: seq<Option<Gamepad>>)
      modifies this
      ensures var pad := TrackedPad(gamepads, connectedGamepadIndex);
        && (pad.None? ==> serviceCalls == old(serviceCalls))
        && (pad.Some? ==>
              serviceCalls == old(serviceCalls) + [SetThrottle(NormalizeTrigger(TriggerValue(pad.value, 7))), SetBrake(NormalizeTrigger(TriggerValue(pad.value, 6)))])
      ensures connectedGamepadIndex == old(connectedGamepadIndex)
      ensures activeKeys == old(activeKeys) && throttle == old(throttle) && brake == old(brake)
      ensures driveMode == old(driveMode) && steeringMode == old(steeringMode)
    {
      var pad := TrackedPad(gamepads, connectedGamepadIndex);
      if pad.Some? {
        var throttleValue := NormalizeTrigger(TriggerValue(pad.value, 7));
        var brakeValue := NormalizeTrigger(TriggerValue(pad.value, 6));
        serviceCalls := serviceCalls + [SetThrottle(throttleValue), SetBrake(brakeValue)];
      }
    }
  }
}
