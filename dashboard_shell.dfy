/**
 * The driving dashboard of the `src/main` console
 * (`src/main/frontend/src/app/dashboard/dashboard-shell/dashboard-shell.component.ts`):
 * keyboard and gamepad input become drive and gamepad commands for the
 * command transport and manual throttle/brake input for the telemetry
 * simulator, and the camera selection picks the main feed.
 *
 * The calls the component makes into `ControlService` and into
 * `TelemetryService.applyManualInput` are recorded, in order, in the logs
 * `controlCalls` and `manualInputs`. The gamepads `navigator.getGamepads()`
 * reports are a parameter of one poll; the `requestAnimationFrame` loop that
 * repeats the poll is not part of this model.
 */
module DashboardShell {
  import opened Common
  import opened ControlTransport
  import opened MainVideo

  const DriveKeys: seq<string> := ["w", "a", "s", "d"]
  const ArrowKeys: seq<string> := ["arrowup", "arrowdown", "arrowleft", "arrowright"]
  const DriveModes: seq<string> := ["Eco", "Normal", "Boost"]
  const SteeringModes: seq<string> := ["2WD", "4WD"]

  /** The arguments of one `applyManualInput(throttle, brake)` call. */
  datatype ManualInput = ManualInput(throttle: int, brake: int)

  /** A gamepad as the browser reports it: `buttons` holds each button's `pressed` flag. */
  datatype Gamepad = Gamepad(connected: bool, axes: seq<real>, buttons: seq<bool>)

  /** The manual-input part of the component's state, with the calls it has made. */
  datatype ManualState = ManualState(
    throttleLevel: int, brakeLevel: int,
    lastThrottle: int, lastBrake: int,
    inputs: seq<ManualInput>)

  /** Full throttle while 'w' is held, none otherwise. */
  function KeyThrottle(keys: seq<string>): int
  {
    if "w" in keys then 100 else 0
  }

  /** Full brake while 's' is held, none otherwise. */
  function KeyBrake(keys: seq<string>): int
  {
    if "s" in keys then 100 else 0
  }

  /**
   * Syncing does nothing while a controller is connected; otherwise the levels
   * follow the keys and exactly one call is made if and only if the key pair
   * differs from the last pair passed on.
   */
  function Sync(m: ManualState, controllerConnected: bool, keys: seq<string>): (r: ManualState)
    ensures controllerConnected ==> r == m
    ensures !controllerConnected ==>
      var changed := KeyThrottle(keys) != m.lastThrottle || KeyBrake(keys) != m.lastBrake;
      && r.throttleLevel == KeyThrottle(keys) && r.brakeLevel == KeyBrake(keys)
      && r.lastThrottle == KeyThrottle(keys) && r.lastBrake == KeyBrake(keys)
      && (changed ==> r.inputs == m.inputs + [ManualInput(KeyThrottle(keys), KeyBrake(keys))])
      && (!changed ==> r.inputs == m.inputs)
  {
    if controllerConnected then m
    else
      var throttle := KeyThrottle(keys);
      var brake := KeyBrake(keys);
      if throttle == m.lastThrottle && brake == m.lastBrake then
        m.(throttleLevel := throttle, brakeLevel := brake)
      else
        ManualState(throttle, brake, throttle, brake, m.inputs + [ManualInput(throttle, brake)])
  }

  /** A second sync with the same keys passes nothing on. */
  lemma {:induction false} SyncIdempotent(m: ManualState, controllerConnected: bool, keys: seq<string>)
    ensures Sync(Sync(m, controllerConnected, keys), controllerConnected, keys) == Sync(m, controllerConnected, keys)
  {
  }

  /** After the last pair is reset to (-1, -1), a sync with no controller always passes the key pair on. */
  lemma {:induction false} SyncAfterResetPublishes(m: ManualState, keys: seq<string>)
    requires m.lastThrottle == -1 && m.lastBrake == -1
    ensures Sync(m, false, keys).inputs == m.inputs + [ManualInput(KeyThrottle(keys), KeyBrake(keys))]
  {
  }

  /** The vertical stick axis, `axes[1] ?? 0`. */
  function Vertical(pad: Gamepad): real
  {
    if |pad.axes| > 1 then pad.axes[1] else 0.0
  }

  /** Stick up is throttle, stick down is brake, each as a rounded percentage. */
  function GamepadLevels(vertical: real): (r: ManualInput)
    ensures r.throttle >= 0 && r.brake >= 0
    ensures r.throttle == 0 || r.brake == 0
    ensures -1.0 <= vertical <= 1.0 ==> r.throttle <= 100 && r.brake <= 100
  {
    var throttle := Max(0.0, -vertical);
    var brake := Max(0.0, vertical);
    HalfUpOfInt(0);
    HalfUpOfInt(100);
    assert throttle == 0.0 || brake == 0.0;
    assert throttle * 100.0 == 0.0 || brake * 100.0 == 0.0;
    ManualInput(HalfUp(throttle * 100.0), HalfUp(brake * 100.0))
  }

  /** `gamepads.find(pad => pad && pad.connected)`: the first connected pad. */
  function ActivePad(pads: seq<Option<Gamepad>>): (r: Option<Gamepad>)
    ensures r.Some? ==> r.value.connected && Some(r.value) in pads
    ensures r.Some? ==>
      exists i :: 0 <= i < |pads| && pads[i] == r && forall j :: 0 <= j < i ==> pads[j].None? || !pads[j].value.connected
    ensures r.None? ==> forall i :: 0 <= i < |pads| ==> pads[i].None? || !pads[i].value.connected
  {
    if pads == [] then None
    else if pads[0].Some? && pads[0].value.connected then pads[0]
    else ActivePad(pads[1..])
  }

  /** `keys.filter(value => value !== key)`. */
  function Without(keys: seq<string>, key: string): (r: seq<string>)
    ensures key !in r
    ensures forall k :: k in r <==> k in keys && k != key
    ensures NoDuplicates(keys) ==> NoDuplicates(r)
    ensures key !in keys ==> r == keys
  {
    if keys == [] then []
    else if keys[0] == key then Without(keys[1..], key)
    else
      var rest := Without(keys[1..], key);
      assert NoDuplicates(keys) ==> keys[0] !in keys[1..];
      assert key !in keys ==> keys == [keys[0]] + keys[1..];
      [keys[0]] + rest
  }

  /** `filter` works piece by piece: the keys of a concatenation are filtered part by part, in order. */
  lemma {:induction false} WithoutSplit(a: seq<string>, b: seq<string>, key: string)
    ensures Without(a + b, key) == Without(a, key) + Without(b, key)
    decreases |a|
  {
    if a != [] {
      assert (a + b)[1..] == a[1..] + b;
      WithoutSplit(a[1..], b, key);
    } else {
      assert a + b == b;
    }
  }

  /** Releasing a key held once, at index i, removes exactly that entry and keeps the others in order. */
  lemma {:induction false} WithoutHeldKey(keys: seq<string>, i: nat)
    requires NoDuplicates(keys) && i < |keys|
    ensures Without(keys, keys[i]) == keys[..i] + keys[i + 1..]
    decreases i
  {
    var key := keys[i];
    var rest := keys[1..];
    assert NoDuplicates(rest) by {
      forall a, b | 0 <= a < b < |rest| ensures rest[a] != rest[b] { assert keys[a + 1] != keys[b + 1]; }
    }
    if i == 0 {
      assert key !in rest by {
        forall b | 0 <= b < |rest| ensures rest[b] != key { assert keys[b + 1] != keys[0]; }
      }
    } else {
      assert keys[0] != key;
      assert rest[i - 1] == key;
      WithoutHeldKey(rest, i - 1);
      assert keys[..i] == [keys[0]] + rest[..i - 1];
      assert keys[i + 1..] == rest[i..];
    }
  }

  /** The `secondaryFeeds` getter: the feeds whose id is not the main feed's id, in order. */
  function OtherFeeds(feeds: seq<CameraFeed>, mainId: Option<string>): (r: seq<CameraFeed>)
    ensures forall f :: f in r <==> f in feeds && (mainId.None? || f.id != mainId.value)
    ensures (mainId.None? || forall i :: 0 <= i < |feeds| ==> feeds[i].id != mainId.value) ==> r == feeds
  {
    if feeds == [] then []
    else if mainId.Some? && feeds[0].id == mainId.value then OtherFeeds(feeds[1..], mainId)
    else
      assert feeds == [feeds[0]] + feeds[1..];
      [feeds[0]] + OtherFeeds(feeds[1..], mainId)
  }

  /**
   * `filter` works piece by piece: the feeds of a concatenation are filtered
   * part by part, in order. With `OtherFeedsOne` this fixes the result, order
   * included.
   */
  lemma {:induction false} OtherFeedsSplit(a: seq<CameraFeed>, b: seq<CameraFeed>, mainId: Option<string>)
    ensures OtherFeeds(a + b, mainId) == OtherFeeds(a, mainId) + OtherFeeds(b, mainId)
    decreases |a|
  {
    if a != [] {
      var ab := a + b;
      assert ab[0] == a[0] && ab[1..] == a[1..] + b;
      OtherFeedsSplit(a[1..], b, mainId);
      if mainId.Some? && a[0].id == mainId.value {
        assert OtherFeeds(ab, mainId) == OtherFeeds(ab[1..], mainId);
        assert OtherFeeds(a, mainId) == OtherFeeds(a[1..], mainId);
      } else {
        assert OtherFeeds(ab, mainId) == [a[0]] + OtherFeeds(ab[1..], mainId);
        assert OtherFeeds(a, mainId) == [a[0]] + OtherFeeds(a[1..], mainId);
      }
    } else {
      assert a + b == b;
    }
  }

  /** A single feed is kept exactly when its id is not the main id. */
  lemma OtherFeedsOne(f: CameraFeed, mainId: Option<string>)
    ensures OtherFeeds([f], mainId) == if mainId.Some? && f.id == mainId.value then [] else [f]
  {
    assert [f][1..] == [];
  }

  class DashboardShellComponent {
    var driveMode: string
    var steeringMode: string
    var pressedKeys: seq<string>
    var throttleLevel: int
    var brakeLevel: int
    var controllerConnected: bool
    var cameraFeeds: seq<CameraFeed>
    /** `mainFeed`, `None` until the first non-empty feed list arrives. */
    var mainFeed: Option<CameraFeed>
    var lastManualThrottle: int
    var lastManualBrake: int
    /** The `ControlService` calls made so far. */
    var controlCalls: seq<ControlCall>
    /** The `TelemetryService.applyManualInput` calls made so far. */
    var manualInputs: seq<ManualInput>

    /** Only drive keys are held, and none twice. */
    ghost predicate Valid()
      reads this
    {
      && NoDuplicates(pressedKeys)
      && (forall k :: k in pressedKeys ==> k in DriveKeys)
    }

    function Manual(): ManualState
      reads this
    {
      ManualState(throttleLevel, brakeLevel, lastManualThrottle, lastManualBrake, manualInputs)
    }

    /**
     * `secondaryFeeds`: `OtherFeeds` of the feed list, so exactly the feeds
     * without the main feed's id, in list order.
     */
    function SecondaryFeeds(): (r: seq<CameraFeed>)
      reads this
      ensures forall f :: f in r <==> f in cameraFeeds && (mainFeed.None? || f.id != mainFeed.value.id)
      ensures (mainFeed.None? || forall i :: 0 <= i < |cameraFeeds| ==> cameraFeeds[i].id != mainFeed.value.id) ==> r == cameraFeeds
    {
      OtherFeeds(cameraFeeds, if mainFeed.Some? then Some(mainFeed.value.id) else None)
    }

    constructor ()
      ensures Valid()
      ensures driveMode == "Normal" && steeringMode == "4WD"
      ensures pressedKeys == [] && throttleLevel == 0 && brakeLevel == 0 && !controllerConnected
      ensures cameraFeeds == [] && mainFeed == None
      ensures lastManualThrottle == 0 && lastManualBrake == 0
      ensures controlCalls == [] && manualInputs == []
    {
      driveMode := DriveModes[1];
      steeringMode := SteeringModes[1];
      pressedKeys := [];
      throttleLevel, brakeLevel := 0, 0;
      controllerConnected := false;
      cameraFeeds := [];
      mainFeed := None;
      lastManualThrottle, lastManualBrake := 0, 0;
      controlCalls := [];
      manualInputs := [];
    }

    /** The feed subscription: the list is taken over, and the first feed becomes the main feed if there is none yet. */
    method OnFeeds(feeds: seq<CameraFeed>)
      modifies this
      ensures cameraFeeds == feeds
      ensures mainFeed == (if old(mainFeed).None? && |feeds| > 0 then Some(feeds[0]) else old(mainFeed))
      ensures pressedKeys == old(pressedKeys) && Manual() == old(Manual()) && controlCalls == old(controlCalls)
      ensures driveMode == old(driveMode) && steeringMode == old(steeringMode)
      ensures controllerConnected == old(controllerConnected)
    {
      cameraFeeds := feeds;
      if mainFeed.None? && |feeds| > 0 {
        mainFeed := Some(feeds[0]);
      }
    }

    method SendDriveCommand()
      modifies this
      ensures controlCalls == old(controlCalls) + [ControlCall.SendDriveCommand(DriveCommand(pressedKeys, driveMode, steeringMode))]
      ensures pressedKeys == old(pressedKeys) && driveMode == old(driveMode) && steeringMode == old(steeringMode)
      ensures Manual() == old(Manual()) && controllerConnected == old(controllerConnected)
      ensures mainFeed == old(mainFeed) && cameraFeeds == old(cameraFeeds)
    {
      controlCalls := controlCalls + [ControlCall.SendDriveCommand(DriveCommand(pressedKeys, driveMode, steeringMode))];
    }

    method SyncManualInput()
      modifies this
      ensures Manual() == Sync(old(Manual()), controllerConnected, pressedKeys)
      ensures pressedKeys == old(pressedKeys) && controllerConnected == old(controllerConnected)
      ensures controlCalls == old(controlCalls)
      ensures driveMode == old(driveMode) && steeringMode == old(steeringMode)
      ensures mainFeed == old(mainFeed) && cameraFeeds == old(cameraFeeds)
    {
      if controllerConnected {
        return;
      }
      var throttle := if "w" in pressedKeys then 100 else 0;
      var brake := if "s" in pressedKeys then 100 else 0;
      throttleLevel := throttle;
      brakeLevel := brake;
      if throttle == lastManualThrottle && brake == lastManualBrake {
        return;
      }
      lastManualThrottle := throttle;
      lastManualBrake := brake;
      manualInputs := manualInputs + [ManualInput(throttle, brake)];
    }

    method HandleKeyDown(eventKey: string)
      requires Valid()
      modifies this
      ensures Valid()
      ensures var key := ToLower(eventKey);
        var added := key in DriveKeys && key !in old(pressedKeys);
        && pressedKeys == (if added then old(pressedKeys) + [key] else old(pressedKeys))
        && controlCalls == old(controlCalls)
             + (if added then [ControlCall.SendDriveCommand(DriveCommand(pressedKeys, driveMode, steeringMode))] else [])
             + (if key in ArrowKeys then [PanCamera(key)] else [])
        && Manual() == (if added then Sync(old(Manual()), controllerConnected, pressedKeys) else old(Manual()))
      ensures driveMode == old(driveMode) && steeringMode == old(steeringMode)
      ensures controllerConnected == old(controllerConnected) && mainFeed == old(mainFeed)
      ensures cameraFeeds == old(cameraFeeds)
    {
      var key := ToLower(eventKey);
      if key in DriveKeys {
        if key !in pressedKeys {
          pressedKeys := pressedKeys + [key];
          SendDriveCommand();
          SyncManualInput();
        }
      }
      if key in ArrowKeys {
        controlCalls := controlCalls + [PanCamera(key)];
      }
    }

    method HandleKeyUp(eventKey: string)
      requires Valid()
      modifies this
      ensures Valid()
      ensures var key := ToLower(eventKey);
        && (key in DriveKeys ==>
              && pressedKeys == Without(old(pressedKeys), key)
              && controlCalls == old(controlCalls) + [ControlCall.SendDriveCommand(DriveCommand(pressedKeys, driveMode, steeringMode))]
              && Manual() == Sync(old(Manual()), controllerConnected, pressedKeys))
        && (key !in DriveKeys ==>
              pressedKeys == old(pressedKeys) && controlCalls == old(controlCalls) && Manual() == old(Manual()))
      ensures driveMode == old(driveMode) && steeringMode == old(steeringMode)
      ensures controllerConnected == old(controllerConnected) && mainFeed == old(mainFeed)
      ensures cameraFeeds == old(cameraFeeds)
    {
      var key := ToLower(eventKey);
      if key in DriveKeys {
        pressedKeys := Without(pressedKeys, key);
        SendDriveCommand();
        SyncManualInput();
      }
    }

    method ChangeDriveMode(mode: string)
      modifies this
      ensures driveMode == mode && controlCalls == old(controlCalls) + [SetDriveMode(mode)]
      ensures steeringMode == old(steeringMode) && pressedKeys == old(pressedKeys) && Manual() == old(Manual())
      ensures controllerConnected == old(controllerConnected) && cameraFeeds == old(cameraFeeds) && mainFeed == old(mainFeed)
    {
      driveMode := mode;
      controlCalls := controlCalls + [SetDriveMode(mode)];
    }

    method ChangeSteeringMode(mode: string)
      modifies this
      ensures steeringMode == mode && controlCalls == old(controlCalls) + [SetSteeringMode(mode)]
      ensures driveMode == old(driveMode) && pressedKeys == old(pressedKeys) && Manual() == old(Manual())
      ensures controllerConnected == old(controllerConnected) && cameraFeeds == old(cameraFeeds) && mainFeed == old(mainFeed)
    {
      steeringMode := mode;
      controlCalls := controlCalls + [SetSteeringMode(mode)];
    }

    /** Switches the main feed, unless there is none yet or the feed already is the main one. */
    method SelectCamera(feed: CameraFeed)
      modifies this
      ensures old(mainFeed).None? || feed.id == old(mainFeed).value.id ==>
        mainFeed == old(mainFeed) && controlCalls == old(controlCalls)
      ensures old(mainFeed).Some? && feed.id != old(mainFeed).value.id ==>
        mainFeed == Some(feed) && controlCalls == old(controlCalls) + [ControlCall.SelectCamera(feed.id)]
      ensures cameraFeeds == old(cameraFeeds) && pressedKeys == old(pressedKeys) && Manual() == old(Manual())
      ensures driveMode == old(driveMode) && steeringMode == old(steeringMode)
      ensures controllerConnected == old(controllerConnected)
    {
      if mainFeed.None? || feed.id == mainFeed.value.id {
        return;
      }
      mainFeed := Some(feed);
      controlCalls := controlCalls + [ControlCall.SelectCamera(feed.id)];
    }

    /**
     * One run of the gamepad poll. With a connected pad the stick sets the
     * levels and both services are told; with none the levels drop to zero,
     * zero input is passed on, and the key pair is then always passed on too.
     */
    method PollGamepad(pads: seq<Option<Gamepad>>)
      requires Valid()
      modifies this
      ensures Valid()
      ensures ActivePad(pads).Some? ==>
        var pad := ActivePad(pads).value;
        var levels := GamepadLevels(Vertical(pad));
        && controllerConnected
        && throttleLevel == levels.throttle && brakeLevel == levels.brake
        && controlCalls == old(controlCalls) + [SendGamepadCommand([
             ("throttle", Number(levels.throttle as real)),
             ("brake", Number(levels.brake as real)),
             ("buttons", FlagList(pad.buttons))])]
        && manualInputs == old(manualInputs) + [levels]
        && lastManualThrottle == old(lastManualThrottle) && lastManualBrake == old(lastManualBrake)
      ensures ActivePad(pads).None? ==>
        && !controllerConnected
        && throttleLevel == KeyThrottle(pressedKeys) && brakeLevel == KeyBrake(pressedKeys)
        && lastManualThrottle == KeyThrottle(pressedKeys) && lastManualBrake == KeyBrake(pressedKeys)
        && manualInputs == old(manualInputs) + [ManualInput(0, 0), ManualInput(KeyThrottle(pressedKeys), KeyBrake(pressedKeys))]
        && controlCalls == old(controlCalls)
      ensures pressedKeys == old(pressedKeys) && driveMode == old(driveMode) && steeringMode == old(steeringMode)
      ensures cameraFeeds == old(cameraFeeds) && mainFeed == old(mainFeed)
    {
      var activePad := ActivePad(pads);
      if activePad.Some? {
        controllerConnected := true;
        var levels := GamepadLevels(Vertical(activePad.value));
        throttleLevel := levels.throttle;
        brakeLevel := levels.brake;
        controlCalls := controlCalls + [SendGamepadCommand([
          ("throttle", Number(throttleLevel as real)),
          ("brake", Number(brakeLevel as real)),
          ("buttons", FlagList(activePad.value.buttons))])];
        manualInputs := manualInputs + [ManualInput(throttleLevel, brakeLevel)];
      } else {
        controllerConnected := false;
        throttleLevel := 0;
        brakeLevel := 0;
        manualInputs := manualInputs + [ManualInput(0, 0)];
        lastManualThrottle := -1;
        lastManualBrake := -1;
        SyncAfterResetPublishes(Manual(), pressedKeys);
        SyncManualInput();
      }
    }
  }
}
