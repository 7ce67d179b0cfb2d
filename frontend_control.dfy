/**
 * The control-state service of the `frontend` console
 * (`frontend/src/app/services/control.service.ts`). A subject holds the
 * current `ControlState`; every setter clones it, changes one field of the
 * clone and publishes the clone. Commands go over the control socket when one
 * was created, and as an HTTP POST otherwise.
 *
 * The socket and the HTTP client are modelled by the messages handed to
 * them, in order; `Date.now()` is the parameter `now`. Whether creating the
 * socket throws is a parameter of the constructor.
 */
module FrontendControl {
  import opened Common
  import opened TelemetryModel

  /** `ControlState`; the key set is a value, so a clone never shares it with the original. */
  datatype ControlState = ControlState(
    throttle: real,
    brake: real,
    activeKeys: set<string>,
    driveMode: DriveMode,
    steeringMode: SteeringMode)

  datatype CommandSource = Keyboard | GamepadInput | Ui

  /** `ControlCommandPayload`. */
  datatype ControlCommand = ControlCommand(source: CommandSource, command: string, value: Option<real>, timestamp: int)

  /** The payloads the service sends out. */
  datatype Payload =
    | Command(command: ControlCommand)
    | CameraAdjustment(panDelta: real, tiltDelta: real, timestamp: int)
    | ModeChange(driveMode: DriveMode)
    | SteeringChange(steeringMode: SteeringMode)

  datatype Post = Post(url: string, body: Payload)

  function InitialState(): (s: ControlState)
    ensures s.throttle == 0.0 && s.brake == 0.0 && s.activeKeys == {}
    ensures s.driveMode == Normal && s.steeringMode == TwoWheel
  {
    ControlState(0.0, 0.0, {}, Normal, TwoWheel)
  }

  /** The key set after `add` (when active) or `delete` (when not) of the lowercased key. */
  function WithKey(keys: set<string>, key: string, isActive: bool): (r: set<string>)
    ensures ToLower(key) in r <==> isActive
    ensures forall k :: k != ToLower(key) ==> (k in r <==> k in keys)
  {
    if isActive then keys + {ToLower(key)} else keys - {ToLower(key)}
  }

  /** Setting a key's state twice is the same as setting it once, and the last call decides. */
  lemma WithKeyIdempotent(keys: set<string>, key: string, isActive: bool, again: bool)
    ensures WithKey(WithKey(keys, key, isActive), key, isActive) == WithKey(keys, key, isActive)
    ensures WithKey(WithKey(keys, key, isActive), key, again) == WithKey(keys, key, again)
  {
  }

  class ControlService {
    /** The value `controlState$` holds. */
    var state: ControlState
    /** Every state the subject has emitted, oldest first. */
    var published: seq<ControlState>
    /** Whether `controlSocket$` is defined. */
    var socketCreated: bool
    var socketMessages: seq<Payload>
    var httpPosts: seq<Post>

    /** The current state is the last one emitted. */
    ghost predicate Valid()
      reads this
    {
      |published| >= 1 && published[|published| - 1] == state
    }

    /** `initializeSocket`: the socket exists unless creating it throws. */
    constructor (socketCreationThrows: bool)
      ensures Valid()
      ensures state == InitialState() && published == [InitialState()]
      ensures socketCreated == !socketCreationThrows
      ensures socketMessages == [] && httpPosts == []
    {
      state := InitialState();
      published := [InitialState()];
      socketCreated := !socketCreationThrows;
      socketMessages := [];
      httpPosts := [];
    }

    /** `dispatchControlCommand`: over the socket when there is one, otherwise as a POST to `/api/control`; never both. */
    method DispatchControlCommand(payload: ControlCommand)
      modifies this
      ensures socketCreated ==> socketMessages == old(socketMessages) + [Command(payload)] && httpPosts == old(httpPosts)
      ensures !socketCreated ==> httpPosts == old(httpPosts) + [Post("/api/control", Command(payload))] && socketMessages == old(socketMessages)
      ensures state == old(state) && published == old(published) && socketCreated == old(socketCreated)
    {
      if socketCreated {
        socketMessages := socketMessages + [Command(payload)];
        return;
      }
      httpPosts := httpPosts + [Post("/api/control", Command(payload))];
    }

    /** Publishes the clone with the key added or removed, then sends a keyboard command, whether or not the set changed. */
    method SetKeyboardKeyState(key: string, isActive: bool, now: int)
      requires Valid()
      modifies this
      ensures Valid()
      ensures state == old(state).(activeKeys := WithKey(old(state).activeKeys, key, isActive))
      ensures published == old(published) + [state]
      ensures var command := Command(ControlCommand(Keyboard, ToLower(key), None, now));
        && (socketCreated ==> socketMessages == old(socketMessages) + [command] && httpPosts == old(httpPosts))
        && (!socketCreated ==> httpPosts == old(httpPosts) + [Post("/api/control", command)] && socketMessages == old(socketMessages))
      ensures socketCreated == old(socketCreated)
    {
      var lowerKey := ToLower(key);
      var clone := state;
      if isActive {
        clone := clone.(activeKeys := clone.activeKeys + {lowerKey});
      } else {
        clone := clone.(activeKeys := clone.activeKeys - {lowerKey});
      }
      state := clone;
      published := published + [clone];
      DispatchControlCommand(ControlCommand(Keyboard, lowerKey, None, now));
    }

    method SetThrottle(throttle: real, now: int)
      requires Valid()
      modifies this
      ensures Valid()
      ensures state == old(state).(throttle := throttle)
      ensures published == old(published) + [state]
      ensures var command := Command(ControlCommand(GamepadInput, "throttle", Some(throttle), now));
        && (socketCreated ==> socketMessages == old(socketMessages) + [command] && httpPosts == old(httpPosts))
        && (!socketCreated ==> httpPosts == old(httpPosts) + [Post("/api/control", command)] && socketMessages == old(socketMessages))
      ensures socketCreated == old(socketCreated)
    {
      state := state.(throttle := throttle);
      published := published + [state];
      DispatchControlCommand(ControlCommand(GamepadInput, "throttle", Some(throttle), now));
    }

    method SetBrake(brake: real, now: int)
      requires Valid()
      modifies this
      ensures Valid()
      ensures state == old(state).(brake := brake)
      ensures published == old(published) + [state]
      ensures var command := Command(ControlCommand(GamepadInput, "brake", Some(brake), now));
        && (socketCreated ==> socketMessages == old(socketMessages) + [command] && httpPosts == old(httpPosts))
        && (!socketCreated ==> httpPosts == old(httpPosts) + [Post("/api/control", command)] && socketMessages == old(socketMessages))
      ensures socketCreated == old(socketCreated)
    {
      state := state.(brake := brake);
      published := published + [state];
      DispatchControlCommand(ControlCommand(GamepadInput, "brake", Some(brake), now));
    }

    /** Publishes the new mode, even when it equals the current one, and POSTs it to `/api/mode`. */
    method UpdateDriveMode(mode: DriveMode)
      requires Valid()
      modifies this
      ensures Valid()
      ensures state == old(state).(driveMode := mode)
      ensures published == old(published) + [state]
      ensures httpPosts == old(httpPosts) + [Post("/api/mode", ModeChange(mode))]
      ensures socketMessages == old(socketMessages) && socketCreated == old(socketCreated)
    {
      state := state.(driveMode := mode);
      published := published + [state];
      httpPosts := httpPosts + [Post("/api/mode", ModeChange(mode))];
    }

    method UpdateSteeringMode(mode: SteeringMode)
      requires Valid()
      modifies this
      ensures Valid()
      ensures state == old(state).(steeringMode := mode)
      ensures published == old(published) + [state]
      ensures httpPosts == old(httpPosts) + [Post("/api/steering", SteeringChange(mode))]
      ensures socketMessages == old(socketMessages) && socketCreated == old(socketCreated)
    {
      state := state.(steeringMode := mode);
      published := published + [state];
      httpPosts := httpPosts + [Post("/api/steering", SteeringChange(mode))];
    }

    /** Sends a pan/tilt adjustment along the same single route as the commands; the state is untouched. */
    method AdjustCamera(panDelta: real, tiltDelta: real, now: int)
      modifies this
      ensures var payload := CameraAdjustment(panDelta, tiltDelta, now);
        && (socketCreated ==> socketMessages == old(socketMessages) + [payload] && httpPosts == old(httpPosts))
        && (!socketCreated ==> httpPosts == old(httpPosts) + [Post("/api/control", payload)] && socketMessages == old(socketMessages))
      ensures state == old(state) && published == old(published) && socketCreated == old(socketCreated)
    {
      var payload := CameraAdjustment(panDelta, tiltDelta, now);
      if socketCreated {
        socketMessages := socketMessages + [payload];
      } else {
        httpPosts := httpPosts + [Post("/api/control", payload)];
      }
    }
  }
}
