/**
 * The command transport of the `src/main` console
 * (`src/main/frontend/src/app/services/control.service.ts`). Every public send
 * method wraps its data in an envelope `{type: tag, ...data}`, makes sure a
 * socket exists (creating one lazily), and transmits the envelope only while
 * that socket is OPEN; otherwise the envelope is dropped.
 *
 * The socket is modelled by its `readyState` alone. Whether the `WebSocket`
 * constructor throws is a parameter of each send, and the browser's state
 * changes of the socket are a separate operation. The serialised payload is
 * the envelope itself: `JSON.stringify` is not part of this model.
 *
 * An object is its properties in insertion order. JavaScript enumerates
 * integer-like property names ("0", "17") before all others, in ascending
 * order; `IsIntegerKey` names them, and `FixedMethodKeysAreNotIntegers`
 * shows that only a gamepad command's free-form fields can hold one.
 */
module ControlTransport {
  import opened Common

  /** The values the commands carry. */
  datatype Value = Text(text: string) | Number(number: real) | TextList(texts: seq<string>) | FlagList(flags: seq<bool>)

  /** A JavaScript object literal: its own properties in insertion order. */
  type Fields = seq<(string, Value)>

  datatype DriveCommand = DriveCommand(keys: seq<string>, driveMode: string, steeringMode: string)

  /** The public send methods of the service, one constructor each, with their arguments. */
  datatype ControlCall =
    | SendDriveCommand(command: DriveCommand)
    | SendGamepadCommand(fields: Fields)
    | SendCameraVector(x: real, y: real)
    | SetDriveMode(mode: string)
    | CycleDriveMode
    | SetSteeringMode(mode: string)
    | CycleSteeringMode
    | PanCamera(direction: string)
    | SelectCamera(cameraId: string)
    | ToggleLedFront
    | ToggleLedSweep
    | ToggleLaserFront
    | ToggleLaserSweep
    | SetLedIntensity(level: real)
    | CycleDisplayProfile

  datatype ReadyState = Connecting | Open | Closing | Closed

  /** The type tag each send method passes to `sendMessage`. */
  function Tag(call: ControlCall): string
  {
    match call
    case SendDriveCommand(_) => "drive"
    case SendGamepadCommand(_) => "gamepad"
    case SendCameraVector(_, _) => "camera-vector"
    case SetDriveMode(_) => "mode"
    case CycleDriveMode => "mode-cycle"
    case SetSteeringMode(_) => "steering"
    case CycleSteeringMode => "steering-cycle"
    case PanCamera(_) => "camera-pan"
    case SelectCamera(_) => "camera-select"
    case ToggleLedFront => "led-toggle"
    case ToggleLedSweep => "led-toggle"
    case ToggleLaserFront => "laser-toggle"
    case ToggleLaserSweep => "laser-toggle"
    case SetLedIntensity(_) => "led-intensity"
    case CycleDisplayProfile => "display-profile-cycle"
  }

  /** The data object each send method passes (the empty object when it passes none). */
  function Data(call: ControlCall): Fields
  {
    match call
    case SendDriveCommand(c) =>
      [("keys", TextList(c.keys)), ("driveMode", Text(c.driveMode)), ("steeringMode", Text(c.steeringMode))]
    case SendGamepadCommand(fields) => fields
    case SendCameraVector(x, y) => [("x", Number(x)), ("y", Number(y))]
    case SetDriveMode(mode) => [("mode", Text(mode))]
    case CycleDriveMode => []
    case SetSteeringMode(mode) => [("mode", Text(mode))]
    case CycleSteeringMode => []
    case PanCamera(direction) => [("direction", Text(direction))]
    case SelectCamera(cameraId) => [("cameraId", Text(cameraId))]
    case ToggleLedFront => [("target", Text("front"))]
    case ToggleLedSweep => [("target", Text("sweep"))]
    case ToggleLaserFront => [("target", Text("front"))]
    case ToggleLaserSweep => [("target", Text("sweep"))]
    case SetLedIntensity(level) => [("value", Number(level))]
    case CycleDisplayProfile => []
  }

  /** The position of property `key` in the object, if it has one. */
  function IndexOf(obj: Fields, key: string): (r: Option<nat>)
    ensures r.None? ==> forall i :: 0 <= i < |obj| ==> obj[i].0 != key
    ensures r.Some? ==> r.value < |obj| && obj[r.value].0 == key
  {
    if obj == [] then None
    else if obj[|obj| - 1].0 == key then Some(|obj| - 1)
    else IndexOf(obj[..|obj| - 1], key)
  }

  /**
   * Assigning property `key` of an object: an existing property keeps its
   * position and takes the new value, a new one is added at the end.
   */
  function Put(obj: Fields, key: string, value: Value): Fields
  {
    match IndexOf(obj, key)
    case Some(i) => obj[i := (key, value)]
    case None => obj + [(key, value)]
  }

  /** The object spread `{...obj, ...data}`: the properties of `data` assigned in order. */
  function Spread(obj: Fields, data: Fields): Fields
    decreases |data|
  {
    if data == [] then obj else Spread(Put(obj, data[0].0, data[0].1), data[1..])
  }

  /**
   * The envelope `{ type, ...data }` that `sendMessage` serialises; in
   * insertion order, whatever the data, `type` is its first property.
   */
  function Envelope(call: ControlCall): (r: Fields)
    ensures |r| >= 1 && r[0].0 == "type"
  {
    SpreadKeepsExistingKeys([("type", Text(Tag(call)))], Data(call));
    Spread([("type", Text(Tag(call)))], Data(call))
  }

  /** No property of `data` is a property of `obj`, and no property occurs twice in `data`. */
  predicate Fresh(obj: Fields, data: Fields)
  {
    && (forall i, j :: 0 <= i < |data| && 0 <= j < |obj| ==> data[i].0 != obj[j].0)
    && (forall i, j :: 0 <= i < j < |data| ==> data[i].0 != data[j].0)
  }

  lemma FreshAfterFirst(obj: Fields, data: Fields)
    requires data != [] && Fresh(obj, data)
    ensures Fresh(obj + [data[0]], data[1..])
  {
    var next := obj + [data[0]];
    var rest := data[1..];
    forall i, j | 0 <= i < |rest| && 0 <= j < |next|
      ensures rest[i].0 != next[j].0
    {
      assert rest[i] == data[i + 1];
      if j < |obj| {
        assert next[j] == obj[j];
      } else {
        assert next[j] == data[0];
      }
    }
    forall i, j | 0 <= i < j < |rest|
      ensures rest[i].0 != rest[j].0
    {
      assert rest[i] == data[i + 1] && rest[j] == data[j + 1];
    }
  }

  /** Assigning a property the object lacks appends it. */
  lemma PutFreshAppends(obj: Fields, key: string, value: Value)
    requires forall j :: 0 <= j < |obj| ==> obj[j].0 != key
    ensures Put(obj, key, value) == obj + [(key, value)]
  {
  }

  /** The first step of a spread of fresh properties appends the first one. */
  lemma SpreadFreshStep(obj: Fields, data: Fields)
    requires data != [] && Fresh(obj, data)
    ensures Spread(obj, data) == Spread(obj + [data[0]], data[1..])
  {
    assert forall j :: 0 <= j < |obj| ==> obj[j].0 != data[0].0;
    PutFreshAppends(obj, data[0].0, data[0].1);
  }

  lemma AppendFirst(obj: Fields, data: Fields)
    requires data != []
    ensures (obj + [data[0]]) + data[1..] == obj + data
  {
    assert data == [data[0]] + data[1..];
  }

  /** Spreading properties the object lacks, all distinct, appends them in order. */
  lemma {:induction false} SpreadFreshAppends(obj: Fields, data: Fields)
    requires Fresh(obj, data)
    ensures Spread(obj, data) == obj + data
    decreases |data|
  {
    if data != [] {
      SpreadFreshStep(obj, data);
      FreshAfterFirst(obj, data);
      SpreadFreshAppends(obj + [data[0]], data[1..]);
      AppendFirst(obj, data);
    }
  }

  lemma PutKeepsKeys(obj: Fields, key: string, value: Value)
    ensures |Put(obj, key, value)| >= |obj|
    ensures forall i :: 0 <= i < |obj| ==> Put(obj, key, value)[i].0 == obj[i].0
  {
  }

  /** Spreading never moves a property the object already has: new ones only come at the end. */
  lemma {:induction false} SpreadKeepsExistingKeys(obj: Fields, data: Fields)
    ensures |Spread(obj, data)| >= |obj|
    ensures forall i :: 0 <= i < |obj| ==> Spread(obj, data)[i].0 == obj[i].0
    decreases |data|
  {
    if data != [] {
      var next := Put(obj, data[0].0, data[0].1);
      PutKeepsKeys(obj, data[0].0, data[0].1);
      SpreadKeepsExistingKeys(next, data[1..]);
    }
  }

  /**
   * The envelope of every method except the gamepad command is the tag
   * followed by the method's own data fields, in order.
   */
  lemma EnvelopeOfFixedMethod(call: ControlCall)
    requires !call.SendGamepadCommand?
    ensures Envelope(call) == [("type", Text(Tag(call)))] + Data(call)
  {
    var data := Data(call);
    SpreadFreshAppends([("type", Text(Tag(call)))], data);
  }

  /**
   * Apart from gamepad commands, whose fields are free, the envelope tells
   * the call apart: two calls with the same envelope are the same call.
   */
  lemma EnvelopeIdentifiesCall(a: ControlCall, b: ControlCall)
    requires !a.SendGamepadCommand? && !b.SendGamepadCommand?
    ensures Envelope(a) == Envelope(b) ==> a == b
  {
    EnvelopeOfFixedMethod(a);
    EnvelopeOfFixedMethod(b);
    if Envelope(a) == Envelope(b) {
      assert Envelope(a)[0] == Envelope(b)[0];
      assert Tag(a) == Tag(b);
      assert Envelope(a)[1..] == Data(a);
      assert Envelope(b)[1..] == Data(b);
    }
  }

  /**
   * A property name JavaScript enumerates ahead of insertion order: the
   * decimal text of a non-negative integer, without leading zeros.
   */
  predicate IsIntegerKey(key: string)
  {
    && |key| > 0
    && (forall i :: 0 <= i < |key| ==> '0' <= key[i] <= '9')
    && (key[0] == '0' ==> |key| == 1)
  }

  /**
   * The tag and every data property of the fixed send methods are ordinary
   * names, so for them insertion order is JavaScript's enumeration order.
   */
  lemma FixedMethodKeysAreNotIntegers(call: ControlCall)
    requires !call.SendGamepadCommand?
    ensures forall i :: 0 <= i < |Envelope(call)| ==> !IsIntegerKey(Envelope(call)[i].0)
  {
    EnvelopeOfFixedMethod(call);
    var e := Envelope(call);
    forall i | 0 <= i < |e|
      ensures !IsIntegerKey(e[i].0)
    {
      assert !('0' <= e[i].0[0] <= '9');
    }
  }

  /** A gamepad command carrying a field named `type` replaces the tag in place. */
  lemma {:induction false} GamepadTypeFieldOverwritesTag(value: Value)
    ensures Envelope(SendGamepadCommand([("type", value)])) == [("type", value)]
  {
    var call := SendGamepadCommand([("type", value)]);
    var data := Data(call);
    assert IndexOf([("type", Text(Tag(call)))], "type") == Some(0);
    assert Put([("type", Text(Tag(call)))], data[0].0, data[0].1) == [("type", value)];
    assert data[1..] == [];
    assert Envelope(call) == Spread([("type", value)], data[1..]);
  }

  /** The socket after `ensureConnection`: kept when OPEN or CONNECTING, otherwise a new CONNECTING one, or none if construction throws. */
  function SocketAfterEnsure(socket: Option<ReadyState>, constructionFails: bool): (r: Option<ReadyState>)
    ensures socket == Some(Open) || socket == Some(Connecting) ==> r == socket
    ensures !(socket == Some(Open) || socket == Some(Connecting)) ==>
      r == (if constructionFails then None else Some(Connecting))
  {
    if socket.Some? && (socket.value == Open || socket.value == Connecting) then socket
    else if constructionFails then None
    else Some(Connecting)
  }

  /** `dispatch` transmits exactly when a socket exists and is OPEN. */
  predicate Transmits(socket: Option<ReadyState>)
  {
    socket.Some? && socket.value == Open
  }

  /**
   * A send transmits exactly when the socket was already OPEN before it: a
   * send that had to create the socket never transmits its own message.
   */
  lemma {:induction false} SendTransmitsOnlyOverOpenSocket(socket: Option<ReadyState>, constructionFails: bool)
    ensures Transmits(SocketAfterEnsure(socket, constructionFails)) <==> socket == Some(Open)
  {
  }

  class ControlService {
    var socket: Option<ReadyState>
    /** How many `WebSocket`s have been constructed successfully. */
    var socketsCreated: nat
    /** The envelopes handed to `socket.send`, in order. */
    var transmitted: seq<Fields>
    /** The envelopes only logged because no OPEN socket existed. */
    var dropped: seq<Fields>

    constructor ()
      ensures socket == None && socketsCreated == 0 && transmitted == [] && dropped == []
    {
      socket := None;
      socketsCreated := 0;
      transmitted := [];
      dropped := [];
    }

    method EnsureConnection(constructionFails: bool)
      modifies this
      ensures socket == SocketAfterEnsure(old(socket), constructionFails)
      ensures socketsCreated == old(socketsCreated) + (if old(socket) != socket && socket.Some? then 1 else 0)
      ensures transmitted == old(transmitted) && dropped == old(dropped)
    {
      if socket.Some? && (socket.value == Open || socket.value == Connecting) {
        return;
      }
      if constructionFails {
        socket := None;
      } else {
        socket := Some(Connecting);
        socketsCreated := socketsCreated + 1;
      }
    }

    method Dispatch(payload: Fields)
      modifies this
      ensures Transmits(socket) ==> transmitted == old(transmitted) + [payload] && dropped == old(dropped)
      ensures !Transmits(socket) ==> dropped == old(dropped) + [payload] && transmitted == old(transmitted)
      ensures socket == old(socket) && socketsCreated == old(socketsCreated)
    {
      if socket.Some? && socket.value == Open {
        transmitted := transmitted + [payload];
      } else {
        dropped := dropped + [payload];
      }
    }

    /** `sendMessage(type, data)` as each public send method calls it. */
    method Send(call: ControlCall, constructionFails: bool)
      modifies this
      ensures socket == SocketAfterEnsure(old(socket), constructionFails)
      ensures old(socket) == Some(Open) ==> transmitted == old(transmitted) + [Envelope(call)] && dropped == old(dropped)
      ensures old(socket) != Some(Open) ==> dropped == old(dropped) + [Envelope(call)] && transmitted == old(transmitted)
      ensures var reused := old(socket) == Some(Open) || old(socket) == Some(Connecting);
        socketsCreated == old(socketsCreated) + (if !reused && !constructionFails then 1 else 0)
    {
      EnsureConnection(constructionFails);
      SendTransmitsOnlyOverOpenSocket(old(socket), constructionFails);
      Dispatch(Envelope(call));
    }

    /** The browser moving the socket to another `readyState` (opening, closing, closed). */
    method ObserveReadyState(state: ReadyState)
      requires socket.Some?
      modifies this
      ensures socket == Some(state)
      ensures socketsCreated == old(socketsCreated) && transmitted == old(transmitted) && dropped == old(dropped)
    {
      socket := Some(state);
    }
  }
}
