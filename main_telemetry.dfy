/**
 * The mock telemetry source of the dashboard front-end
 * (`src/main/frontend/.../services/telemetry.service.ts`): a service that,
 * while connected, produces one synthetic snapshot per tick from the previous
 * one, and that also takes out-of-band operator input (throttle and brake
 * percentages, and a yaw override that holds for 600 ms).
 *
 * The random draws of a tick and the clock are parameters.
 */
module MainTelemetry {
  import opened Common

  datatype Position = Position(lat: real, lon: real)
  datatype Orientation = Orientation(roll: real, pitch: real, yaw: real)
  datatype TemperatureReading = TemperatureReading(labelText: string, value: real)

  /** The snapshot the service publishes; `timestamp` is the clock reading in milliseconds. */
  datatype Snapshot = Snapshot(
    timestamp: int,
    position: Position,
    heading: real,
    orientation: Orientation,
    temperatures: seq<TemperatureReading>,
    acceleration: seq<real>,
    braking: seq<real>,
    speed: real,
    battery: real)

  /** The operator's yaw override and the clock reading at which it lapses. */
  datatype ManualYaw = ManualYaw(value: real, expiresAt: int)

  /** The `Math.random()` draws one tick consumes, one per temperature reading included. */
  datatype TickDraws = TickDraws(
    heading: Unit, roll: Unit, pitch: Unit, yaw: Unit,
    speed: Unit, accel: Unit, brake: Unit, temperatures: seq<Unit>)

  /** What a tick computes: the next snapshot and the override that survives it. */
  datatype TickResult = TickResult(snapshot: Snapshot, manualYaw: Option<ManualYaw>)

  const HistoryLength: nat := 20
  const ManualYawHoldMs: int := 600

  /** `Math.min(Math.max(value, min), max)`. */
  function Clamp(value: real, min: real, max: real): (r: real)
    ensures min <= max ==> min <= r <= max
    ensures min <= value <= max ==> r == value
    ensures min <= max && value < min ==> r == min
    ensures min <= max && value > max ==> r == max
  {
    Min(Max(value, min), max)
  }

  /** The angle brought into [0, 360) by the remainder and one correction. */
  function NormalizeAngle(angle: real): (r: real)
    ensures 0.0 <= r < 360.0
    ensures r == angle - (angle / 360.0).Floor as real * 360.0
  {
    var normalized := Mod360(angle);
    NonNegativeRemainder(angle);
    if normalized < 0.0 then normalized + 360.0 else normalized
  }

  function GenerateSeries(length: nat, generator: nat -> real): (r: seq<real>)
    ensures |r| == length
    ensures forall i :: 0 <= i < length ==> r[i] == generator(i)
  {
    seq(length, i requires 0 <= i < length => generator(i))
  }

  /**
   * The copy of `series` without its first element (when it has one) and with
   * `value` appended; the argument itself is a value and is never changed.
   */
  function ShiftAndAppend(series: seq<real>, value: real): (r: seq<real>)
    ensures series != [] ==> |r| == |series| && r[..|r| - 1] == series[1..]
    ensures series == [] ==> r == [value]
    ensures r[|r| - 1] == value
  {
    var copy := if |series| > 0 then series[1..] else series;
    copy + [value]
  }

  /**
   * The first snapshot. `sine` stands for `Math.sin`, which shapes the
   * initial braking series.
   */
  function InitialSnapshot(now: int, sine: real -> real): (s: Snapshot)
    ensures |s.acceleration| == HistoryLength && |s.braking| == HistoryLength
    ensures forall i :: 0 <= i < HistoryLength ==> s.acceleration[i] == 2.0 * i as real
    ensures forall i :: 0 <= i < HistoryLength ==> 0.0 <= s.braking[i]
    ensures s.heading == 0.0 && s.orientation == Orientation(0.0, 0.0, 0.0)
    ensures |s.temperatures| == 2 && s.speed == 18.0 && s.battery == 86.0
  {
    Snapshot(
      now,
      Position(48.1351, 11.582),
      0.0,
      Orientation(0.0, 0.0, 0.0),
      [TemperatureReading("Temp #1", 32.5), TemperatureReading("Temp #3", 36.1)],
      GenerateSeries(HistoryLength, (i: nat) => i as real * 2.0),
      GenerateSeries(HistoryLength, (i: nat) => Max(0.0, sine(i as real * 0.4)) * 30.0),
      18.0,
      86.0)
  }

  /** True while `manualYaw` is an override that has not lapsed at `now`. */
  predicate OverrideActive(manualYaw: Option<ManualYaw>, now: int)
  {
    manualYaw.Some? && manualYaw.value.expiresAt > now
  }

  /** One mock tick: the snapshot that follows `previous`, given the tick counter, the override and the draws. */
  function MockUpdate(previous: Snapshot, mockIndex: nat, manualYaw: Option<ManualYaw>, now: int, d: TickDraws): (r: TickResult)
    requires |d.temperatures| == |previous.temperatures|
    ensures r.snapshot.timestamp == now
    ensures |r.snapshot.temperatures| == |previous.temperatures|
    ensures r.manualYaw == None || r.manualYaw == manualYaw
  {
    var heading := Mod360(previous.heading + 5.0 + d.heading * 4.0);
    var randomYaw := Mod360(previous.orientation.yaw + (d.yaw * 6.0 - 3.0));
    var active := OverrideActive(manualYaw, now);
    var orientation := Orientation(
      Clamp(previous.orientation.roll + (d.roll * 4.0 - 2.0), -10.0, 10.0),
      Clamp(previous.orientation.pitch + (d.pitch * 3.0 - 1.5), -8.0, 8.0),
      if active then manualYaw.value.value else randomYaw);
    var displacement := mockIndex as real * 0.0001;
    var position := Position(
      previous.position.lat + displacement * 0.3,
      previous.position.lon + displacement * 0.25);
    var speed := Clamp(previous.speed + (d.speed * 4.0 - 2.0), 0.0, 42.0);
    var battery := Clamp(previous.battery - 0.05, 20.0, 100.0);
    var accelValue := Clamp(Max(0.0, speed * 1.4) + d.accel * 5.0, 0.0, 100.0);
    var brakeValue := Clamp(Max(0.0, (40.0 - speed) * 1.1 + d.brake * 3.0), 0.0, 100.0);
    var temperatures := seq(|previous.temperatures|, i requires 0 <= i < |previous.temperatures| =>
      previous.temperatures[i].(value := Clamp(previous.temperatures[i].value + (d.temperatures[i] as real * 1.2 - 0.6), 20.0, 72.0)));
    TickResult(
      Snapshot(
        now, position, heading, orientation, temperatures,
        ShiftAndAppend(previous.acceleration, accelValue),
        ShiftAndAppend(previous.braking, brakeValue),
        speed, battery),
      if active then manualYaw else None)
  }

  /** The bounds a tick keeps, whatever the draws. */
  lemma {:induction false} MockUpdateBounds(previous: Snapshot, mockIndex: nat, manualYaw: Option<ManualYaw>, now: int, d: TickDraws)
    requires |d.temperatures| == |previous.temperatures|
    ensures var n := MockUpdate(previous, mockIndex, manualYaw, now, d).snapshot;
      && -10.0 <= n.orientation.roll <= 10.0
      && -8.0 <= n.orientation.pitch <= 8.0
      && 0.0 <= n.speed <= 42.0
      && 20.0 <= n.battery <= 100.0
      && (previous.battery >= 20.0 ==> n.battery <= previous.battery)
      && 0.0 <= n.acceleration[|n.acceleration| - 1] <= 100.0
      && 0.0 <= n.braking[|n.braking| - 1] <= 100.0
      && |n.temperatures| == |previous.temperatures|
      && (forall i :: 0 <= i < |n.temperatures| ==>
            n.temperatures[i].labelText == previous.temperatures[i].labelText
            && 20.0 <= n.temperatures[i].value <= 72.0)
  {
  }

  /** Heading and position: the heading turns by 5 to 9 degrees and stays a bearing; the position drifts by `mockIndex`/10000. */
  lemma MockUpdateMotion(previous: Snapshot, mockIndex: nat, manualYaw: Option<ManualYaw>, now: int, d: TickDraws)
    requires |d.temperatures| == |previous.temperatures|
    requires previous.heading >= 0.0
    ensures var n := MockUpdate(previous, mockIndex, manualYaw, now, d).snapshot;
      && 0.0 <= n.heading < 360.0
      && n.heading == Mod360(previous.heading + 5.0 + 4.0 * d.heading)
      && n.position.lat - previous.position.lat == mockIndex as real * 0.0001 * 0.3
      && n.position.lon - previous.position.lon == mockIndex as real * 0.0001 * 0.25
  {
  }

  /** The yaw override: an unexpired one pins the yaw exactly and survives; otherwise it is discarded. */
  lemma MockUpdateOverride(previous: Snapshot, mockIndex: nat, manualYaw: Option<ManualYaw>, now: int, d: TickDraws)
    requires |d.temperatures| == |previous.temperatures|
    ensures var r := MockUpdate(previous, mockIndex, manualYaw, now, d);
      && (OverrideActive(manualYaw, now) ==> r.snapshot.orientation.yaw == manualYaw.value.value && r.manualYaw == manualYaw)
      && (!OverrideActive(manualYaw, now) ==> r.manualYaw == None && -360.0 < r.snapshot.orientation.yaw < 360.0)
  {
  }

  /** The windows keep their length through a tick. */
  lemma MockUpdateKeepsWindows(previous: Snapshot, mockIndex: nat, manualYaw: Option<ManualYaw>, now: int, d: TickDraws)
    requires |d.temperatures| == |previous.temperatures|
    requires |previous.acceleration| == HistoryLength && |previous.braking| == HistoryLength
    ensures var n := MockUpdate(previous, mockIndex, manualYaw, now, d).snapshot;
      && n.acceleration == previous.acceleration[1..] + [n.acceleration[HistoryLength - 1]]
      && n.braking == previous.braking[1..] + [n.braking[HistoryLength - 1]]
  {
  }

  /**
   * `applyManualInput`: throttle and brake clamped to [0,100] enter the
   * windows, the speed is nudged, and only the timestamp changes besides.
   */
  function ManualInputSnapshot(current: Snapshot, throttlePercent: real, brakePercent: real, now: int): (s: Snapshot)
    ensures var throttle := Clamp(throttlePercent, 0.0, 100.0);
      var brake := Clamp(brakePercent, 0.0, 100.0);
      && 0.0 <= throttle <= 100.0 && 0.0 <= brake <= 100.0
      && s.acceleration == ShiftAndAppend(current.acceleration, throttle)
      && s.braking == ShiftAndAppend(current.braking, brake)
      && s.speed == Clamp(current.speed + throttle * 0.05 - brake * 0.06, 0.0, 60.0)
    ensures 0.0 <= s.speed <= 60.0
    ensures s.timestamp == now
    ensures s.position == current.position && s.heading == current.heading
    ensures s.orientation == current.orientation && s.temperatures == current.temperatures
    ensures s.battery == current.battery
  {
    var throttle := Clamp(throttlePercent, 0.0, 100.0);
    var brake := Clamp(brakePercent, 0.0, 100.0);
    current.(
      timestamp := now,
      acceleration := ShiftAndAppend(current.acceleration, throttle),
      braking := ShiftAndAppend(current.braking, brake),
      speed := Clamp(current.speed + throttle * 0.05 - brake * 0.06, 0.0, 60.0))
  }

  class TelemetryService {
    /** The subject's current value. */
    var current: Snapshot
    /** How many values the subject has emitted, the initial one included. */
    var publishCount: nat
    /** The running interval subscription, by number; `None` when disconnected. */
    var mockSubscription: Option<nat>
    /** How many interval subscriptions have been started. */
    var subscriptionsStarted: nat
    var mockIndex: nat
    var manualYawState: Option<ManualYaw>

    /** The windows hold 20 values and the heading is a non-negative bearing. */
    ghost predicate Valid()
      reads this
    {
      && |current.acceleration| == HistoryLength
      && |current.braking| == HistoryLength
      && 0.0 <= current.heading < 360.0
      && (mockSubscription.Some? ==> mockSubscription.value == subscriptionsStarted)
      && (manualYawState.Some? ==> 0.0 <= manualYawState.value.value < 360.0)
    }

    constructor (now: int, sine: real -> real)
      ensures Valid()
      ensures current == InitialSnapshot(now, sine) && publishCount == 1
      ensures mockSubscription == None && subscriptionsStarted == 0
      ensures mockIndex == 0 && manualYawState == None
    {
      current := InitialSnapshot(now, sine);
      publishCount := 1;
      mockSubscription := None;
      subscriptionsStarted := 0;
      mockIndex := 0;
      manualYawState := None;
    }

    /** Starts the tick loop unless one is already running. */
    method Connect()
      requires Valid()
      modifies this
      ensures Valid()
      ensures old(mockSubscription).Some? ==> mockSubscription == old(mockSubscription) && subscriptionsStarted == old(subscriptionsStarted)
      ensures old(mockSubscription).None? ==> subscriptionsStarted == old(subscriptionsStarted) + 1 && mockSubscription == Some(subscriptionsStarted)
      ensures current == old(current) && publishCount == old(publishCount)
      ensures mockIndex == old(mockIndex) && manualYawState == old(manualYawState)
    {
      if mockSubscription.Some? {
        return;
      }
      subscriptionsStarted := subscriptionsStarted + 1;
      mockSubscription := Some(subscriptionsStarted);
    }

    /** Stops the tick loop; a later `Connect` starts a new one. */
    method Disconnect()
      requires Valid()
      modifies this
      ensures Valid()
      ensures mockSubscription == None && subscriptionsStarted == old(subscriptionsStarted)
      ensures current == old(current) && publishCount == old(publishCount)
      ensures mockIndex == old(mockIndex) && manualYawState == old(manualYawState)
    {
      mockSubscription := None;
    }

    /** One firing of the interval: publish the next snapshot and advance the tick counter. */
    method Tick(now: int, d: TickDraws)
      requires Valid() && mockSubscription.Some?
      requires |d.temperatures| == |current.temperatures|
      modifies this
      ensures Valid()
      ensures var r := MockUpdate(old(current), old(mockIndex), old(manualYawState), now, d);
        current == r.snapshot && manualYawState == r.manualYaw
      ensures mockIndex == old(mockIndex) + 1 && publishCount == old(publishCount) + 1
      ensures mockSubscription == old(mockSubscription) && subscriptionsStarted == old(subscriptionsStarted)
    {
      MockUpdateKeepsWindows(current, mockIndex, manualYawState, now, d);
      MockUpdateMotion(current, mockIndex, manualYawState, now, d);
      MockUpdateOverride(current, mockIndex, manualYawState, now, d);
      var r := MockUpdate(current, mockIndex, manualYawState, now, d);
      current := r.snapshot;
      manualYawState := r.manualYaw;
      publishCount := publishCount + 1;
      mockIndex := mockIndex + 1;
    }

    /** Operator throttle and brake, applied at once and outside the tick loop. */
    method ApplyManualInput(throttlePercent: real, brakePercent: real, now: int)
      requires Valid()
      modifies this
      ensures Valid()
      ensures current == ManualInputSnapshot(old(current), throttlePercent, brakePercent, now)
      ensures publishCount == old(publishCount) + 1
      ensures mockSubscription == old(mockSubscription) && subscriptionsStarted == old(subscriptionsStarted)
      ensures mockIndex == old(mockIndex) && manualYawState == old(manualYawState)
    {
      current := ManualInputSnapshot(current, throttlePercent, brakePercent, now);
      publishCount := publishCount + 1;
    }

    /**
     * Records a yaw override that holds for 600 ms and, when the normalised
     * yaw differs from the current one, republishes with only yaw and
     * timestamp changed.
     */
    method ApplyManualYaw(yawDegrees: real, now: int)
      requires Valid()
      modifies this
      ensures Valid()
      ensures var yaw := NormalizeAngle(yawDegrees);
        && manualYawState == Some(ManualYaw(yaw, now + ManualYawHoldMs))
        && (old(current).orientation.yaw == yaw ==> current == old(current) && publishCount == old(publishCount))
        && (old(current).orientation.yaw != yaw ==>
              current == old(current).(timestamp := now, orientation := old(current).orientation.(yaw := yaw))
              && publishCount == old(publishCount) + 1)
      ensures mockSubscription == old(mockSubscription) && subscriptionsStarted == old(subscriptionsStarted)
      ensures mockIndex == old(mockIndex)
    {
      var yaw := NormalizeAngle(yawDegrees);
      manualYawState := Some(ManualYaw(yaw, now + ManualYawHoldMs));
      if current.orientation.yaw == yaw {
        return;
      }
      current := current.(timestamp := now, orientation := current.orientation.(yaw := yaw));
      publishCount := publishCount + 1;
    }

    method ClearManualYaw()
      requires Valid()
      modifies this
      ensures Valid()
      ensures manualYawState == None
      ensures current == old(current) && publishCount == old(publishCount)
      ensures mockSubscription == old(mockSubscription) && subscriptionsStarted == old(subscriptionsStarted)
      ensures mockIndex == old(mockIndex)
    {
      manualYawState := None;
    }
  }
}
