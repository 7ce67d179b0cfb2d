/**
 * The backend's synthetic telemetry source
 * (`src/main/java/de/jdbcrew/devicebridge/service/TelemetryGenerator.java`):
 * it keeps heading, attitude, position and two 20-entry history deques, and
 * each call of `nextSnapshot` advances them by random steps and returns a
 * snapshot record holding copies of the histories.
 *
 * The generator's `nextDouble` draws are parameters; the `ArrayDeque`s are
 * sequence fields that each call reassigns.
 */
module DeviceBridgeTelemetry {
  import opened Common

  datatype GpsCoordinate = GpsCoordinate(latitude: real, longitude: real)
  datatype Orientation = Orientation(roll: real, pitch: real, yaw: real)
  datatype TemperatureReading = TemperatureReading(labelText: string, value: real)

  /** The `TelemetrySnapshot` record of the backend. */
  datatype TelemetrySnapshot = TelemetrySnapshot(
    gps: GpsCoordinate,
    heading: real,
    orientation: Orientation,
    throttle: real,
    brake: real,
    temps: seq<TemperatureReading>,
    accelerationHistory: seq<real>,
    brakingHistory: seq<real>,
    timestamp: int)

  /** The unit draws behind the ten `nextDouble` calls of one snapshot, in call order. */
  datatype Draws = Draws(
    heading: Unit, roll: Unit, pitch: Unit, yaw: Unit,
    latitude: Unit, longitude: Unit,
    throttle: Unit, brake: Unit,
    temp1: Unit, temp3: Unit)

  const HistoryCapacity: nat := 20

  /** `nextDouble(origin, bound)` for a unit draw: a value in [origin, bound). */
  function NextDouble(draw: Unit, origin: real, bound: real): (r: real)
    requires origin < bound
    ensures origin <= r < bound
  {
    var offset := draw as real * (bound - origin);
    ScaledBelow(draw as real, bound - origin, offset);
    origin + offset
  }

  function Pow10(precision: nat): (r: real)
    ensures r >= 1.0
  {
    if precision == 0 then 1.0 else 10.0 * Pow10(precision - 1)
  }

  /** `Math.round(value * 10^precision) / 10^precision`. */
  function Round(value: real, precision: nat): (r: real)
    ensures value - 0.5 / Pow10(precision) < r <= value + 0.5 / Pow10(precision)
  {
    var scale := Pow10(precision);
    var scaled := HalfUp(value * scale) as real;
    assert scaled / scale - value == (scaled - value * scale) / scale;
    scaled / scale
  }

  /** Rounding to three places keeps a value of [0,1] in [0,1]. */
  lemma {:induction false} RoundThreeKeepsUnitInterval(value: real)
    requires 0.0 <= value <= 1.0
    ensures 0.0 <= Round(value, 3) <= 1.0
  {
    assert Pow10(3) == 1000.0 by {
      assert Pow10(0) == 1.0;
      assert Pow10(1) == 10.0;
      assert Pow10(2) == 100.0;
    }
    var n := HalfUp(value * 1000.0);
    assert 0 <= n <= 1000;
  }

  /** `Math.max(min, Math.min(max, value))`. */
  function Clamp(value: real, min: real, max: real): (r: real)
    ensures min <= max ==> min <= r <= max
    ensures min <= value <= max ==> r == value
  {
    Max(min, Min(max, value))
  }

  /** Brings an angle into [0, 360) by the remainder and one correction. */
  function WrapAngle(angle: real): (r: real)
    ensures 0.0 <= r < 360.0
    ensures r == angle - (angle / 360.0).Floor as real * 360.0
  {
    var wrapped := Mod360(angle);
    NonNegativeRemainder(angle);
    if wrapped < 0.0 then wrapped + 360.0 else wrapped
  }

  /** Wrapping leaves a bearing alone and ignores whole turns, in either direction. */
  lemma {:induction false} WrapAngleFixesBearings(angle: real, turns: int)
    ensures 0.0 <= angle < 360.0 ==> WrapAngle(angle) == angle
    ensures WrapAngle(angle + turns as real * 360.0) == WrapAngle(angle)
  {
    var q := angle / 360.0;
    var shifted := angle + turns as real * 360.0;
    assert shifted / 360.0 == q + turns as real;
    assert (q + turns as real).Floor == q.Floor + turns;
    if 0.0 <= angle < 360.0 {
      assert 0.0 <= q < 1.0;
      assert q.Floor == 0;
    }
  }

  /**
   * The deque after `pushValue`: the head is removed when 20 values are held,
   * then the rounded value is added at the tail.
   */
  function PushValue(deque: seq<real>, value: real): (r: seq<real>)
    ensures |deque| >= HistoryCapacity ==> |r| == |deque| && r == deque[1..] + [Round(value, 2)]
    ensures |deque| < HistoryCapacity ==> r == deque + [Round(value, 2)]
  {
    (if |deque| >= HistoryCapacity then deque[1..] else deque) + [Round(value, 2)]
  }

  /** Pushing any number of values into a full history keeps it full and first-in first-out. */
  lemma {:induction false} PushAllKeepsCapacity(deque: seq<real>, values: seq<real>)
    requires |deque| == HistoryCapacity
    ensures |PushAll(deque, values)| == HistoryCapacity
    ensures |values| >= 1 ==> PushAll(deque, values)[HistoryCapacity - 1] == Round(values[|values| - 1], 2)
    decreases |values|
  {
    if values != [] {
      PushAllKeepsCapacity(deque, values[..|values| - 1]);
    }
  }

  /** The history after pushing `values` in order. */
  function PushAll(deque: seq<real>, values: seq<real>): seq<real>
    decreases |values|
  {
    if values == [] then deque else PushValue(PushAll(deque, values[..|values| - 1]), values[|values| - 1])
  }

  class TelemetryGenerator {
    var accelerationHistory: seq<real>
    var brakingHistory: seq<real>
    var heading: real
    var roll: real
    var pitch: real
    var yaw: real
    var latitude: real
    var longitude: real

    /** Both histories hold exactly 20 values and every angle is within [0, 360). */
    ghost predicate Valid()
      reads this
    {
      && |accelerationHistory| == HistoryCapacity
      && |brakingHistory| == HistoryCapacity
      && 0.0 <= heading < 360.0
      && 0.0 <= roll < 360.0 && 0.0 <= pitch < 360.0 && 0.0 <= yaw < 360.0
    }

    /** Seeds both histories with twenty zeros. */
    constructor ()
      ensures Valid()
      ensures accelerationHistory == seq(HistoryCapacity, _ => 0.0)
      ensures brakingHistory == seq(HistoryCapacity, _ => 0.0)
      ensures heading == 0.0 && roll == 0.0 && pitch == 0.0 && yaw == 0.0
      ensures latitude == 52.52 && longitude == 13.405
    {
      var acceleration: seq<real> := [];
      var braking: seq<real> := [];
      for i := 0 to HistoryCapacity
        invariant acceleration == seq(i, _ => 0.0)
        invariant braking == seq(i, _ => 0.0)
      {
        acceleration := acceleration + [0.0];
        braking := braking + [0.0];
      }
      accelerationHistory := acceleration;
      brakingHistory := braking;
      heading, roll, pitch, yaw := 0.0, 0.0, 0.0, 0.0;
      latitude, longitude := 52.52, 13.405;
    }

    /**
     * Advances the generator by one step and returns the snapshot. The
     * snapshot's histories are copies: later calls reassign the fields and
     * leave an already returned snapshot as it was.
     */
    method NextSnapshot(d: Draws, now: int) returns (snapshot: TelemetrySnapshot)
      requires Valid()
      modifies this
      ensures Valid()
      ensures heading == Mod360(old(heading) + NextDouble(d.heading, 0.0, 5.0))
      ensures roll == WrapAngle(old(roll) + NextDouble(d.roll, -2.0, 2.0))
      ensures pitch == WrapAngle(old(pitch) + NextDouble(d.pitch, -1.5, 1.5))
      ensures yaw == WrapAngle(old(yaw) + NextDouble(d.yaw, -3.0, 3.0))
      ensures latitude == old(latitude) + NextDouble(d.latitude, -0.0002, 0.0002)
      ensures longitude == old(longitude) + NextDouble(d.longitude, -0.0002, 0.0002)
      ensures var throttle := Clamp(NextDouble(d.throttle, 0.0, 1.0), 0.0, 1.0);
        var brake := Clamp(NextDouble(d.brake, 0.0, 0.4), 0.0, 1.0);
        && accelerationHistory == old(accelerationHistory)[1..] + [Round(throttle * 9.0, 2)]
        && brakingHistory == old(brakingHistory)[1..] + [Round(brake * 7.0, 2)]
        && snapshot.throttle == Round(throttle, 3) && snapshot.brake == Round(brake, 3)
      ensures 0.0 <= snapshot.throttle <= 1.0 && 0.0 <= snapshot.brake <= 1.0
      ensures snapshot.accelerationHistory == accelerationHistory
      ensures snapshot.brakingHistory == brakingHistory
      ensures snapshot.gps == GpsCoordinate(Round(latitude, 6), Round(longitude, 6))
      ensures snapshot.heading == Round(heading, 2)
      ensures snapshot.orientation == Orientation(Round(roll, 2), Round(pitch, 2), Round(yaw, 2))
      ensures snapshot.temps == [
        TemperatureReading("Temp #1", Round(NextDouble(d.temp1, 30.0, 40.0), 2)),
        TemperatureReading("Temp #3", Round(NextDouble(d.temp3, 28.0, 38.0), 2))]
      ensures snapshot.timestamp == now
    {
      heading := Mod360(heading + NextDouble(d.heading, 0.0, 5.0));
      roll := WrapAngle(roll + NextDouble(d.roll, -2.0, 2.0));
      pitch := WrapAngle(pitch + NextDouble(d.pitch, -1.5, 1.5));
      yaw := WrapAngle(yaw + NextDouble(d.yaw, -3.0, 3.0));

      latitude := latitude + NextDouble(d.latitude, -0.0002, 0.0002);
      longitude := longitude + NextDouble(d.longitude, -0.0002, 0.0002);

      var throttle := Clamp(NextDouble(d.throttle, 0.0, 1.0), 0.0, 1.0);
      var brake := Clamp(NextDouble(d.brake, 0.0, 0.4), 0.0, 1.0);

      accelerationHistory := PushValue(accelerationHistory, throttle * 9.0);
      brakingHistory := PushValue(brakingHistory, brake * 7.0);

      var temps := [
        TemperatureReading("Temp #1", Round(NextDouble(d.temp1, 30.0, 40.0), 2)),
        TemperatureReading("Temp #3", Round(NextDouble(d.temp3, 28.0, 38.0), 2))
      ];

      RoundThreeKeepsUnitInterval(throttle);
      RoundThreeKeepsUnitInterval(brake);
      snapshot := TelemetrySnapshot(
        GpsCoordinate(Round(latitude, 6), Round(longitude, 6)),
        Round(heading, 2),
        Orientation(Round(roll, 2), Round(pitch, 2), Round(yaw, 2)),
        Round(throttle, 3),
        Round(brake, 3),
        temps,
        accelerationHistory,
        brakingHistory,
        now);
    }
  }
}
