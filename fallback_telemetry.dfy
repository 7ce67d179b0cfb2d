/**
 * The fallback mock of the `frontend` telemetry service
 * (`frontend/src/app/services/telemetry.service.ts`): once the live socket is
 * unavailable, an interval pushes a new snapshot every second, built from the
 * previous one by fixed increments and bounded history windows.
 *
 * The throttle and brake of a tick (trigonometric functions of the clock in
 * the source) and the random draws are parameters.
 */
module FallbackTelemetry {
  import opened Common
  import opened TelemetryModel

  const WindowLength: nat := 20

  /** A handle `window.setInterval` hands out: always a positive integer. */
  type IntervalId = n: int | n > 0 witness 1

  /** `parseFloat(x.toFixed(2))` on exact reals: the nearest hundredth, halves away from zero. */
  function ToFixed2(x: real): (r: real)
    ensures x - 0.005 <= r <= x + 0.005
  {
    if x >= 0.0 then HalfUp(x * 100.0) as real / 100.0
    else -(HalfUp(-x * 100.0) as real / 100.0)
  }

  /**
   * Appends the rounded value and drops the oldest entry only when the
   * result would exceed 20 entries.
   */
  function ShiftSeries(series: seq<real>, nextValue: real): (r: seq<real>)
    ensures |r| >= 1 && r[|r| - 1] == ToFixed2(nextValue)
    ensures |series| < WindowLength ==> r == series + [ToFixed2(nextValue)]
    ensures |series| >= WindowLength ==> r == series[1..] + [ToFixed2(nextValue)]
  {
    var copy := series + [ToFixed2(nextValue)];
    if |copy| > WindowLength then copy[1..] else copy
  }

  /** A window of at most 20 entries stays at most 20; one of exactly 20 stays exactly 20. */
  lemma ShiftSeriesBound(series: seq<real>, nextValue: real)
    ensures |series| <= WindowLength ==> |ShiftSeries(series, nextValue)| <= WindowLength
    ensures |series| == WindowLength ==> |ShiftSeries(series, nextValue)| == WindowLength
    ensures |series| < WindowLength ==> |ShiftSeries(series, nextValue)| == |series| + 1
  {
  }

  /** Each angle advances by its fixed step and is reduced by the remainder. */
  function RollOrientation(o: Orientation): (r: Orientation)
    ensures o.roll >= 0.0 ==> 0.0 <= r.roll < 360.0
    ensures o.pitch >= 0.0 ==> 0.0 <= r.pitch < 360.0
    ensures o.yaw >= 0.0 ==> 0.0 <= r.yaw < 360.0
  {
    Orientation(Mod360(o.roll + 1.5), Mod360(o.pitch + 1.2), Mod360(o.yaw + 2.0))
  }

  /** `(Math.random() - 0.5) * scale * 2`: a symmetric offset of at most `scale`. */
  function RandomVariance(draw: Unit, scale: real): (r: real)
    requires scale >= 0.0
    ensures -scale <= r <= scale
  {
    var v := draw as real - 0.5;
    assert (v + 0.5) * scale >= 0.0 && (0.5 - v) * scale >= 0.0 by {
      MulNonNegative(v + 0.5, scale);
      MulNonNegative(0.5 - v, scale);
    }
    v * scale * 2.0
  }

  function CreateInitialTelemetry(now: int): (s: TelemetrySnapshot)
    ensures |s.accelerationHistory| == WindowLength && |s.brakingHistory| == WindowLength
    ensures forall i :: 0 <= i < WindowLength ==> s.accelerationHistory[i] == 0.0 && s.brakingHistory[i] == 0.0
    ensures s.heading == 0.0 && s.orientation == Orientation(0.0, 0.0, 0.0)
    ensures s.throttle == 0.0 && s.brake == 0.0 && |s.temps| == 2
  {
    TelemetrySnapshot(
      GpsCoordinate(52.52, 13.405),
      0.0,
      Orientation(0.0, 0.0, 0.0),
      0.0,
      0.0,
      [TemperatureReading("Temp #1", 32.5), TemperatureReading("Temp #3", 34.2)],
      seq(WindowLength, _ => 0.0),
      seq(WindowLength, _ => 0.0),
      now)
  }

  /**
   * The snapshot one firing of the mock interval publishes: the given
   * throttle and brake, the position and every reading drifted by at most
   * their variance, stamped `now`.
   */
  function MockTick(current: TelemetrySnapshot, throttle: real, brake: real,
                    latDraw: Unit, lngDraw: Unit, tempDraws: seq<Unit>, now: int): (n: TelemetrySnapshot)
    requires |tempDraws| == |current.temps|
    ensures n.throttle == throttle && n.brake == brake && n.timestamp == now
    ensures -0.0001 <= n.gps.lat - current.gps.lat <= 0.0001
    ensures -0.0001 <= n.gps.lng - current.gps.lng <= 0.0001
    ensures |n.temps| == |current.temps|
    ensures forall i :: 0 <= i < |n.temps| ==>
      n.temps[i].labelText == current.temps[i].labelText && -0.3 <= n.temps[i].value - current.temps[i].value <= 0.3
  {
    current.(
      gps := GpsCoordinate(current.gps.lat + RandomVariance(latDraw, 0.0001), current.gps.lng + RandomVariance(lngDraw, 0.0001)),
      heading := Mod360(current.heading + 2.0),
      orientation := RollOrientation(current.orientation),
      throttle := throttle,
      brake := brake,
      accelerationHistory := ShiftSeries(current.accelerationHistory, throttle * 9.0),
      brakingHistory := ShiftSeries(current.brakingHistory, brake * 7.0),
      temps := seq(|current.temps|, i requires 0 <= i < |current.temps| =>
        current.temps[i].(value := current.temps[i].value + RandomVariance(tempDraws[i], 0.3))),
      timestamp := now)
  }

  /** What a tick does to heading, orientation and the two histories. */
  lemma {:induction false} MockTickEffect(current: TelemetrySnapshot, throttle: real, brake: real,
                                          latDraw: Unit, lngDraw: Unit, tempDraws: seq<Unit>, now: int)
    requires |tempDraws| == |current.temps|
    requires |current.accelerationHistory| == WindowLength && |current.brakingHistory| == WindowLength
    ensures var n := MockTick(current, throttle, brake, latDraw, lngDraw, tempDraws, now);
      && n.heading == Mod360(current.heading + 2.0)
      && (current.heading >= 0.0 ==> 0.0 <= n.heading < 360.0)
      && n.orientation == Orientation(Mod360(current.orientation.roll + 1.5),
                                      Mod360(current.orientation.pitch + 1.2),
                                      Mod360(current.orientation.yaw + 2.0))
      && |n.accelerationHistory| == WindowLength && |n.brakingHistory| == WindowLength
      && n.accelerationHistory[WindowLength - 1] == ToFixed2(throttle * 9.0)
      && n.brakingHistory[WindowLength - 1] == ToFixed2(brake * 7.0)
      && n.accelerationHistory[..WindowLength - 1] == current.accelerationHistory[1..]
      && n.brakingHistory[..WindowLength - 1] == current.brakingHistory[1..]
  {
    ShiftSeriesBound(current.accelerationHistory, throttle * 9.0);
    ShiftSeriesBound(current.brakingHistory, brake * 7.0);
  }

  class TelemetryService {
    var current: TelemetrySnapshot
    var publishCount: nat
    var mockIntervalId: Option<IntervalId>
    /** How many mock intervals have been started. */
    var intervalsStarted: nat

    ghost predicate Valid()
      reads this
    {
      |current.accelerationHistory| == WindowLength && |current.brakingHistory| == WindowLength
    }

    constructor (now: int)
      ensures Valid()
      ensures current == CreateInitialTelemetry(now) && publishCount == 1
      ensures mockIntervalId == None && intervalsStarted == 0
    {
      current := CreateInitialTelemetry(now);
      publishCount := 1;
      mockIntervalId := None;
      intervalsStarted := 0;
    }

    /** Starts the mock interval; once an interval id is held, further calls start nothing. */
    method StartMockTelemetry(newId: IntervalId)
      requires Valid()
      modifies this
      ensures Valid()
      ensures old(mockIntervalId).Some? ==> mockIntervalId == old(mockIntervalId) && intervalsStarted == old(intervalsStarted)
      ensures old(mockIntervalId).None? ==> mockIntervalId == Some(newId) && intervalsStarted == old(intervalsStarted) + 1
      ensures current == old(current) && publishCount == old(publishCount)
    {
      if mockIntervalId.Some? {
        return;
      }
      mockIntervalId := Some(newId);
      intervalsStarted := intervalsStarted + 1;
    }

    /** One firing of the mock interval. */
    method Tick(throttle: real, brake: real, latDraw: Unit, lngDraw: Unit, tempDraws: seq<Unit>, now: int)
      requires Valid() && mockIntervalId.Some?
      requires |tempDraws| == |current.temps|
      modifies this
      ensures Valid()
      ensures current == MockTick(old(current), throttle, brake, latDraw, lngDraw, tempDraws, now)
      ensures publishCount == old(publishCount) + 1
      ensures mockIntervalId == old(mockIntervalId) && intervalsStarted == old(intervalsStarted)
    {
      MockTickEffect(current, throttle, brake, latDraw, lngDraw, tempDraws, now);
      current := MockTick(current, throttle, brake, latDraw, lngDraw, tempDraws, now);
      publishCount := publishCount + 1;
    }
  }
}
