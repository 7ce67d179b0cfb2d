/**
 * The data shapes of the `frontend` console (`frontend/src/app/models/telemetry.model.ts`).
 * Optional fields of the TypeScript interfaces are `Option`s.
 */
module TelemetryModel {
  import opened Common

  datatype GpsCoordinate = GpsCoordinate(lat: real, lng: real)
  datatype Orientation = Orientation(roll: real, pitch: real, yaw: real)
  datatype TemperatureReading = TemperatureReading(labelText: string, value: real)

  datatype TelemetrySnapshot = TelemetrySnapshot(
    gps: GpsCoordinate,
    heading: real,
    orientation: Orientation,
    throttle: real,
    brake: real,
    temps: seq<TemperatureReading>,
    accelerationHistory: seq<real>,
    brakingHistory: seq<real>,
    timestamp: int)

  datatype DriveMode = Eco | Normal | Boost
  datatype SteeringMode = TwoWheel | FourWheel

  datatype CameraFeed = CameraFeed(id: string, labelText: string, streamUrl: string, isPrimary: Option<bool>)

  /** Whether `isPrimary` is set and true, the test `feed.isPrimary` makes. */
  predicate IsPrimary(feed: CameraFeed)
  {
    feed.isPrimary == Some(true)
  }
}
