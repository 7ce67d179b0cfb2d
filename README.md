# ARGUS console and device bridge — a Dafny model

This project models the control and telemetry core of the ARGUS rover
console. There are two Angular front-ends, the `src/main` console and the
`frontend` console, plus the Spring device bridge behind them. Each module
models one source file, and the two front-ends are kept apart:

- **Telemetry.**
  - `MainTelemetry` models the `src/main` mock telemetry service. It covers the tick loop, the manual throttle/brake input and the manual yaw override that lapses after 600 ms.
  - `FallbackTelemetry` models the `frontend` telemetry service's mock interval.
  - `DeviceBridgeTelemetry` models the Java `TelemetryGenerator`: its 20-value history deques, angle wrapping and rounding.
  - `TelemetryModel` holds the shared data shapes.
- **Control.**
  - `ControlTransport` models the `src/main` control socket: the `{type, ...data}` envelope, lazy connection and sending only over an open socket.
  - `DashboardShell` models the `src/main` dashboard: keyboard and gamepad input, drive commands and camera selection.
  - `MainControls` models the `src/main` controls component.
  - `FrontendControl` models the `frontend` control-state service: it clones the state, publishes it, and routes each command over the socket or else HTTP.
  - `FrontendControls` models the `frontend` controls component.
- **Camera and compass.**
  - `MainVideo` and `FrontendVideo` model the two video services.
  - `FrontendCamera` models the `frontend` camera component.
  - `Compass` models the `src/main` compass label.
- **Authentication.**
  - `MainAuth` models the `src/main` login service, with its twelve-hour stored token.
  - `DeviceBridgeAuth` models the backend login endpoint.
- **Database console.**
  - `DbConsole` models the `frontend` `AppComponent`. It covers the query string, columns in first-seen order, the preview, progress, toasts, the stored base URL and schema rendering.

The following things become parameters:
- Randomness: a draw in [0, 1).
- Clocks: `now`.
- Browser gamepads and events.
- The percent-encoding of `URLSearchParams`.

Calls into other services, sockets, HTTP and routers become logs, kept in sequence fields.

Components and services that update fields in place are classes. Their methods have `modifies` clauses and state the whole new state. Pure helpers are functions with named results.

## Model

| member | source | states |
|---|---|---|
| MainTelemetry.Clamp | src/main/frontend/src/app/services/telemetry.service.ts:171-173 | The result lies in [min, max], is the value itself inside the range, and is the nearer bound outside it. |
| MainTelemetry.NormalizeAngle | src/main/frontend/src/app/services/telemetry.service.ts:175-181 | The result is in [0, 360) and differs from the angle by whole turns (the Euclidean remainder). |
| MainTelemetry.GenerateSeries | src/main/frontend/src/app/services/telemetry.service.ts:158-160 | The series has the requested length and element i is the generator applied to i. |
| MainTelemetry.ShiftAndAppend | src/main/frontend/src/app/services/telemetry.service.ts:162-169 | The window keeps its length, drops its oldest value and ends with the new one. |
| MainTelemetry.InitialSnapshot | src/main/frontend/src/app/services/telemetry.service.ts:94-109 | The initial snapshot has 20-value windows (acceleration 2·i, non-negative braking), heading 0, level orientation, two readings, speed 18 and battery 86. |
| MainTelemetry.MockUpdate | src/main/frontend/src/app/services/telemetry.service.ts:111-156 | A tick stamps the snapshot with `now`, keeps the number of readings, and never creates a yaw override: it keeps the given one or drops it. |
| MainTelemetry.MockUpdateBounds | src/main/frontend/src/app/services/telemetry.service.ts:111-156 | Whatever the draws, a tick keeps roll in [-10, 10], pitch in [-8, 8], speed in [0, 42], battery in [20, 100] and never rising, the new window values in [0, 100], and every temperature in [20, 72] under its own label. |
| MainTelemetry.MockUpdateMotion | src/main/frontend/src/app/services/telemetry.service.ts:112-130 | A tick turns the heading by 5 to 9 degrees modulo 360, and moves latitude and longitude by 0.3 and 0.25 times `mockIndex`/10000. |
| MainTelemetry.MockUpdateOverride | src/main/frontend/src/app/services/telemetry.service.ts:116-124 | An unexpired yaw override pins the yaw and survives the tick. Otherwise the override is discarded. |
| MainTelemetry.MockUpdateKeepsWindows | src/main/frontend/src/app/services/telemetry.service.ts:137-138 | Both 20-value windows drop their oldest value and gain one new one per tick. |
| MainTelemetry.ManualInputSnapshot | src/main/frontend/src/app/services/telemetry.service.ts:48-66 | Throttle and brake are clamped to percentages and speed stays in [0, 60]. Position, heading, orientation, temperatures and battery are unchanged, and the timestamp is `now`. |
| MainTelemetry.TelemetryService.Connect | src/main/frontend/src/app/services/telemetry.service.ts:31-41 | Starts exactly one subscription when none is running, and otherwise changes nothing. |
| MainTelemetry.TelemetryService.Disconnect | src/main/frontend/src/app/services/telemetry.service.ts:43-46 | Clears the subscription; the snapshot and counters are unchanged. |
| MainTelemetry.TelemetryService.Tick | src/main/frontend/src/app/services/telemetry.service.ts:36-40 | Publishes the next mock snapshot, keeps the surviving override and advances `mockIndex` by one. |
| MainTelemetry.TelemetryService.ApplyManualInput | src/main/frontend/src/app/services/telemetry.service.ts:48-66 | Publishes the manual-input snapshot once; subscription, counter and override are unchanged. |
| MainTelemetry.TelemetryService.ApplyManualYaw | src/main/frontend/src/app/services/telemetry.service.ts:68-88 | Publishes the normalised yaw and keeps it as an override until `now` + 600. |
| MainTelemetry.TelemetryService.ClearManualYaw | src/main/frontend/src/app/services/telemetry.service.ts:90-92 | Drops the override and nothing else. |
| MainTelemetry.TelemetryService.constructor | src/main/frontend/src/app/services/telemetry.service.ts:23-29 | Publishes the initial snapshot once, with no subscription, `mockIndex` 0 and no yaw override. |
| FallbackTelemetry.ToFixed2 | frontend/src/app/services/telemetry.service.ts:129 | `parseFloat(x.toFixed(2))` lies within half a hundredth of x. |
| FallbackTelemetry.ShiftSeries | frontend/src/app/services/telemetry.service.ts:128-134 | Appends the value rounded to hundredths, and drops the head only when 20 values were already held. |
| FallbackTelemetry.ShiftSeriesBound | frontend/src/app/services/telemetry.service.ts:128-134 | A window of at most 20 values stays at most 20; a window of exactly 20 stays exactly 20; a shorter one grows by one. |
| FallbackTelemetry.RollOrientation | frontend/src/app/services/telemetry.service.ts:136-142 | Non-negative angles stay in [0, 360) after their fixed steps. |
| FallbackTelemetry.RandomVariance | frontend/src/app/services/telemetry.service.ts:144-146 | The offset lies in [-scale, scale]. |
| FallbackTelemetry.CreateInitialTelemetry | frontend/src/app/services/telemetry.service.ts:148-163 | The initial snapshot has two 20-zero histories, heading and orientation 0, throttle and brake 0, and two readings. |
| FallbackTelemetry.MockTick | frontend/src/app/services/telemetry.service.ts:92-124 | The published snapshot carries the given throttle and brake and is stamped `now`. Latitude and longitude move by at most 0.0001, and every reading keeps its label and moves by at most 0.3. |
| FallbackTelemetry.MockTickEffect | frontend/src/app/services/telemetry.service.ts:92-124 | A tick advances the heading by 2 modulo 360 and rolls the orientation by its fixed steps. Both histories stay at 20 values: the oldest goes and the new rounded throttle·9 and brake·7 come last. |
| FallbackTelemetry.TelemetryService.StartMockTelemetry | frontend/src/app/services/telemetry.service.ts:86-91 | Starts an interval only when no interval id is held, and otherwise changes nothing. |
| FallbackTelemetry.TelemetryService.constructor | frontend/src/app/services/telemetry.service.ts:22-28 | Publishes the initial snapshot once and holds no interval. |
| FallbackTelemetry.TelemetryService.Tick | frontend/src/app/services/telemetry.service.ts:92-124 | Publishes the mock-tick snapshot exactly once. |
| DeviceBridgeTelemetry.NextDouble | src/main/java/de/jdbcrew/devicebridge/service/TelemetryGenerator.java:40-49 | A draw lies in [origin, bound). |
| DeviceBridgeTelemetry.Pow10 | src/main/java/de/jdbcrew/devicebridge/service/TelemetryGenerator.java:91-98 | The scale factor is at least 1. |
| DeviceBridgeTelemetry.Round | src/main/java/de/jdbcrew/devicebridge/service/TelemetryGenerator.java:91-98 | The rounded value lies within half a unit of the last kept place of the value. |
| DeviceBridgeTelemetry.RoundThreeKeepsUnitInterval | src/main/java/de/jdbcrew/devicebridge/service/TelemetryGenerator.java:91-98 | Rounding a value in [0, 1] to three places stays in [0, 1]. |
| DeviceBridgeTelemetry.Clamp | src/main/java/de/jdbcrew/devicebridge/service/TelemetryGenerator.java:87-89 | The result lies in [min, max], and a value inside the range is returned unchanged. |
| DeviceBridgeTelemetry.WrapAngle | src/main/java/de/jdbcrew/devicebridge/service/TelemetryGenerator.java:79-85 | The result lies in [0, 360) and differs from the input by a whole number of turns. |
| DeviceBridgeTelemetry.WrapAngleFixesBearings | src/main/java/de/jdbcrew/devicebridge/service/TelemetryGenerator.java:79-85 | Wrapping leaves a bearing unchanged and ignores whole turns in either direction. |
| DeviceBridgeTelemetry.PushValue | src/main/java/de/jdbcrew/devicebridge/service/TelemetryGenerator.java:72-77 | FIFO push: at capacity the head goes and the rounded value is appended; below capacity the value is only appended. |
| DeviceBridgeTelemetry.PushAllKeepsCapacity | src/main/java/de/jdbcrew/devicebridge/service/TelemetryGenerator.java:72-77 | Any number of pushes keeps a 20-value deque at 20, ending in the last rounded value. |
| DeviceBridgeTelemetry.TelemetryGenerator.constructor | src/main/java/de/jdbcrew/devicebridge/service/TelemetryGenerator.java:19-35 | Both histories hold exactly 20 zeros; the angles start at 0 and the position at 52.52/13.405. |
| DeviceBridgeTelemetry.TelemetryGenerator.NextSnapshot | src/main/java/de/jdbcrew/devicebridge/service/TelemetryGenerator.java:37-70 | Updates heading by the remainder, wraps the other angles and drifts the position. Pushes both histories, keeping 20 values each. The snapshot gets throttle and brake in [0, 1], copies of the histories, the rounded angles and position, the two readings (`Temp #1` from [30, 40) and `Temp #3` from [28, 38), rounded to hundredths) and `now`. |
| Compass.TruncatedRemainder8 | src/main/frontend/src/app/components/compass/compass.component.ts:13-14 | JavaScript's `% 8` lies in (-8, 8) and has the sign of the dividend. |
| Compass.CorrectedRemainder | src/main/frontend/src/app/components/compass/compass.component.ts:13-14 | Adding 8 and taking the remainder again gives the Euclidean remainder. |
| Compass.SectorIndex | src/main/frontend/src/app/components/compass/compass.component.ts:12-14 | The index is a valid position in the eight points and equals the half-up-rounded heading/45, taken modulo 8. |
| Compass.DirectionLabel | src/main/frontend/src/app/components/compass/compass.component.ts:11-15 | For any heading the label is one of the eight points. |
| Compass.MultipleOf45 | src/main/frontend/src/app/components/compass/compass.component.ts:11-15 | A heading of 45·k names point k mod 8. |
| Compass.FullTurnInvariant | src/main/frontend/src/app/components/compass/compass.component.ts:13-14 | Adding 360 never changes the label. |
| Compass.NorthSector | src/main/frontend/src/app/components/compass/compass.component.ts:13-14 | Headings in [-22.5, 22.5) read "N", and 22.5 itself reads "NE". |
| ControlTransport.IndexOf | src/main/frontend/src/app/services/control.service.ts:108-112 | Finds the position of a property, or reports that the object lacks it. |
| ControlTransport.SpreadFreshAppends | src/main/frontend/src/app/services/control.service.ts:108-112 | Spreading distinct properties that the object lacks appends them in order (insertion order; see Left out for integer-like names). |
| ControlTransport.SpreadKeepsExistingKeys | src/main/frontend/src/app/services/control.service.ts:108-112 | Spreading never moves a property the object already has (insertion order; see Left out for integer-like names). |
| ControlTransport.Envelope | src/main/frontend/src/app/services/control.service.ts:108-112 | In insertion order, whatever the data, the envelope's first property is `type`. |
| ControlTransport.EnvelopeOfFixedMethod | src/main/frontend/src/app/services/control.service.ts:40-112 | Every send method except the gamepad one produces exactly the tag followed by its fields. |
| ControlTransport.GamepadTypeFieldOverwritesTag | src/main/frontend/src/app/services/control.service.ts:108-112 | A gamepad command carrying its own `type` field replaces the `gamepad` tag. |
| ControlTransport.FixedMethodKeysAreNotIntegers | src/main/frontend/src/app/services/control.service.ts:40-112 | No property of a fixed method's envelope has an integer-like name, so for those methods insertion order is also JavaScript's enumeration order. |
| ControlTransport.EnvelopeIdentifiesCall | src/main/frontend/src/app/services/control.service.ts:40-112 | Apart from gamepad commands, two calls with the same envelope are the same call: no two send methods or arguments are confused on the wire. |
| ControlTransport.SocketAfterEnsure | src/main/frontend/src/app/services/control.service.ts:25-38 | An open or connecting socket is kept. Otherwise a new connecting socket is created, or none when construction throws. |
| ControlTransport.SendTransmitsOnlyOverOpenSocket | src/main/frontend/src/app/services/control.service.ts:25-106 | A send transmits if and only if the socket was already open. |
| ControlTransport.ControlService.EnsureConnection | src/main/frontend/src/app/services/control.service.ts:25-38 | Replaces the socket as described and counts each new socket. |
| ControlTransport.ControlService.Dispatch | src/main/frontend/src/app/services/control.service.ts:100-106 | Transmits over an open socket and drops otherwise, never both. |
| ControlTransport.ControlService.Send | src/main/frontend/src/app/services/control.service.ts:40-112 | Ensures the connection, then transmits the envelope if the socket was open before, and otherwise drops it. A socket is created, and counted, only when none was open or connecting and construction does not throw. |
| ControlTransport.ControlService.ObserveReadyState | src/main/frontend/src/app/services/control.service.ts:26 | The socket moves to the observed ready state; nothing else changes. |
| ControlTransport.ControlService.constructor | src/main/frontend/src/app/services/control.service.ts:22-23 | Starts with no socket, none created and nothing sent or dropped. |
| MainVideo.InitialFeeds | src/main/frontend/src/app/services/video.service.ts:10-14 | Three feeds with distinct ids. |
| MainVideo.Registered | src/main/frontend/src/app/services/video.service.ts:22-28 | The old list is kept as a prefix and at most one feed is added. |
| MainVideo.RegisteredKeepsIdsDistinct | src/main/frontend/src/app/services/video.service.ts:22-28 | Registering keeps ids distinct and always leaves the id present. It is idempotent, and changes nothing exactly when the id already exists. |
| MainVideo.Merge | src/main/frontend/src/app/services/video.service.ts:30-35 | Every property the update carries wins; missing optional ones keep the old value. |
| MainVideo.Updated | src/main/frontend/src/app/services/video.service.ts:30-35 | Each entry with the id is merged, and every other entry stays as it was. |
| MainVideo.UpdatedProperties | src/main/frontend/src/app/services/video.service.ts:30-35 | Updating keeps every id in place, changes nothing for an unknown id, is idempotent and preserves distinct ids. |
| MainVideo.VideoService.constructor | src/main/frontend/src/app/services/video.service.ts:10-20 | Starts with the initial feeds, emitted once. |
| MainVideo.VideoService.RegisterFeed | src/main/frontend/src/app/services/video.service.ts:22-28 | The list becomes the registered list, and it is emitted only when the feed was new. |
| MainVideo.VideoService.UpdateFeed | src/main/frontend/src/app/services/video.service.ts:30-35 | The list becomes the updated list and is emitted. |
| DashboardShell.Sync | src/main/frontend/src/app/dashboard/dashboard-shell/dashboard-shell.component.ts:186-203 | With a controller connected nothing happens. Otherwise the key levels are shown, and they are published exactly when they differ from the last published pair. |
| DashboardShell.SyncIdempotent | src/main/frontend/src/app/dashboard/dashboard-shell/dashboard-shell.component.ts:186-203 | A second sync with the same keys publishes nothing. |
| DashboardShell.SyncAfterResetPublishes | src/main/frontend/src/app/dashboard/dashboard-shell/dashboard-shell.component.ts:172-203 | After the last values are reset to -1, the next sync always publishes. |
| DashboardShell.GamepadLevels | src/main/frontend/src/app/dashboard/dashboard-shell/dashboard-shell.component.ts:160-166 | Throttle and brake are non-negative, at most one is non-zero, and both are at most 100 for an axis in [-1, 1]. |
| DashboardShell.ActivePad | src/main/frontend/src/app/dashboard/dashboard-shell/dashboard-shell.component.ts:153-155 | The chosen pad is the first connected one in the list; none is chosen only when no pad is connected. |
| DashboardShell.Without | src/main/frontend/src/app/dashboard/dashboard-shell/dashboard-shell.component.ts:104-112 | Releasing removes that key and keeps the list duplicate-free, and a key that is not held leaves the list as it was. |
| DashboardShell.WithoutSplit | src/main/frontend/src/app/dashboard/dashboard-shell/dashboard-shell.component.ts:104-112 | Filtering a concatenation filters each part, so the other keys keep their order. |
| DashboardShell.WithoutHeldKey | src/main/frontend/src/app/dashboard/dashboard-shell/dashboard-shell.component.ts:104-112 | In a duplicate-free list, releasing the key at position i gives the list with exactly that position cut out; the rest stays in order. |
| DashboardShell.OtherFeeds | src/main/frontend/src/app/dashboard/dashboard-shell/dashboard-shell.component.ts:54-57 | Keeps exactly the feeds whose id differs from the main feed's, and keeps the whole list when there is no main feed or no feed has its id. |
| DashboardShell.OtherFeedsSplit | src/main/frontend/src/app/dashboard/dashboard-shell/dashboard-shell.component.ts:54-57 | Filtering a concatenation filters each part, so the kept feeds stay in list order. |
| DashboardShell.OtherFeedsOne | src/main/frontend/src/app/dashboard/dashboard-shell/dashboard-shell.component.ts:54-57 | A single feed is kept exactly when it is not the main feed. |
| DashboardShell.DashboardShellComponent.SecondaryFeeds | src/main/frontend/src/app/dashboard/dashboard-shell/dashboard-shell.component.ts:54-57 | A feed is secondary exactly when it is in the feed list and does not have the main feed's id; with no main feed, or none with its id, the list is returned whole. Order follows from `OtherFeedsSplit`. |
| DashboardShell.DashboardShellComponent.constructor | src/main/frontend/src/app/dashboard/dashboard-shell/dashboard-shell.component.ts:26-45 | Starts in "Normal"/"4WD" with no keys, zero levels, no controller, no feeds and last values 0. |
| DashboardShell.DashboardShellComponent.OnFeeds | src/main/frontend/src/app/dashboard/dashboard-shell/dashboard-shell.component.ts:61-66 | Takes the feed list, and picks the first feed as main only when none is set. |
| DashboardShell.DashboardShellComponent.SendDriveCommand | src/main/frontend/src/app/dashboard/dashboard-shell/dashboard-shell.component.ts:137-144 | Sends one drive command with the pressed keys and both modes, and changes nothing else. |
| DashboardShell.DashboardShellComponent.SyncManualInput | src/main/frontend/src/app/dashboard/dashboard-shell/dashboard-shell.component.ts:186-203 | The manual state becomes its sync with the pressed keys. |
| DashboardShell.DashboardShellComponent.HandleKeyDown | src/main/frontend/src/app/dashboard/dashboard-shell/dashboard-shell.component.ts:86-101 | A new drive key is added, lowercased and once only, and triggers a drive command and a sync; a held drive key or any other key adds no drive command. An arrow key (lowercased) adds one pan-camera call. Feeds, modes and the controller flag are unchanged. |
| DashboardShell.DashboardShellComponent.HandleKeyUp | src/main/frontend/src/app/dashboard/dashboard-shell/dashboard-shell.component.ts:104-112 | A held drive key is removed, then a drive command and a sync follow. |
| DashboardShell.DashboardShellComponent.ChangeDriveMode | src/main/frontend/src/app/dashboard/dashboard-shell/dashboard-shell.component.ts:114-117 | Sets the mode and sends it. |
| DashboardShell.DashboardShellComponent.ChangeSteeringMode | src/main/frontend/src/app/dashboard/dashboard-shell/dashboard-shell.component.ts:119-122 | Sets the steering mode and sends it. |
| DashboardShell.DashboardShellComponent.SelectCamera | src/main/frontend/src/app/dashboard/dashboard-shell/dashboard-shell.component.ts:124-131 | With no main feed yet, or with the current one selected, nothing changes. Any other feed becomes main and is sent. |
| DashboardShell.DashboardShellComponent.PollGamepad | src/main/frontend/src/app/dashboard/dashboard-shell/dashboard-shell.component.ts:151-181 | With a connected pad the levels follow its stick and are sent; without one the levels reset and the keyboard sync runs with forced publication. |
| MainControls.IsActiveIgnoresCase | src/main/frontend/src/app/components/controls/controls.component.ts:22-24 | A key is active if and only if the pressed list holds its lowercase form. |
| MainControls.SelectMode | src/main/frontend/src/app/components/controls/controls.component.ts:26-36 | Emits the chosen mode exactly when it differs from the mode the parent passed in. |
| FrontendControl.InitialState | frontend/src/app/services/control.service.ts:40-46 | Zero throttle and brake, no keys, normal drive and two-wheel steering. |
| FrontendControl.WithKey | frontend/src/app/services/control.service.ts:60-66 | The lowercased key is present exactly when active, and no other key changes. |
| FrontendControl.WithKeyIdempotent | frontend/src/app/services/control.service.ts:60-66 | Setting a key twice equals setting it once, and the last call decides. |
| FrontendControl.ControlService.constructor | frontend/src/app/services/control.service.ts:40-52 | Publishes the initial state; the socket exists unless constructing it throws. |
| FrontendControl.ControlService.DispatchControlCommand | frontend/src/app/services/control.service.ts:146-156 | Uses the socket when there is one, and otherwise POSTs to `/api/control`; never both. |
| FrontendControl.ControlService.SetKeyboardKeyState | frontend/src/app/services/control.service.ts:60-74 | Publishes a clone with the key set updated and dispatches a keyboard command, even when the set did not change. |
| FrontendControl.ControlService.SetThrottle | frontend/src/app/services/control.service.ts:76-86 | Publishes the new throttle and dispatches a gamepad `throttle` command. |
| FrontendControl.ControlService.SetBrake | frontend/src/app/services/control.service.ts:88-98 | Publishes the new brake and dispatches a gamepad `brake` command. |
| FrontendControl.ControlService.UpdateDriveMode | frontend/src/app/services/control.service.ts:100-112 | Publishes the mode, even an unchanged one, and POSTs it to `/api/mode`. |
| FrontendControl.ControlService.UpdateSteeringMode | frontend/src/app/services/control.service.ts:114-126 | Publishes the steering mode and POSTs it to `/api/steering`. |
| FrontendControl.ControlService.AdjustCamera | frontend/src/app/services/control.service.ts:128-144 | Sends the pan/tilt payload by the same single route; the state is untouched. |
| FrontendControls.NormalizeTrigger | frontend/src/app/modules/components/controls/controls.component.ts:170-172 | The trigger value is clamped into [0, 1]. |
| FrontendControls.FillPercent | frontend/src/app/modules/components/controls/controls.component.ts:118-122 | The bar height is the value in percent, capped at 100. |
| FrontendControls.TrackedPad | frontend/src/app/modules/components/controls/controls.component.ts:149-157 | Only the tracked slot's pad is read, and no pad is read when none is tracked. |
| FrontendControls.ControlsComponent.constructor | frontend/src/app/modules/components/controls/controls.component.ts:20-34 | Starts with no keys, zero levels, normal two-wheel modes and no tracked pad. |
| FrontendControls.ControlsComponent.OnState | frontend/src/app/modules/components/controls/controls.component.ts:37-43 | Every mirrored field equals the published state. |
| FrontendControls.ControlsComponent.HandleKeyDown | frontend/src/app/modules/components/controls/controls.component.ts:75-87 | Only a non-repeated w/a/s/d key pressed outside text entry calls the service. |
| FrontendControls.ControlsComponent.HandleKeyUp | frontend/src/app/modules/components/controls/controls.component.ts:90-102 | A w/a/s/d release outside text entry calls the service; repeats are not filtered. |
| FrontendControls.ControlsComponent.SelectDriveMode | frontend/src/app/modules/components/controls/controls.component.ts:104-109 | Calls the service exactly when the mode differs. |
| FrontendControls.ControlsComponent.SelectSteeringMode | frontend/src/app/modules/components/controls/controls.component.ts:111-116 | Calls the service exactly when the steering mode differs. |
| FrontendControls.ControlsComponent.GamepadConnected | frontend/src/app/modules/components/controls/controls.component.ts:133-136 | Tracks the new pad and makes no call. |
| FrontendControls.ControlsComponent.GamepadDisconnected | frontend/src/app/modules/components/controls/controls.component.ts:138-147 | Losing the tracked pad releases both triggers; losing another pad changes nothing. |
| FrontendControls.ControlsComponent.PollGamepad | frontend/src/app/modules/components/controls/controls.component.ts:149-168 | The tracked pad's normalised right and left triggers become the throttle and brake calls. |
| FrontendCamera.KeyDownAdjustment | frontend/src/app/modules/components/camera/camera.component.ts:29-38 | Only the four arrow keys (case-sensitive) produce an adjustment, and it is the key's delta. |
| FrontendCamera.CameraAdjustment | frontend/src/app/modules/components/camera/camera.component.ts:40-53 | Every adjustment moves at most one axis, by at most 3 degrees. |
| FrontendCamera.ArrowAdjustments | frontend/src/app/modules/components/camera/camera.component.ts:40-53 | Up and down move only the tilt, left and right only the pan; opposite arrows are opposite deltas and other keys give 0/0. |
| FrontendVideo.PrimaryCount | frontend/src/app/services/video.service.ts:33-39 | There are never more primaries than feeds. |
| FrontendVideo.InitialFeeds | frontend/src/app/services/video.service.ts:14-31 | Three feeds, no id twice. |
| FrontendVideo.InitialFeedsHaveOnePrimary | frontend/src/app/services/video.service.ts:14-31 | The initial list has exactly one primary feed, `front`. |
| FrontendVideo.WithPrimary | frontend/src/app/services/video.service.ts:41-47 | Only the feeds with the chosen id are primary; everything else about each feed is kept. |
| FrontendVideo.WithPrimaryCount | frontend/src/app/services/video.service.ts:41-47 | After setting, the number of primaries equals the number of feeds with that id. |
| FrontendVideo.PrimaryFeed | frontend/src/app/services/video.service.ts:33-35 | The first primary feed in list order, otherwise the first feed; nothing for an empty list. |
| FrontendVideo.FirstPrimary | frontend/src/app/services/video.service.ts:34 | `find` returns the first primary feed in list order, and finds nothing exactly when no feed is primary. |
| FrontendVideo.SecondaryFeeds | frontend/src/app/services/video.service.ts:37-39 | Exactly the non-primary feeds; together with the primaries they account for every feed, and with no primary the list is returned whole. |
| FrontendVideo.SecondaryFeedsSplit | frontend/src/app/services/video.service.ts:37-39 | Filtering a concatenation filters each part, so the secondaries keep list order. |
| FrontendVideo.SecondaryFeedsOne | frontend/src/app/services/video.service.ts:37-39 | A single feed is kept exactly when it is not primary. |
| FrontendVideo.SecondaryFeedsDropThePrimary | frontend/src/app/services/video.service.ts:37-39 | With exactly one primary, at position p, the secondaries are the list with exactly that position cut out, in order. |
| FrontendVideo.PrimaryAndSecondaryPartition | frontend/src/app/services/video.service.ts:33-39 | With one primary, the primary stream and the secondary list partition the feeds. |
| FrontendVideo.VideoService.constructor | frontend/src/app/services/video.service.ts:14-31 | Starts with the initial feeds. |
| FrontendVideo.VideoService.SetPrimaryFeed | frontend/src/app/services/video.service.ts:41-47 | Replaces the list by the re-flagged one, whose primary count equals the number of matching ids. |
| MainAuth.PaddedUppercaseAdminMatches | src/main/frontend/src/app/services/auth.service.ts:23-25 | An instance of the two lemmas above: " ADMIN\t" with `1234` matches. |
| MainAuth.UsernamePaddingIgnored | src/main/frontend/src/app/services/auth.service.ts:23-25 | For every username and password, whitespace around the username does not change the outcome. |
| MainAuth.UsernameCaseIgnored | src/main/frontend/src/app/services/auth.service.ts:23-25 | For every username and password, lowercasing the username does not change the outcome. |
| MainAuth.CredentialsMatch | src/main/frontend/src/app/services/auth.service.ts:23-25 | A matching username has exactly five characters once trimmed. |
| MainAuth.PasswordComparedExactly | src/main/frontend/src/app/services/auth.service.ts:23-25 | Only the exact password `1234` matches; it is not trimmed. |
| MainAuth.BlankUsernameRejected | src/main/frontend/src/app/services/auth.service.ts:23-25 | A blank username never matches. |
| MainAuth.StorageAfterCheck | src/main/frontend/src/app/services/auth.service.ts:56-63 | An unparseable token is removed and anything else is kept. |
| MainAuth.TokenValid | src/main/frontend/src/app/services/auth.service.ts:50-59 | Only a parsed token that carries a timestamp can be valid. |
| MainAuth.AuthService.constructor | src/main/frontend/src/app/services/auth.service.ts:50-64 | Starts authenticated exactly when the stored token is valid, and removes an unparseable one. |
| MainAuth.AuthService.Login | src/main/frontend/src/app/services/auth.service.ts:22-38 | Wrong credentials fail with "Ungültige Zugangsdaten." and change nothing. Right ones store the username as typed with `now`, and authenticate. |
| MainAuth.AuthService.Logout | src/main/frontend/src/app/services/auth.service.ts:40-44 | Removes the token, de-authenticates and navigates to `/login`. |
| MainAuth.StoredLoginExpiresAfterTwelveHours | src/main/frontend/src/app/services/auth.service.ts:50-59 | A token stored at login time t authenticates a later start exactly while `now` < t + 43200000; a removed token never does. |
| DeviceBridgeAuth.Login | src/main/java/de/jdbcrew/devicebridge/controller/AuthController.java:19-30 | A missing request, or a username or password without text, gives 400 with no body. Everything else gives 200 with the token and `expiresIn` 3600. |
| DeviceBridgeAuth.AcceptsAnyCredentialsWithText | src/main/java/de/jdbcrew/devicebridge/controller/AuthController.java:21-29 | Credentials are accepted if and only if both have text; they are never compared with stored values. Includes concrete accept and reject cases. |
| DbConsole.DataUrlShapes | frontend/src/app/app.component.ts:74-84 | Without a non-empty filter and a non-zero limit the path has no `?`. Each present parameter appears, and the filter precedes the limit. |
| DbConsole.DataUrl | frontend/src/app/app.component.ts:74-84 | Every data URL starts with `/api/db/`, the database id and `/data`. |
| DbConsole.DistinctProperties | frontend/src/app/app.component.ts:407 | The distinct keys are exactly the keys, each once, ordered by first occurrence. |
| DbConsole.ColumnsProperties | frontend/src/app/app.component.ts:407 | The columns are every row's keys, duplicate-free, in first-appearance order. There are none exactly when every row is empty. |
| DbConsole.CellText | frontend/src/app/app.component.ts:424 | A column the row has shows the value of the row's first property with that name, or empty text when that value is null; a column the row lacks shows as empty text. |
| DbConsole.RowCells | frontend/src/app/app.component.ts:424 | One cell per column, in column order. |
| DbConsole.PreviewLines | frontend/src/app/app.component.ts:423-425 | A header and one line for each of at most the first five rows. |
| DbConsole.PreviewCases | frontend/src/app/app.component.ts:413-426 | No rows gives "Keine Daten vorhanden."; rows without keys give "Keine Spalten gefunden."; otherwise the header and lines. Rows after the fifth matter only through the header. |
| DbConsole.ProgressPercent | frontend/src/app/app.component.ts:503-505 | While in flight the bar is always between 5 and 100: the rounded share, clamped to that range. |
| DbConsole.ProgressWidth | frontend/src/app/app.component.ts:499-506 | "0%" when idle, and otherwise the clamped percentage. |
| DbConsole.InFlightBarIsVisible | frontend/src/app/app.component.ts:499-506 | A transfer in flight never shows "0%". |
| DbConsole.SavedBaseUrl | frontend/src/app/app.component.ts:127-130 | The trimmed input, or the page origin when it is blank. |
| DbConsole.LoadedBaseUrl | frontend/src/app/app.component.ts:378-384 | The trimmed stored value, or the page origin when nothing or blank is stored. |
| DbConsole.SaveThenLoad | frontend/src/app/app.component.ts:378-384 | A saved base URL is loaded back unchanged. |
| DbConsole.WithoutToast | frontend/src/app/app.component.ts:485-487 | Removes exactly the toasts with that id. |
| DbConsole.WithoutToastKeepsOrder | frontend/src/app/app.component.ts:485-487 | Removing a toast keeps ids increasing. |
| DbConsole.NotNullSourcesAgree | frontend/src/app/app.component.ts:461-463 | `notnull = 1` and `is_nullable = 'NO'` give the same line; `notnull = 2` marks nothing. |
| DbConsole.ColumnLine | frontend/src/app/app.component.ts:459-468 | Every column line starts with `  - ` and the column's name, or `(ohne Name)` when it has none. |
| DbConsole.ColumnLineMarkers | frontend/src/app/app.component.ts:459-468 | The line starts with the name and type; then ` NOT NULL` appears exactly for a not-null column, ` PRIMARY KEY` exactly for a key column, ` DEFAULT ` exactly when a default is given, and without a default the line ends after the flags. |
| DbConsole.ColumnLineNotNull | frontend/src/app/app.component.ts:461-462 | ` NOT NULL` follows the name and type exactly when `notnull` is 1 or `is_nullable` is `NO`. |
| DbConsole.ColumnLinePrimaryKey | frontend/src/app/app.component.ts:463 | ` PRIMARY KEY` follows the not-null part exactly when `pk` is 1. |
| DbConsole.ColumnLineDefault | frontend/src/app/app.component.ts:464-468 | ` DEFAULT ` follows the flags exactly when the default value is present and non-empty; otherwise the line ends with the flags. |
| DbConsole.SchemaTextCases | frontend/src/app/app.component.ts:443-480 | A non-array or empty schema gives "Kein Schema gefunden."; otherwise the text begins with the first table's `Tabelle:` line. |
| DbConsole.AppComponent.constructor | frontend/src/app/app.component.ts:36-94 | Loads the stored base URL, or the origin, into both the URL and its input field. Selects `dbLocal` as database and as both relocate ends, with no table, zero statistics, no toasts and no requests. |
| DbConsole.AppComponent.ShowToast | frontend/src/app/app.component.ts:482-484 | Adds exactly one toast whose id exceeds every earlier id. |
| DbConsole.AppComponent.ExpireToast | frontend/src/app/app.component.ts:485-487 | Drops that toast and keeps the id order; every other field is unchanged. |
| DbConsole.AppComponent.SaveBaseUrl | frontend/src/app/app.component.ts:127-135 | Stores and uses the saved URL, then adds the confirmation toast with the next id. The input field, the database choices and the table are unchanged. |
| DbConsole.AppComponent.RelocateData | frontend/src/app/app.component.ts:215-222 | Equal source and target give an error toast and no request. Otherwise exactly one relocate POST is issued and no toast is added. The URL, inputs and table are unchanged either way. |
| DbConsole.AppComponent.UpdateTable | frontend/src/app/app.component.ts:399-411 | The table holds the rows and their columns. The statistics give the row count and the column count. The URL, inputs, requests and toasts are unchanged. |
| DbConsole.AppComponent.CollectEntryLines | frontend/src/app/app.component.ts:449-477 | One entry's lines: table, fallback column, column lines, DDL, blank line. |
| DbConsole.AppComponent.CollectSchemaLines | frontend/src/app/app.component.ts:448-478 | The loop over the entries collects exactly every entry's lines, in order. |
| DbConsole.AppComponent.FormatSchema | frontend/src/app/app.component.ts:443-480 | Builds exactly the schema text: the empty-schema message, or the collected lines joined and trimmed. |

## Left out

- I/O and foreign code.
  - HTTP responses and their error handlers.
  - WebSocket construction and traffic, beyond the ready state and the messages handed over.
  - `localStorage` and JSON serialisation; a stored auth token is given already parsed.
  - Angular zones, routing and templates.
  - Blob downloads.
  - The `upload`, `download`, `exportCsv`, `sync`, `loadData`, `loadSchema`, `loadSchemaPreview`, `clearSelected` and `clearAll` flows of `frontend/src/app/app.component.ts`. In that file `upload` and `download` are both fields and methods.
- Scheduling. `interval`, `setInterval`, `setTimeout` and `requestAnimationFrame` are left out: one tick, poll or timer callback is modelled at a time.
- MainAuth.AuthService.Login: the 400 ms `delay` is not modelled. The effect of a successful login happens on the call, not when a subscriber receives it.
- ControlTransport.Envelope: objects are insertion-ordered property lists. JavaScript enumerates integer-like names ("0", "1") first in spread and `JSON.stringify`. A gamepad command whose fields include such a name is therefore serialised with those fields ahead of `type`, which the model does not capture. `FixedMethodKeysAreNotIntegers` shows every other method is unaffected.
- SpreadFreshAppends: holds for insertion order only; an integer-like name added by spread is enumerated ahead of the existing properties in JavaScript.
- SpreadKeepsExistingKeys: holds for insertion order only, for the same reason.
- Floating point. Numbers are exact reals, so IEEE rounding and NaN are not modelled.
  - `toFixed` and Java `Math.round` are modelled on exact reals.
  - FrontendControls.FillPercent: only the percentage is modelled, not the style string `getFillStyle` builds.
- Trigonometry, as plain parameters.
  - The trig throttle and brake of the `frontend` mock tick are parameters.
  - The sine used for the initial braking series of `src/main` is a parameter.
- Number conversions. `Number(...)` and `String(...)` on arbitrary JSON values are not modelled:
  - schema flags are given as the result of `Number`;
  - cell values are given as their text.
- `hasStoredToken` is given the parsed token. A numeric string or a `null` timestamp is not distinguished from a missing one.
- Case and whitespace.
  - Common.ToLower lowercases ASCII letters only, not the full Unicode case mapping of `toLowerCase`.
  - Whitespace follows the ECMAScript and Java definitions.
- The two history deques of `TelemetryGenerator` are sequences: `removeFirst`/`addLast` become slicing and concatenation.
- Getters that only return a field are the field itself:
  - `isAuthenticated` is `authState`;
  - `currentFeeds` is `feeds`.
- `selectFeed` in `frontend/src/app/modules/components/camera/camera.component.ts` only re-emits its argument, so it has no model.
- The dashboard's telemetry subscription is not modelled: it only mirrors the snapshot into display fields. Neither are `ngOnDestroy` teardown or logout navigation from the dashboard.
- `ngOnInit` of `AppComponent` is not modelled: its CORS hint compares URL origins, which needs URL parsing.
- Rendering is not modelled: the car-model, sensors and map components, and the templates.
- Backend wiring is not modelled: the WebSocket handlers, the controllers other than login, configuration and the application class.
- TelemetryGenerator.nextSnapshot is `synchronized`. It is modelled as a sequential method.
- Per-source key ownership is not modelled. The code keeps one key list per component, with no separation between keyboard and gamepad input, and the model follows the code.
