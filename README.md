# Remote mouse client: pointer state machine

This project models the core of an Android remote-mouse client. The client
turns gyroscope samples and button, slider and connect-button events into
JSON messages (`click`, `move`, `scroll`), which it sends over a WebSocket to
`ws://<ip>:5000`. All of that logic lives in `MainActivity`.

- `Wrappers` (`wrappers.dfy`): the `Option` datatype.
- `Protocol` (`protocol.dfy`): the three message builders. A JSON object
  means a set of key/value pairs, so each message is modelled as a map from
  key to value. The module also has `Decode`, a server's reading of such an
  object, which the builders are proved to round-trip through, and the
  connect URL.
- `Pointer` (`pointer.dfy`): the activity's fields as a `State` value. Each
  handler is a pure step function returning the new state and the objects
  sent. `Step` dispatches one event and `Run` folds a sequence of events. The
  lemmas state what holds over any sequence of events.
- `Activity` (`activity.dfy`): the class `MainActivity`. Its fields are the
  activity's fields, plus `sent`, the log of objects handed to the socket.
  Its handler methods update the fields in place the way the Kotlin code
  does. Each method is proved equal to its step function in `Pointer`.

Modelling decisions:
- The `lateinit` socket is `webSocket: Option<string>`. It holds the URL
  the socket was created for. It is `Some` as soon as a connect with a
  non-empty address is attempted, whether or not the connection ever opens.
  This is also when the `isInitialized` checks start to pass.
- The clock (`System.currentTimeMillis()`) is the `now` parameter of a sample.
  `values[0]`/`values[1]` are the `x`/`y` parameters. Sample values and the
  sensitivity are `real`.
- Setting the scroll bar's progress calls its listener again whenever the
  value changes. `SetScrollProgress` (the widget) and
  `OnScrollProgressChanged` (the listener) model that re-entry, so re-centring
  calls the listener once more, with delta 0.

The model follows the code as written; two places are easy to misread:
- Moves are measured against the calibration offset on every sample, not
  against the previous accepted sample. `deltaX`/`deltaY`
  (MainActivity.kt:208-209) are computed and never used, so the model omits
  them. `Pointer.LastSampleNeverSent` proves a consequence: `lastX`/`lastY`
  never influence anything sent. Only the calibrate button reads them, and
  the offset it copies from them is always replaced by the next admitted
  sample before any move is computed.
- Pressing calibrate copies `lastX`/`lastY` into the offset at once, and
  then the next admitted sample overwrites it again.
- The code has no Connecting/Open/Closed states. Sends go to the socket once
  one has been created, whatever its state.
- The sensitivity is whatever the slider reports, as a real, with no clamping.

## Model

| member | source | states |
|---|---|---|
| Protocol.ActionRecord | app/src/main/java/com/example/remotemouse/MainActivity.kt:172-176 | a click object has exactly the keys action/button/state, and a server reads it as a click of the named button with that state (nothing for an unknown button name) |
| Protocol.MoveRecord | app/src/main/java/com/example/remotemouse/MainActivity.kt:183-187 | a move object has exactly the keys action/dx/dy and reads back as that move |
| Protocol.ScrollRecord | app/src/main/java/com/example/remotemouse/MainActivity.kt:194-197 | a scroll object has exactly the keys action/delta and reads back as that scroll |
| Protocol.Encode | app/src/main/java/com/example/remotemouse/MainActivity.kt:169-199 | every intent's object decodes to that intent |
| Protocol.DecodeOnlyEncodings | app/src/main/java/com/example/remotemouse/MainActivity.kt:169-199 | any object a server accepts is exactly the object the client builds for the decoded intent, so encoding and decoding are inverse |
| Protocol.ButtonNamed | app/src/main/java/com/example/remotemouse/MainActivity.kt:66-67 | only "left" and "right" name buttons, and each reads back to its own name |
| Protocol.ServerUrl | app/src/main/java/com/example/remotemouse/MainActivity.kt:144 | the URL is `ws://`, then the address exactly as typed, then `:5000` |
| Pointer.Initial | app/src/main/java/com/example/remotemouse/MainActivity.kt:36-43 | the activity starts unconnected, idle, with no calibration pending, zero offsets and last sample, clock 0 and sensitivity 100 |
| Pointer.Abs | app/src/main/java/com/example/remotemouse/MainActivity.kt:222 | the magnitude is non-negative and equals the value or its negation |
| Protocol.ButtonName | app/src/main/java/com/example/remotemouse/MainActivity.kt:66-67 | definition, no contract: the wire names "left" and "right" of the two buttons (also lines 75-76) |
| Pointer.ConnectAttempted | app/src/main/java/com/example/remotemouse/MainActivity.kt:170 | definition, no contract: `::webSocket.isInitialized`, true once a socket has been assigned |
| Pointer.Send | app/src/main/java/com/example/remotemouse/MainActivity.kt:169-199 | something is sent exactly when a socket has been assigned, and then it is the one object built (the gate and send at lines 170/177, 181/188 and 192/198) |
| Pointer.Admitted | app/src/main/java/com/example/remotemouse/MainActivity.kt:203-207 | definition, no contract: a sample passes the connection gate, the tracking gate and the 150 ms debounce |
| Pointer.Calibrated | app/src/main/java/com/example/remotemouse/MainActivity.kt:211-215 | a pending calibration is consumed: the flag is cleared and the sample becomes the offset; without one the state is unchanged; nothing else changes |
| Pointer.AdjustedX | app/src/main/java/com/example/remotemouse/MainActivity.kt:219 | pointer X is zero when the device's Y value equals its offset or the sensitivity is zero, and positive when Y is above the offset at positive sensitivity |
| Pointer.AdjustedY | app/src/main/java/com/example/remotemouse/MainActivity.kt:220 | pointer Y is zero when the device's X value equals its offset or the sensitivity is zero, and positive when X is above the offset at positive sensitivity |
| Pointer.OutsideDeadzone | app/src/main/java/com/example/remotemouse/MainActivity.kt:222 | a candidate passes exactly when it is not inside the closed box of half-width 0.01, so a passing candidate is never zero |
| Pointer.SensitivityStep | app/src/main/java/com/example/remotemouse/MainActivity.kt:97-100 | the sensitivity becomes the slider's progress as a real, and nothing else changes |
| Pointer.SensorStep | app/src/main/java/com/example/remotemouse/MainActivity.kt:202-230 | with no socket or tracking off, or within 150 ms of the last move, a sample changes nothing and sends nothing, and a pending calibration survives. An admitted sample consumes a pending calibration and takes its own values as the offset. That sample sends nothing. Otherwise it sends exactly when an axis-swapped adjusted value exceeds 0.01. A sent move carries those values and sets the last sample and the clock. Without a move those three stay unchanged. Socket, tracking, sensitivity and scroll bar are never touched |
| Pointer.ClickStep | app/src/main/java/com/example/remotemouse/MainActivity.kt:64-79 | a touch changes no field. It sends one click object exactly when a socket exists and the action is a press or a release, and the state sent is true exactly for a press |
| Pointer.MoveTouchStep | app/src/main/java/com/example/remotemouse/MainActivity.kt:107-119 | a press arms tracking and zeroes the last sample. A release disarms it and keeps the last sample. Other actions change nothing, and no other field ever changes (calibration offset and flag included) |
| Pointer.CalibrateStep | app/src/main/java/com/example/remotemouse/MainActivity.kt:123-128 | calibrate sets the pending flag and takes the last sample as the offset before any sample arrives, and changes nothing else |
| Pointer.ScrollListener | app/src/main/java/com/example/remotemouse/MainActivity.kt:83-89 | progress 50 does nothing. Any other progress re-centres the bar at 50, changes nothing else, and sends one scroll of `progress - 50` exactly when a socket exists |
| Pointer.ScrollStep | app/src/main/java/com/example/remotemouse/MainActivity.kt:83-89 | moving the bar to its current position does nothing. Otherwise the bar ends at 50, and exactly one scroll of `progress - 50` is sent iff a socket exists and progress is not 50 |
| Pointer.ConnectStep | app/src/main/java/com/example/remotemouse/MainActivity.kt:131-138 | an empty address leaves the state unchanged. Any other address assigns a socket for its URL and changes nothing else; the library's rejection of a malformed URL is left out (see "## Left out") |
| Pointer.Step | app/src/main/java/com/example/remotemouse/MainActivity.kt:63-138 | any event sends at most one object, and that object decodes. Nothing is sent without a socket. Only a non-empty connect creates one. Only a sample moves the debounce clock |
| Pointer.NoSocketNoTraffic | app/src/main/java/com/example/remotemouse/MainActivity.kt:170 | over any events with no non-empty connect, nothing is ever sent and no socket appears |
| Pointer.IgnoredSamples | app/src/main/java/com/example/remotemouse/MainActivity.kt:203 | while tracking is off or no socket exists, any run of samples leaves every field unchanged and sends nothing. In particular the debounce clock does not advance while idle |
| Pointer.MovesAreSpaced | app/src/main/java/com/example/remotemouse/MainActivity.kt:207-227 | over any events, each move is sent more than 150 ms after the previous one, or after the clock's start. The clock ends at the time of the last move sent |
| Pointer.SentRecordsDecode | app/src/main/java/com/example/remotemouse/MainActivity.kt:169-199 | every object sent over any events is one a server decodes |
| Pointer.StepWireEquivalent | app/src/main/java/com/example/remotemouse/MainActivity.kt:123-126 | two states that differ only in the last sample, and in an offset that a pending calibration will replace, send the same objects on any event and stay so related |
| Pointer.LastSampleNeverSent | app/src/main/java/com/example/remotemouse/MainActivity.kt:208-226 | two states that differ only in `lastX`/`lastY` send exactly the same objects over any events |
| Pointer.RunWireEquivalent | app/src/main/java/com/example/remotemouse/MainActivity.kt:202-230 | the relation of StepWireEquivalent carries over whole runs of events |
| Pointer.FirstMoveExample | app/src/main/java/com/example/remotemouse/MainActivity.kt:219-223 | after connecting and pressing move, a sample (1, 2) at sensitivity 100 sends a move of (8, 4) |
| Activity.MainActivity.constructor | app/src/main/java/com/example/remotemouse/MainActivity.kt:36-43 | the fields start as `Pointer.Initial`, and nothing has been sent |
| Activity.MainActivity.SendMouseAction | app/src/main/java/com/example/remotemouse/MainActivity.kt:169-178 | appends the click object to what was sent if a socket exists, and otherwise returns without effect |
| Activity.MainActivity.SendMouseMove | app/src/main/java/com/example/remotemouse/MainActivity.kt:180-189 | appends the move object if a socket exists, and otherwise returns without effect |
| Activity.MainActivity.SendMouseScroll | app/src/main/java/com/example/remotemouse/MainActivity.kt:191-199 | appends the scroll object if a socket exists, and otherwise returns without effect |
| Activity.MainActivity.OnSensorChanged | app/src/main/java/com/example/remotemouse/MainActivity.kt:202-230 | the fields and the sent log change exactly as `Pointer.SensorStep` says |
| Activity.MainActivity.OnLeftTouch | app/src/main/java/com/example/remotemouse/MainActivity.kt:64-70 | sends exactly what `Pointer.ClickStep` says for "left" and changes no other field |
| Activity.MainActivity.OnRightTouch | app/src/main/java/com/example/remotemouse/MainActivity.kt:73-79 | sends exactly what `Pointer.ClickStep` says for "right" and changes no other field |
| Activity.MainActivity.OnMoveTouch | app/src/main/java/com/example/remotemouse/MainActivity.kt:107-119 | the fields change exactly as `Pointer.MoveTouchStep` says |
| Activity.MainActivity.OnCalibrateClick | app/src/main/java/com/example/remotemouse/MainActivity.kt:123-128 | the fields change exactly as `Pointer.CalibrateStep` says |
| Activity.MainActivity.OnSensitivityProgressChanged | app/src/main/java/com/example/remotemouse/MainActivity.kt:97-100 | the fields change exactly as `Pointer.SensitivityStep` says |
| Activity.MainActivity.SetScrollProgress | app/src/main/java/com/example/remotemouse/MainActivity.kt:87 | the bar and the sent log change exactly as `Pointer.ScrollStep` says, including the listener's re-entry on re-centring |
| Activity.MainActivity.OnScrollProgressChanged | app/src/main/java/com/example/remotemouse/MainActivity.kt:83-89 | the bar and the sent log change exactly as `Pointer.ScrollListener` says |
| Activity.MainActivity.OnConnectClick | app/src/main/java/com/example/remotemouse/MainActivity.kt:131-138 | the socket changes exactly as `Pointer.ConnectStep` says |
| Activity.MainActivity.ConnectToServer | app/src/main/java/com/example/remotemouse/MainActivity.kt:141-147 | assigns a socket for `ws://<ip>:5000`, and nothing else changes |

## Left out

- Widget lookup, layout, touch-event dispatch and `Toast` notifications
  (MainActivity.kt:46-62, 127, 136, 150-163, 215) are UI plumbing with no
  logic.
- The WebSocket client's handshake, its `onOpen`/`onFailure`/`onClosed`
  callbacks, and `webSocket.close` in `onDestroy` are not modelled. They are
  network I/O inside a library. Only "a socket was created for this URL" is
  modelled, and a send is recorded in `sent`, not transmitted.
- Sensor registration in `onResume`/`onPause`, `onAccuracyChanged`, and the
  missing-gyroscope crash at line 61 are not modelled. They are platform
  lifecycle.
- The text rendering done by `org.json`'s `toString` is not modelled, and
  with it the order in which the keys appear in the text. It is foreign code.
  A message is modelled as its key/value object.
- IEEE-754 single-precision arithmetic is not modelled. Sample values, the
  sensitivity and the adjusted values are exact reals, and the comparison
  against 0.01 is exact.
- A null `SensorEvent` is not modelled. The platform never delivers one, and
  the `event?.let` at line 205 only skips it.
- The scroll bar's clamping of progress to its range is not modelled. The
  range is set in a layout file that is not part of this model.
- Pointer.ConnectStep and Activity.MainActivity.ConnectToServer: when the
  URL built at line 144 is not one the WebSocket library accepts (an address
  such as `192.168.0.5:8000`, which yields the port `8000:5000`, or one with
  spaces), `Request.Builder().url` throws before `webSocket` is assigned at
  line 147, and the activity fails. The model does not capture URL
  validation: it assigns a socket for every non-empty address, so it
  over-approximates when a socket exists.
- The sensor callback and the UI handlers are not concurrent in the model:
  every event is one atomic step.
