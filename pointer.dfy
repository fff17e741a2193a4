/**
  The pointer state machine of the remote-mouse client, as pure functions.

  `State` holds the activity's mutable fields; each handler of the activity is
  a step function from a state to an `Outcome`: the new state and the objects
  handed to the socket. `Step` dispatches one input event, `Run` folds a whole
  sequence of events, and the lemmas at the end state what holds over any such
  sequence.
*/
module Pointer {
  import opened Wrappers
  import opened Protocol

  /** Minimum number of milliseconds between two processed gyroscope samples. */
  const DebounceMillis: int := 150
  /** Adjusted values whose magnitudes are both at most this are noise. */
  const Deadzone: real := 0.01
  /** The sensitivity is divided by this before scaling a sample. */
  const SensitivityDivisor: real := 25.0
  /** The scroll bar's rest position. */
  const ScrollCentre: int := 50
  /** The sensitivity before the slider is moved. */
  const DefaultSensitivity: real := 100.0

  /** The touch actions a button listener distinguishes. */
  datatype TouchAction = Down | Up | OtherAction

  /** One input event, delivered to the activity as one atomic step. */
  datatype Event =
    | GyroSample(now: int, x: real, y: real)   // `now` is the wall clock in ms, x/y are values[0]/values[1]
    | LeftTouch(action: TouchAction)
    | RightTouch(action: TouchAction)
    | MoveTouch(action: TouchAction)
    | CalibrateClick
    | SensitivityProgress(progress: int)
    | ScrollProgress(progress: int)            // the user moved the scroll bar to `progress`
    | ConnectClick(ip: string)

  /**
    The activity's fields. `webSocket` is the URL the socket was created for,
    `None` while the `lateinit` socket is uninitialised; `scrollProgress` is
    the scroll bar's position.
  */
  datatype State = State(
    webSocket: Option<string>,
    lastGyroEventTime: int,
    lastX: real,
    lastY: real,
    sensitivity: real,
    isCalibrating: bool,
    calibrationOffsetX: real,
    calibrationOffsetY: real,
    isMoving: bool,
    scrollProgress: int)

  /** The fields as the activity starts, with the scroll bar at its layout position. */
  function Initial(scrollStart: int): (s: State)
    ensures !ConnectAttempted(s) && !s.isMoving && !s.isCalibrating
    ensures s.sensitivity == DefaultSensitivity && s.lastGyroEventTime == 0
    ensures s.lastX == s.lastY == s.calibrationOffsetX == s.calibrationOffsetY == 0.0
    ensures s.scrollProgress == scrollStart
  {
    State(None, 0, 0.0, 0.0, DefaultSensitivity, false, 0.0, 0.0, false, scrollStart)
  }

  /** True once a connect has been attempted, whether or not the socket ever opened. */
  predicate ConnectAttempted(s: State) {
    s.webSocket.Some?
  }

  datatype Outcome = Outcome(state: State, sent: seq<Record>)

  /** What `webSocket.send` receives: nothing while no socket was assigned. */
  function Send(s: State, r: Record): (sent: seq<Record>)
    ensures sent != [] <==> ConnectAttempted(s)
    ensures sent != [] ==> sent == [r]
  {
    if ConnectAttempted(s) then [r] else []
  }

  function Abs(v: real): (a: real)
    ensures a >= 0.0 && (a == v || a == -v)
  {
    if v < 0.0 then -v else v
  }

  /** Pointer X comes from the device's Y axis, measured against the calibration offset. */
  function AdjustedX(s: State, y: real): (dx: real)
    ensures y == s.calibrationOffsetY || s.sensitivity == 0.0 ==> dx == 0.0
    ensures y > s.calibrationOffsetY && s.sensitivity > 0.0 ==> dx > 0.0
  {
    (y - s.calibrationOffsetY) * s.sensitivity / SensitivityDivisor
  }

  /** Pointer Y comes from the device's X axis, measured against the calibration offset. */
  function AdjustedY(s: State, x: real): (dy: real)
    ensures x == s.calibrationOffsetX || s.sensitivity == 0.0 ==> dy == 0.0
    ensures x > s.calibrationOffsetX && s.sensitivity > 0.0 ==> dy > 0.0
  {
    (x - s.calibrationOffsetX) * s.sensitivity / SensitivityDivisor
  }

  predicate OutsideDeadzone(dx: real, dy: real)
    ensures OutsideDeadzone(dx, dy) ==> dx != 0.0 || dy != 0.0
    ensures OutsideDeadzone(dx, dy) <==> !(-Deadzone <= dx <= Deadzone && -Deadzone <= dy <= Deadzone)
  {
    Abs(dx) > Deadzone || Abs(dy) > Deadzone
  }

  /** A sample at `now` passes the connection, tracking and debounce gates. */
  predicate Admitted(s: State, now: int) {
    ConnectAttempted(s) && s.isMoving && now - s.lastGyroEventTime > DebounceMillis
  }

  /** The state once an admitted sample has consumed a pending calibration. */
  function Calibrated(s: State, x: real, y: real): (c: State)
    ensures !c.isCalibrating
    ensures s.isCalibrating ==> c.calibrationOffsetX == x && c.calibrationOffsetY == y
    ensures !s.isCalibrating ==> c == s
    ensures c.(isCalibrating := s.isCalibrating,
               calibrationOffsetX := s.calibrationOffsetX,
               calibrationOffsetY := s.calibrationOffsetY) == s
  {
    if s.isCalibrating
    then s.(calibrationOffsetX := x, calibrationOffsetY := y, isCalibrating := false)
    else s
  }

  /** `onSensorChanged`: one gyroscope sample. */
  function SensorStep(s: State, now: int, x: real, y: real): (r: Outcome)
    // no socket, or tracking not armed: the sample is ignored entirely
    ensures !ConnectAttempted(s) || !s.isMoving ==> r == Outcome(s, [])
    // inside the debounce window: ignored entirely, a pending calibration included
    ensures now - s.lastGyroEventTime <= DebounceMillis ==> r == Outcome(s, [])
    // an admitted sample consumes a pending calibration, taking its own values as the offset
    ensures Admitted(s, now) ==> !r.state.isCalibrating
    ensures Admitted(s, now) && s.isCalibrating ==>
      r.state.calibrationOffsetX == x && r.state.calibrationOffsetY == y
    ensures !(Admitted(s, now) && s.isCalibrating) ==>
      r.state.isCalibrating == s.isCalibrating
      && r.state.calibrationOffsetX == s.calibrationOffsetX
      && r.state.calibrationOffsetY == s.calibrationOffsetY
    // the sample that completes a calibration measures zero and moves nothing
    ensures s.isCalibrating ==> r.sent == []
    // an admitted sample without pending calibration moves exactly when it leaves the deadzone
    ensures Admitted(s, now) && !s.isCalibrating ==>
      (r.sent != [] <==> OutsideDeadzone(AdjustedX(s, y), AdjustedY(s, x)))
    // a sent move carries the adjusted values and restarts the debounce window
    ensures r.sent != [] ==>
      Admitted(s, now)
      && r.sent == [MoveRecord(AdjustedX(s, y), AdjustedY(s, x))]
      && r.state.lastX == x && r.state.lastY == y && r.state.lastGyroEventTime == now
    // without a move, the last sample and the debounce clock stay as they were
    ensures r.sent == [] ==>
      r.state.lastX == s.lastX && r.state.lastY == s.lastY
      && r.state.lastGyroEventTime == s.lastGyroEventTime
    ensures r.state.webSocket == s.webSocket && r.state.isMoving == s.isMoving
    ensures r.state.sensitivity == s.sensitivity && r.state.scrollProgress == s.scrollProgress
  {
    if !ConnectAttempted(s) || !s.isMoving then Outcome(s, [])
    else if !(now - s.lastGyroEventTime > DebounceMillis) then Outcome(s, [])
    else
      var c := Calibrated(s, x, y);
      var adjustedX := AdjustedX(c, y);
      var adjustedY := AdjustedY(c, x);
      if OutsideDeadzone(adjustedX, adjustedY) then
        Outcome(c.(lastX := x, lastY := y, lastGyroEventTime := now), Send(c, MoveRecord(adjustedX, adjustedY)))
      else
        Outcome(c, [])
  }

  /** The left and right buttons' touch listeners. */
  function ClickStep(s: State, button: string, action: TouchAction): (r: Outcome)
    ensures r.state == s
    ensures r.sent != [] <==> ConnectAttempted(s) && action != OtherAction
    ensures r.sent != [] ==> r.sent == [ActionRecord(button, action == Down)]
  {
    match action
    case Down => Outcome(s, Send(s, ActionRecord(button, true)))
    case Up => Outcome(s, Send(s, ActionRecord(button, false)))
    case OtherAction => Outcome(s, [])
  }

  /** The move button: a press arms tracking from the origin, a release disarms it. */
  function MoveTouchStep(s: State, action: TouchAction): (r: State)
    ensures action == Down ==> r.isMoving && r.lastX == 0.0 && r.lastY == 0.0
    ensures action == Up ==> !r.isMoving && r.lastX == s.lastX && r.lastY == s.lastY
    ensures action == OtherAction ==> r == s
    ensures r.(isMoving := s.isMoving, lastX := s.lastX, lastY := s.lastY) == s
  {
    match action
    case Down => s.(isMoving := true, lastX := 0.0, lastY := 0.0)
    case Up => s.(isMoving := false)
    case OtherAction => s
  }

  /** The calibrate button: requests calibration and takes the last sent sample as the offset at once. */
  function CalibrateStep(s: State): (r: State)
    ensures r.isCalibrating
    ensures r.calibrationOffsetX == s.lastX && r.calibrationOffsetY == s.lastY
    ensures r.(isCalibrating := s.isCalibrating,
               calibrationOffsetX := s.calibrationOffsetX,
               calibrationOffsetY := s.calibrationOffsetY) == s
  {
    s.(isCalibrating := true, calibrationOffsetX := s.lastX, calibrationOffsetY := s.lastY)
  }

  /** The sensitivity slider's listener: the slider's position becomes the sensitivity. */
  function SensitivityStep(s: State, progress: int): (r: State)
    ensures r.sensitivity == progress as real
    ensures r.(sensitivity := s.sensitivity) == s
  {
    s.(sensitivity := progress as real)
  }

  /**
    The scroll bar's listener, called once the bar reads `progress`: an
    off-centre position becomes one scroll and the bar is re-centred. The
    re-centring calls the listener again with the centre, which sends nothing.
  */
  function ScrollListener(s: State, progress: int): (r: Outcome)
    ensures progress == ScrollCentre ==> r == Outcome(s, [])
    ensures progress != ScrollCentre ==> r.state == s.(scrollProgress := ScrollCentre)
    ensures r.sent != [] <==> ConnectAttempted(s) && progress != ScrollCentre
    ensures r.sent != [] ==> r.sent == [ScrollRecord(progress - ScrollCentre)]
  {
    var delta := progress - ScrollCentre;
    if delta != 0 then Outcome(s.(scrollProgress := ScrollCentre), Send(s, ScrollRecord(delta)))
    else Outcome(s, [])
  }

  /** The user moves the scroll bar to `progress`; the bar notifies its listener only on a change. */
  function ScrollStep(s: State, progress: int): (r: Outcome)
    ensures r.state == s.(scrollProgress := r.state.scrollProgress)
    ensures r.state.scrollProgress == if progress == s.scrollProgress then s.scrollProgress else ScrollCentre
    ensures r.sent != [] <==> ConnectAttempted(s) && progress != s.scrollProgress && progress != ScrollCentre
    ensures r.sent != [] ==> r.sent == [ScrollRecord(progress - ScrollCentre)]
  {
    if progress == s.scrollProgress then Outcome(s, [])
    else ScrollListener(s.(scrollProgress := progress), progress)
  }

  /** The connect button: an empty address is refused, any other creates a socket for it. */
  function ConnectStep(s: State, ip: string): (r: State)
    ensures ip == [] ==> r == s
    ensures ip != [] ==> r == s.(webSocket := Some(ServerUrl(ip)))
  {
    if |ip| > 0 then s.(webSocket := Some(ServerUrl(ip))) else s
  }

  /** One input event, dispatched to its handler. */
  function Step(s: State, e: Event): (r: Outcome)
    ensures |r.sent| <= 1
    ensures forall i :: 0 <= i < |r.sent| ==> Decode(r.sent[i]).Some?
    ensures !ConnectAttempted(s) ==> r.sent == []
    ensures ConnectAttempted(r.state) ==> ConnectAttempted(s) || (e.ConnectClick? && e.ip != [])
    ensures !e.GyroSample? ==> r.state.lastGyroEventTime == s.lastGyroEventTime
  {
    match e
    case GyroSample(now, x, y) => SensorStep(s, now, x, y)
    case LeftTouch(action) => ClickStep(s, "left", action)
    case RightTouch(action) => ClickStep(s, "right", action)
    case MoveTouch(action) => Outcome(MoveTouchStep(s, action), [])
    case CalibrateClick => Outcome(CalibrateStep(s), [])
    case SensitivityProgress(progress) => Outcome(SensitivityStep(s, progress), [])
    case ScrollProgress(progress) => ScrollStep(s, progress)
    case ConnectClick(ip) => Outcome(ConnectStep(s, ip), [])
  }

  /** A sequence of events, one step after another, with everything sent in order. */
  function Run(s: State, evs: seq<Event>): Outcome
    decreases |evs|
  {
    if evs == [] then Outcome(s, [])
    else
      var first := Step(s, evs[0]);
      var rest := Run(first.state, evs[1..]);
      Outcome(rest.state, first.sent + rest.sent)
  }

  /** The clock readings of the samples in `evs` that sent a move. */
  function MoveTimes(s: State, evs: seq<Event>): seq<int>
    decreases |evs|
  {
    if evs == [] then []
    else
      var first := Step(s, evs[0]);
      (if evs[0].GyroSample? && first.sent != [] then [evs[0].now] else [])
      + MoveTimes(first.state, evs[1..])
  }

  /** Until a connect with a non-empty address, no event sends anything. */
  lemma {:induction false} NoSocketNoTraffic(s: State, evs: seq<Event>)
    requires !ConnectAttempted(s)
    requires forall i :: 0 <= i < |evs| && evs[i].ConnectClick? ==> evs[i].ip == []
    ensures Run(s, evs).sent == []
    ensures !ConnectAttempted(Run(s, evs).state)
    decreases |evs|
  {
    if evs != [] {
      var first := Step(s, evs[0]);
      assert forall i :: 0 <= i < |evs[1..]| ==> evs[1..][i] == evs[i + 1];
      NoSocketNoTraffic(first.state, evs[1..]);
    }
  }

  /** While tracking is not armed, or no socket exists, samples change nothing and send nothing. */
  lemma {:induction false} IgnoredSamples(s: State, evs: seq<Event>)
    requires !s.isMoving || !ConnectAttempted(s)
    requires forall i :: 0 <= i < |evs| ==> evs[i].GyroSample?
    ensures Run(s, evs) == Outcome(s, [])
    ensures MoveTimes(s, evs) == []
    decreases |evs|
  {
    if evs != [] {
      assert forall i :: 0 <= i < |evs[1..]| ==> evs[1..][i] == evs[i + 1];
      IgnoredSamples(s, evs[1..]);
    }
  }

  /**
    Rate limiting over any sequence of events: every move is sent more than
    150 ms after the previous one (or after the clock's starting value), and
    the debounce clock ends at the time of the last move sent.
  */
  lemma {:induction false} MovesAreSpaced(s: State, evs: seq<Event>)
    ensures var ts := MoveTimes(s, evs);
      (|ts| > 0 ==> ts[0] - s.lastGyroEventTime > DebounceMillis)
      && (forall i :: 0 < i < |ts| ==> ts[i] - ts[i - 1] > DebounceMillis)
      && Run(s, evs).state.lastGyroEventTime == (if |ts| == 0 then s.lastGyroEventTime else ts[|ts| - 1])
    decreases |evs|
  {
    if evs != [] {
      var first := Step(s, evs[0]);
      MovesAreSpaced(first.state, evs[1..]);
      var head := if evs[0].GyroSample? && first.sent != [] then [evs[0].now] else [];
      var tail := MoveTimes(first.state, evs[1..]);
      assert MoveTimes(s, evs) == head + tail;
      if head != [] {
        assert first.state.lastGyroEventTime == evs[0].now;
        assert evs[0].now - s.lastGyroEventTime > DebounceMillis;
      } else {
        assert first.state.lastGyroEventTime == s.lastGyroEventTime;
      }
    }
  }

  /** Every object sent over any sequence of events is one a server decodes. */
  lemma {:induction false} SentRecordsDecode(s: State, evs: seq<Event>)
    ensures forall i :: 0 <= i < |Run(s, evs).sent| ==> Decode(Run(s, evs).sent[i]).Some?
    decreases |evs|
  {
    if evs != [] {
      var first := Step(s, evs[0]);
      SentRecordsDecode(first.state, evs[1..]);
    }
  }

  /** `s` and `t` differ at most in the last sample and in an offset a pending calibration will replace. */
  predicate WireEquivalent(s: State, t: State) {
    s.(lastX := 0.0, lastY := 0.0, calibrationOffsetX := 0.0, calibrationOffsetY := 0.0)
      == t.(lastX := 0.0, lastY := 0.0, calibrationOffsetX := 0.0, calibrationOffsetY := 0.0)
    && (s.isCalibrating
        || (s.calibrationOffsetX == t.calibrationOffsetX && s.calibrationOffsetY == t.calibrationOffsetY))
  }

  /** One event sends the same objects from wire-equivalent states and keeps them equivalent. */
  lemma StepWireEquivalent(s: State, t: State, e: Event)
    requires WireEquivalent(s, t)
    ensures Step(s, e).sent == Step(t, e).sent
    ensures WireEquivalent(Step(s, e).state, Step(t, e).state)
  {
    match e
    case GyroSample(now, x, y) =>
      if Admitted(s, now) {
        var cs, ct := Calibrated(s, x, y), Calibrated(t, x, y);
        assert cs.calibrationOffsetX == ct.calibrationOffsetX && cs.calibrationOffsetY == ct.calibrationOffsetY;
        assert cs.sensitivity == ct.sensitivity && cs.webSocket == ct.webSocket;
        assert AdjustedX(cs, y) == AdjustedX(ct, y) && AdjustedY(cs, x) == AdjustedY(ct, x);
      }
    case _ =>
  }

  /**
    The last sample sent (`lastX`/`lastY`) never reaches the wire: only the
    calibrate button reads it, and the offset it copies is always replaced by
    the next admitted sample before any move is computed.
  */
  lemma {:induction false} LastSampleNeverSent(s: State, t: State, evs: seq<Event>)
    requires s == t.(lastX := s.lastX, lastY := s.lastY)
    ensures Run(s, evs).sent == Run(t, evs).sent
  {
    RunWireEquivalent(s, t, evs);
  }

  lemma {:induction false} RunWireEquivalent(s: State, t: State, evs: seq<Event>)
    requires WireEquivalent(s, t)
    ensures Run(s, evs).sent == Run(t, evs).sent
    decreases |evs|
  {
    if evs != [] {
      StepWireEquivalent(s, t, evs[0]);
      RunWireEquivalent(Step(s, evs[0]).state, Step(t, evs[0]).state, evs[1..]);
    }
  }

  /**
    A worked example: tracking armed from a fresh connection, the first
    sample (1, 2) at full sensitivity moves the pointer by (8, 4).
  */
  lemma FirstMoveExample(ip: string, now: int)
    requires ip != [] && now > DebounceMillis
    ensures var s := Run(Initial(ScrollCentre), [ConnectClick(ip), MoveTouch(Down)]).state;
      SensorStep(s, now, 1.0, 2.0).sent == [MoveRecord(8.0, 4.0)]
  {
    var s0 := Initial(ScrollCentre);
    var s1 := Step(s0, ConnectClick(ip)).state;
    var s2 := Step(s1, MoveTouch(Down)).state;
    assert Run(s1, [MoveTouch(Down)]).state == s2;
    assert [ConnectClick(ip), MoveTouch(Down)][1..] == [MoveTouch(Down)];
    assert Run(s0, [ConnectClick(ip), MoveTouch(Down)]).state == s2;
    assert Admitted(s2, now) && !s2.isCalibrating && s2.sensitivity == 100.0;
    assert AdjustedX(s2, 2.0) == 8.0 && AdjustedY(s2, 1.0) == 4.0;
  }
}
