/**
  The activity itself: its fields updated in place by the sensor callback and
  the widget listeners. Each handler is proved to do what the matching step
  function of `Pointer` says, so every property proved there holds of it.
  `sent` is the sequence of objects handed to the socket so far.
*/
module Activity {
  import opened Wrappers
  import opened Protocol
  import Pointer

  class MainActivity {
    var webSocket: Option<string>
    var lastGyroEventTime: int
    var lastX: real
    var lastY: real
    var sensitivity: real
    var isCalibrating: bool
    var calibrationOffsetX: real
    var calibrationOffsetY: real
    var isMoving: bool
    var scrollProgress: int
    var sent: seq<Record>

    /** The fields as a `Pointer.State`. */
    function State(): Pointer.State
      reads this
    {
      Pointer.State(webSocket, lastGyroEventTime, lastX, lastY, sensitivity, isCalibrating,
                    calibrationOffsetX, calibrationOffsetY, isMoving, scrollProgress)
    }

    /** Field initialisers; the scroll bar starts where the layout puts it. */
    constructor (scrollStart: int)
      ensures State() == Pointer.Initial(scrollStart) && sent == []
    {
      webSocket := None;
      lastGyroEventTime := 0;
      lastX, lastY := 0.0, 0.0;
      sensitivity := Pointer.DefaultSensitivity;
      isCalibrating := false;
      calibrationOffsetX, calibrationOffsetY := 0.0, 0.0;
      isMoving := false;
      scrollProgress := scrollStart;
      sent := [];
    }

    method SendMouseAction(button: string, state: bool)
      modifies this`sent
      ensures sent == old(sent) + Pointer.Send(State(), ActionRecord(button, state))
    {
      if webSocket.None? { return; }
      sent := sent + [ActionRecord(button, state)];
    }

    method SendMouseMove(dx: real, dy: real)
      modifies this`sent
      ensures sent == old(sent) + Pointer.Send(State(), MoveRecord(dx, dy))
    {
      if webSocket.None? { return; }
      sent := sent + [MoveRecord(dx, dy)];
    }

    method SendMouseScroll(delta: int)
      modifies this`sent
      ensures sent == old(sent) + Pointer.Send(State(), ScrollRecord(delta))
    {
      if webSocket.None? { return; }
      sent := sent + [ScrollRecord(delta)];
    }

    /** The gyroscope callback, with the clock reading and values[0], values[1] passed in. */
    method OnSensorChanged(now: int, x: real, y: real)
      modifies this
      ensures State() == Pointer.SensorStep(old(State()), now, x, y).state
      ensures sent == old(sent) + Pointer.SensorStep(old(State()), now, x, y).sent
    {
      ghost var before := State();
      if webSocket.None? || !isMoving { return; }
      var currentTime := now;
      if currentTime - lastGyroEventTime > Pointer.DebounceMillis {
        if isCalibrating {
          calibrationOffsetX := x;
          calibrationOffsetY := y;
          isCalibrating := false;
        }
        ghost var c := Pointer.Calibrated(before, x, y);
        assert State() == c;
        var adjustedX := (y - calibrationOffsetY) * sensitivity / Pointer.SensitivityDivisor;
        var adjustedY := (x - calibrationOffsetX) * sensitivity / Pointer.SensitivityDivisor;
        assert adjustedX == Pointer.AdjustedX(c, y) && adjustedY == Pointer.AdjustedY(c, x);
        if Pointer.Abs(adjustedX) > Pointer.Deadzone || Pointer.Abs(adjustedY) > Pointer.Deadzone {
          SendMouseMove(adjustedX, adjustedY);
          lastX := x;
          lastY := y;
          lastGyroEventTime := currentTime;
        }
      }
    }

    method OnLeftTouch(action: Pointer.TouchAction)
      modifies this`sent
      ensures sent == old(sent) + Pointer.ClickStep(State(), "left", action).sent
    {
      match action
      case Down => SendMouseAction("left", true);
      case Up => SendMouseAction("left", false);
      case OtherAction =>
    }

    method OnRightTouch(action: Pointer.TouchAction)
      modifies this`sent
      ensures sent == old(sent) + Pointer.ClickStep(State(), "right", action).sent
    {
      match action
      case Down => SendMouseAction("right", true);
      case Up => SendMouseAction("right", false);
      case OtherAction =>
    }

    method OnMoveTouch(action: Pointer.TouchAction)
      modifies this`isMoving, this`lastX, this`lastY
      ensures State() == Pointer.MoveTouchStep(old(State()), action)
    {
      match action
      case Down =>
        isMoving := true;
        lastX := 0.0;
        lastY := 0.0;
      case Up =>
        isMoving := false;
      case OtherAction =>
    }

    method OnCalibrateClick()
      modifies this`isCalibrating, this`calibrationOffsetX, this`calibrationOffsetY
      ensures State() == Pointer.CalibrateStep(old(State()))
    {
      isCalibrating := true;
      calibrationOffsetX := lastX;
      calibrationOffsetY := lastY;
    }

    method OnSensitivityProgressChanged(progress: int)
      modifies this`sensitivity
      ensures State() == Pointer.SensitivityStep(old(State()), progress)
    {
      sensitivity := progress as real;
    }

    /** The scroll bar's `progress` setter: it stores the position and notifies the listener on a change. */
    method SetScrollProgress(progress: int)
      modifies this`scrollProgress, this`sent
      ensures State() == Pointer.ScrollStep(old(State()), progress).state
      ensures sent == old(sent) + Pointer.ScrollStep(old(State()), progress).sent
      decreases if progress == Pointer.ScrollCentre then 1 else 3
    {
      if progress != scrollProgress {
        scrollProgress := progress;
        OnScrollProgressChanged(progress);
      }
    }

    /** The scroll bar's listener. */
    method OnScrollProgressChanged(progress: int)
      modifies this`scrollProgress, this`sent
      ensures State() == Pointer.ScrollListener(old(State()), progress).state
      ensures sent == old(sent) + Pointer.ScrollListener(old(State()), progress).sent
      decreases if progress == Pointer.ScrollCentre then 0 else 2
    {
      var delta := progress - Pointer.ScrollCentre;
      if delta != 0 {
        SendMouseScroll(delta);
        SetScrollProgress(Pointer.ScrollCentre);
      }
    }

    method OnConnectClick(ip: string)
      modifies this`webSocket
      ensures State() == Pointer.ConnectStep(old(State()), ip)
    {
      if |ip| > 0 {
        ConnectToServer(ip);
      }
    }

    method ConnectToServer(ip: string)
      modifies this`webSocket
      ensures State() == old(State()).(webSocket := Some(ServerUrl(ip)))
    {
      webSocket := Some(ServerUrl(ip));
    }
  }
}
