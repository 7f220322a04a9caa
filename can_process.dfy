// The vehicle application's CAN processing (app/src/can_process.c): the
// riding-mode toggle on the start button, the vehicle speed rule with the
// side stand, hill hold, the indicator blinker and the horn and brake
// frames. The globals and function-local statics of the C file are the
// fields of one VehicleApp object; every frame handed to app_can_send is
// returned instead of transmitted.

module CanProcess {
  import opened Common

  const NEUTRAL: nat := 0
  const FORWARD: nat := 1
  const REVERSE: nat := 2
  const HOLD_UP: nat := 3
  const HOLD_DOWN: nat := 4

  const INCLINE_THRESHOLD: int := 10
  const DECLINE_THRESHOLD: int := -10

  const STATUS_ID: nat := 0x305
  const MOTION_ID: nat := 0x306

  /** A frame passed to app_can_send: identifier and payload. */
  datatype Tx = Tx(id: nat, data: seq<byte>)

  /**
   * The variables that the start button, speed and hold logic change: the
   * riding mode, the speed and the hold flag (globals), and the statics
   * next_is_reverse, sidestand_stop, manual_brake_requested and
   * previous_riding_mode.
   */
  datatype Motion = Motion(ridingMode: nat, vehicleSpeed: nat, holdActive: bool, nextIsReverse: bool,
                           sidestandStop: bool, manualBrakeRequested: bool, previousRidingMode: nat)

  /** The statics of process_indicator_state. */
  datatype Blinker = Blinker(on: bool, timer: nat, active: bool, previousState: nat)

  /** The C types' ranges, and what the code keeps true between calls. */
  predicate MotionOk(m: Motion)
  {
    m.ridingMode <= HOLD_DOWN && IsU8(m.vehicleSpeed)
    && (m.previousRidingMode == FORWARD || m.previousRidingMode == REVERSE)
    && !m.manualBrakeRequested
  }

  predicate BlinkerOk(b: Blinker)
  {
    b.timer < 3 && IsU8(b.previousState)
  }

  /** The inputs as the CAN receive path stores them: int8_t throttle, int16_t pitch. */
  predicate ThrottleOk(throttle: int) { -0x80 <= throttle < 0x80 }
  predicate PitchOk(pitch: int) { -0x8000 <= pitch < 0x8000 }

  /** The power-on values. */
  const InitialMotion: Motion := Motion(NEUTRAL, 0, false, true, false, false, FORWARD)
  const InitialBlinker: Blinker := Blinker(false, 0, false, 0)

  function HornFrame(horn: bool): Tx
  {
    Tx(STATUS_ID, [0x01, if horn then 0x01 else 0x00])
  }

  function BrakeFrame(brake: bool): Tx
  {
    Tx(STATUS_ID, [0x03, if brake then 0x02 else 0x00])
  }

  /** The 0x306 frame: riding mode and speed. */
  function MotionFrame(m: Motion): Tx
    requires MotionOk(m)
  {
    Tx(MOTION_ID, [m.ridingMode as byte, m.vehicleSpeed as byte])
  }

  /** The 0x305 indicator frame for a blinker state, if one is sent. */
  function IndicatorFrame(b: Blinker): Option<Tx>
  {
    if !b.on then Some(Tx(STATUS_ID, [0x04, 0x00]))
    else if b.previousState == 1 then Some(Tx(STATUS_ID, [0x04, 0x01]))
    else if b.previousState == 2 then Some(Tx(STATUS_ID, [0x04, 0x02]))
    else None
  }

  /** The horn and brake frames are told apart by their first byte and carry their flag. */
  lemma StatusFramesDecode(horn: bool, brake: bool)
    ensures HornFrame(horn).data[0] != BrakeFrame(brake).data[0]
    ensures HornFrame(horn).data[1] != 0 <==> horn
    ensures BrakeFrame(brake).data[1] != 0 <==> brake
  {
  }

  // ---------------------------------------------------------------------------
  // Reference definitions of the steps
  // ---------------------------------------------------------------------------

  /** handle_start_button_press */
  function StartPress(m: Motion): (r: Motion)
    requires MotionOk(m)
    ensures MotionOk(r)
  {
    if m.holdActive then m
    else if m.ridingMode == NEUTRAL then
      m.(ridingMode := if m.nextIsReverse then REVERSE else FORWARD, nextIsReverse := !m.nextIsReverse)
    else m.(ridingMode := NEUTRAL)
  }

  /** update_vehicle_speed */
  function UpdateSpeed(m: Motion, sidestand: bool, throttle: int): (r: Motion)
    requires MotionOk(m)
    ensures MotionOk(r)
  {
    var stop := if sidestand && throttle == 0 then true
                else if !sidestand || throttle > 0 then false
                else m.sidestandStop;
    var speed := if throttle > 0 && m.ridingMode == FORWARD then 5
                 else if throttle > 0 && m.ridingMode == REVERSE then 3
                 else if sidestand && throttle < 0 then m.vehicleSpeed
                 else 0;
    if stop then m.(vehicleSpeed := 0, ridingMode := NEUTRAL, sidestandStop := true)
    else m.(vehicleSpeed := speed, sidestandStop := false)
  }

  predicate Tilted(pitch: int)
  {
    pitch >= INCLINE_THRESHOLD || pitch <= DECLINE_THRESHOLD
  }

  /** Braking while riding on a slope requests a stop, remembering the riding mode. */
  function RequestStop(m: Motion, brake: bool, pitch: int): Motion
  {
    if (m.ridingMode == FORWARD || m.ridingMode == REVERSE) && brake && !m.holdActive && Tilted(pitch)
    then m.(vehicleSpeed := 0, manualBrakeRequested := true, previousRidingMode := m.ridingMode)
    else m
  }

  /** Once stopped after a request, hold, up or down by the pitch. */
  function EnterHold(m: Motion, pitch: int): Motion
  {
    if m.manualBrakeRequested && m.vehicleSpeed == 0
    then m.(ridingMode := if pitch >= INCLINE_THRESHOLD then HOLD_UP
                          else if pitch <= DECLINE_THRESHOLD then HOLD_DOWN
                          else m.ridingMode,
            holdActive := true, manualBrakeRequested := false)
    else m
  }

  /** Throttle releases the hold into the remembered mode. */
  function ReleaseHold(m: Motion, throttle: int): Motion
  {
    if m.holdActive && throttle > 0 then m.(ridingMode := m.previousRidingMode, holdActive := false) else m
  }

  /** The failsafe against a hold entered from neutral. */
  function HoldFailsafe(m: Motion): Motion
  {
    if (m.ridingMode == HOLD_UP || m.ridingMode == HOLD_DOWN) && m.previousRidingMode == NEUTRAL
    then m.(ridingMode := NEUTRAL, holdActive := false, manualBrakeRequested := false)
    else m
  }

  /** process_hold_state */
  function HoldStep(m: Motion, brake: bool, pitch: int, throttle: int): (r: Motion)
    requires MotionOk(m)
    ensures MotionOk(r)
  {
    HoldFailsafe(ReleaseHold(EnterHold(RequestStop(m, brake, pitch), pitch), throttle))
  }

  /** The first half of process_indicator_state: latch the request, count, and flip on the third count. */
  function Blink(b: Blinker, indicatorState: nat): Blinker
  {
    var active := b.active || indicatorState != 0 || b.previousState != 0;
    var prev := if indicatorState != 0 then indicatorState else b.previousState;
    var tick := if active then b.timer + 1 else b.timer;
    Blinker(if tick >= 3 then !b.on else b.on, if tick >= 3 then 0 else tick, active, prev)
  }

  /** process_indicator_state: the blinker after the call (a frame sent with no request pending ends the blinking). */
  function IndicatorStep(b: Blinker, indicatorState: nat): (r: Blinker)
    requires BlinkerOk(b) && IsU8(indicatorState)
    ensures BlinkerOk(r)
  {
    var b1 := Blink(b, indicatorState);
    if IndicatorFrame(b1).Some? && indicatorState == 0 then b1.(active := false) else b1
  }

  // ---------------------------------------------------------------------------
  // Properties of the steps
  // ---------------------------------------------------------------------------

  /**
   * Presses of the start button outside hill hold: from neutral the first
   * press selects reverse or forward as the toggle says, the next returns to
   * neutral, and the one after selects the other direction.
   */
  lemma StartAlternates(m: Motion)
    requires MotionOk(m) && !m.holdActive && m.ridingMode == NEUTRAL
    ensures var a := StartPress(m);
      var b := StartPress(a);
      var c := StartPress(b);
      a.ridingMode == (if m.nextIsReverse then REVERSE else FORWARD)
      && b.ridingMode == NEUTRAL
      && c.ridingMode == (if m.nextIsReverse then FORWARD else REVERSE)
  {
  }

  /** After power-on the first press selects reverse. */
  lemma FirstPressIsReverse()
    ensures MotionOk(InitialMotion) && StartPress(InitialMotion).ridingMode == REVERSE
  {
  }

  /** During hill hold the start button changes nothing. */
  lemma StartIgnoredInHold(m: Motion)
    requires MotionOk(m) && m.holdActive
    ensures StartPress(m) == m
  {
  }

  /** Side stand down with no throttle: stopped, in neutral. */
  lemma SidestandStops(m: Motion, throttle: int)
    requires MotionOk(m) && throttle == 0
    ensures UpdateSpeed(m, true, throttle).vehicleSpeed == 0 && UpdateSpeed(m, true, throttle).ridingMode == NEUTRAL
  {
  }

  /** With throttle applied the speed is fixed by the riding mode, which is kept. */
  lemma ThrottleSpeed(m: Motion, sidestand: bool, throttle: int)
    requires MotionOk(m) && throttle > 0
    ensures UpdateSpeed(m, sidestand, throttle).ridingMode == m.ridingMode
    ensures UpdateSpeed(m, sidestand, throttle).vehicleSpeed ==
      if m.ridingMode == FORWARD then 5 else if m.ridingMode == REVERSE then 3 else 0
  {
  }

  /**
   * Braking on a slope while riding, with no throttle, stops the vehicle and
   * enters hill hold, up or down by the sign of the pitch, remembering the
   * riding mode to come back to.
   */
  lemma HoldEntry(m: Motion, pitch: int, throttle: int)
    requires MotionOk(m) && (m.ridingMode == FORWARD || m.ridingMode == REVERSE)
    requires !m.holdActive && Tilted(pitch) && throttle <= 0
    ensures var r := HoldStep(m, true, pitch, throttle);
      r.holdActive && r.vehicleSpeed == 0 && r.previousRidingMode == m.ridingMode
      && r.ridingMode == (if pitch >= INCLINE_THRESHOLD then HOLD_UP else HOLD_DOWN)
  {
  }

  /** Hill hold ends exactly when throttle is applied, restoring the remembered mode. */
  lemma HoldRelease(m: Motion, brake: bool, pitch: int, throttle: int)
    requires MotionOk(m) && m.holdActive
    ensures HoldStep(m, brake, pitch, throttle).holdActive <==> throttle <= 0
    ensures throttle <= 0 ==> HoldStep(m, brake, pitch, throttle) == m
    ensures throttle > 0 ==> HoldStep(m, brake, pitch, throttle).ridingMode == m.previousRidingMode
  {
  }

  /** Out of neutral, and not holding, the hold logic changes nothing. */
  lemma NoHoldFromNeutral(m: Motion, brake: bool, pitch: int, throttle: int)
    requires MotionOk(m) && !m.holdActive && m.ridingMode == NEUTRAL
    ensures HoldStep(m, brake, pitch, throttle) == m
  {
  }

  /** While an indicator is requested each call counts modulo 3 and flips the output when the count wraps. */
  lemma BlinkCounts(b: Blinker, indicatorState: nat)
    requires BlinkerOk(b) && IsU8(indicatorState) && indicatorState != 0
    ensures IndicatorStep(b, indicatorState).timer == (b.timer + 1) % 3
    ensures IndicatorStep(b, indicatorState).on <==> (b.on != (b.timer == 2))
  {
  }

  /** Three calls with an indicator requested flip the output exactly once. */
  lemma {:induction false} BlinkEveryThirdCall(b: Blinker, indicatorState: nat)
    requires BlinkerOk(b) && IsU8(indicatorState) && indicatorState != 0
    ensures var c := IndicatorStep(IndicatorStep(IndicatorStep(b, indicatorState), indicatorState), indicatorState);
      c.timer == b.timer && c.on == !b.on
  {
    var b1 := IndicatorStep(b, indicatorState);
    BlinkCounts(b, indicatorState);
    var b2 := IndicatorStep(b1, indicatorState);
    BlinkCounts(b1, indicatorState);
    BlinkCounts(b2, indicatorState);
  }

  // ---------------------------------------------------------------------------
  // The application state and the functions of can_process.c
  // ---------------------------------------------------------------------------

  class VehicleApp {
    // globals written by the CAN receive path (app_can.c)
    var hornState: bool
    var brakeState: bool
    var indicatorState: nat
    var throttle: int
    var sidestandEngaged: bool
    var pitch: int
    // globals written here
    var ridingMode: nat
    var vehicleSpeed: nat
    var holdActive: bool
    // function-local statics
    var nextIsReverse: bool
    var sidestandStop: bool
    var manualBrakeRequested: bool
    var previousRidingMode: nat
    var indicatorOn: bool
    var indicatorTimer: nat
    var indicatorActive: bool
    var previousIndicatorState: nat

    function MotionState(): Motion
      reads this
    {
      Motion(ridingMode, vehicleSpeed, holdActive, nextIsReverse, sidestandStop, manualBrakeRequested, previousRidingMode)
    }

    function BlinkerState(): Blinker
      reads this
    {
      Blinker(indicatorOn, indicatorTimer, indicatorActive, previousIndicatorState)
    }

    ghost predicate Valid()
      reads this
    {
      MotionOk(MotionState()) && BlinkerOk(BlinkerState())
      && IsU8(indicatorState) && ThrottleOk(throttle) && PitchOk(pitch)
    }

    constructor ()
      ensures Valid() && MotionState() == InitialMotion && BlinkerState() == InitialBlinker
      ensures !hornState && !brakeState && indicatorState == 0 && throttle == 0 && !sidestandEngaged && pitch == 0
    {
      hornState, brakeState, indicatorState, throttle, sidestandEngaged, pitch := false, false, 0, 0, false, 0;
      ridingMode, vehicleSpeed, holdActive := NEUTRAL, 0, false;
      nextIsReverse, sidestandStop, manualBrakeRequested, previousRidingMode := true, false, false, FORWARD;
      indicatorOn, indicatorTimer, indicatorActive, previousIndicatorState := false, 0, false, 0;
    }

    /** process_horn_state */
    method ProcessHornState() returns (sent: Tx)
      ensures sent == HornFrame(hornState)
    {
      sent := Tx(STATUS_ID, [0x01, if hornState then 0x01 else 0x00]);
    }

    /** process_brake_state */
    method ProcessBrakeState() returns (sent: Tx)
      ensures sent == BrakeFrame(brakeState)
    {
      sent := Tx(STATUS_ID, [0x03, if brakeState then 0x02 else 0x00]);
    }

    /** handle_start_button_press */
    method HandleStartButtonPress()
      requires Valid()
      modifies this`ridingMode, this`nextIsReverse
      ensures Valid() && MotionState() == StartPress(old(MotionState()))
    {
      if holdActive {
        return;
      }
      if ridingMode == NEUTRAL {
        if nextIsReverse {
          ridingMode := REVERSE;
        } else {
          ridingMode := FORWARD;
        }
        nextIsReverse := !nextIsReverse;
      } else {
        ridingMode := NEUTRAL;
      }
    }

    /** update_vehicle_speed */
    method UpdateVehicleSpeed() returns (sent: Tx)
      requires Valid()
      modifies this`ridingMode, this`vehicleSpeed, this`sidestandStop
      ensures Valid() && MotionState() == UpdateSpeed(old(MotionState()), sidestandEngaged, throttle)
      ensures sent == MotionFrame(MotionState())
    {
      if sidestandEngaged && throttle == 0 {
        vehicleSpeed := 0;
        ridingMode := NEUTRAL;
        sidestandStop := true;
      } else if !sidestandEngaged || throttle > 0 {
        sidestandStop := false;
        if throttle > 0 {
          if ridingMode == FORWARD {
            vehicleSpeed := 5;
          } else if ridingMode == REVERSE {
            vehicleSpeed := 3;
          } else {
            vehicleSpeed := 0;
          }
        } else {
          vehicleSpeed := 0;
        }
      }
      if sidestandStop {
        vehicleSpeed := 0;
        ridingMode := NEUTRAL;
      }
      sent := Tx(MOTION_ID, [ridingMode as byte, vehicleSpeed as byte]);
    }

    /** process_hold_state, one if-statement of the C function per step. */
    method ProcessHoldState() returns (sent: Tx)
      requires Valid()
      modifies this`ridingMode, this`vehicleSpeed, this`holdActive, this`manualBrakeRequested, this`previousRidingMode
      ensures Valid() && MotionState() == HoldStep(old(MotionState()), brakeState, pitch, throttle)
      ensures sent == MotionFrame(MotionState())
    {
      RequestStopStep();
      EnterHoldStep();
      ReleaseHoldStep();
      FailsafeStep();
      sent := Tx(MOTION_ID, [ridingMode as byte, vehicleSpeed as byte]);
    }

    method RequestStopStep()
      modifies this`vehicleSpeed, this`manualBrakeRequested, this`previousRidingMode
      ensures MotionState() == RequestStop(old(MotionState()), brakeState, pitch)
    {
      if (ridingMode == FORWARD || ridingMode == REVERSE) && brakeState && !holdActive {
        if pitch >= INCLINE_THRESHOLD || pitch <= DECLINE_THRESHOLD {
          vehicleSpeed := 0;
          manualBrakeRequested := true;
          previousRidingMode := ridingMode;
        }
      }
    }

    method EnterHoldStep()
      modifies this`ridingMode, this`holdActive, this`manualBrakeRequested
      ensures MotionState() == EnterHold(old(MotionState()), pitch)
    {
      if manualBrakeRequested && vehicleSpeed == 0 {
        if pitch >= INCLINE_THRESHOLD {
          ridingMode := HOLD_UP;
        } else if pitch <= DECLINE_THRESHOLD {
          ridingMode := HOLD_DOWN;
        }
        holdActive := true;
        manualBrakeRequested := false;
      }
    }

    method ReleaseHoldStep()
      modifies this`ridingMode, this`holdActive
      ensures MotionState() == ReleaseHold(old(MotionState()), throttle)
    {
      if holdActive && throttle > 0 {
        ridingMode := previousRidingMode;
        holdActive := false;
      }
    }

    method FailsafeStep()
      modifies this`ridingMode, this`holdActive, this`manualBrakeRequested
      ensures MotionState() == HoldFailsafe(old(MotionState()))
    {
      if (ridingMode == HOLD_UP || ridingMode == HOLD_DOWN) && previousRidingMode == NEUTRAL {
        ridingMode := NEUTRAL;
        holdActive := false;
        manualBrakeRequested := false;
      }
    }

    /** process_indicator_state: returns the frame sent, if any. */
    method ProcessIndicatorState() returns (sent: Option<Tx>)
      requires Valid()
      modifies this`indicatorOn, this`indicatorTimer, this`indicatorActive, this`previousIndicatorState
      ensures Valid() && BlinkerState() == IndicatorStep(old(BlinkerState()), indicatorState)
      ensures sent == IndicatorFrame(Blink(old(BlinkerState()), indicatorState))
    {
      if indicatorState == 0 && previousIndicatorState != 0 {
        indicatorActive := true;
      }
      if indicatorState != 0 {
        previousIndicatorState := indicatorState;
        indicatorActive := true;
      }
      if indicatorActive {
        indicatorTimer := indicatorTimer + 1;
        if indicatorTimer >= 3 {
          indicatorTimer := 0;
          indicatorOn := !indicatorOn;
        }
      }
      var level: byte;
      if indicatorOn {
        if previousIndicatorState == 1 {
          level := 0x01;
        } else if previousIndicatorState == 2 {
          level := 0x02;
        } else {
          return None;
        }
      } else {
        level := 0x00;
      }
      sent := Some(Tx(STATUS_ID, [0x04, level]));
      if indicatorState == 0 {
        indicatorActive := false;
      }
    }
  }
}
