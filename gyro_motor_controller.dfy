/**
 * The MotorController of the gyro IMU test sketch: four ESC-driven motors
 * selected by OR-able bits, armed and disarmed per bit, driven with a
 * requested speed 0..255 that is mapped onto a PWM range, and nudged up or
 * down with a clamped signed delta. Pin writes are left out; the mirrored
 * `motorRaw` array stands for the PWM value on each pin.
 */
module GyroMotorModel {
  import opened DofProtocol
  import opened MotorCommon

  const MOTOR_ARM_VALUE: byte := 100
  const MOTOR_MIN_SPEED_VALUE: byte := 115
  const MOTOR_MAX_SPEED_VALUE: byte := 250

  /** The per-motor raw offsets, in index order FRONT, RIGHT, LEFT, BACK (all defaults 0). */
  const RAW_OFFSETS: seq<int> := [0, 0, 0, 0]

  /** setMotorSpeed's pulse before the offset: speed 0 holds the arming pulse, 1..255 spread over MIN..MAX. */
  function SpeedPulse(speed: byte): (raw: byte)
    ensures speed == 0 <==> raw == MOTOR_ARM_VALUE
    ensures speed > 0 ==> MOTOR_MIN_SPEED_VALUE <= raw <= MOTOR_MAX_SPEED_VALUE
  {
    if speed == 0 then MOTOR_ARM_VALUE
    else
      MapSpeed(speed as int, speed as int, MOTOR_MIN_SPEED_VALUE as int, MOTOR_MAX_SPEED_VALUE as int);
      ArduinoMap(speed as int, 0, 255, MOTOR_MIN_SPEED_VALUE as int, MOTOR_MAX_SPEED_VALUE as int) as byte
  }

  /** The raw value setMotorSpeed writes for motor i: the pulse plus its offset while running, truncated to a byte. */
  function MotorPulse(speed: byte, i: nat): (r: byte)
    requires i < 4
    ensures speed == 0 ==> r == MOTOR_ARM_VALUE
    ensures r as int == (SpeedPulse(speed) as int + (if speed > 0 then RAW_OFFSETS[i] else 0)) % 256
  {
    var raw := SpeedPulse(speed);
    ((raw as int + Constrain(if raw > MOTOR_ARM_VALUE then RAW_OFFSETS[i] else 0, 0, 255)) % 256) as byte
  }

  /** With the default offsets every motor gets the plain pulse, and a faster speed never gets a smaller one. */
  lemma MotorPulseOrdered(s: byte, t: byte, i: nat)
    requires i < 4 && s <= t
    ensures MotorPulse(s, i) == SpeedPulse(s)
    ensures MotorPulse(s, i) <= MotorPulse(t, i)
    ensures s < t ==> MOTOR_MIN_SPEED_VALUE <= MotorPulse(t, i)
  {
    if 0 < s {
      MapSpeed(s as int, t as int, MOTOR_MIN_SPEED_VALUE as int, MOTOR_MAX_SPEED_VALUE as int);
    }
  }

  /** The speed addMotorSpeed asks for: current plus delta, clamped to 0..255. */
  function Clamped(current: byte, delta: int): byte {
    Constrain(current as int + delta, 0, 255) as byte
  }

  /** setMotorSpeed: selected motors that are armed take the speed and its pulse; the rest keep their state. */
  function SetSpeed(m: Motors, motors: bv8, speed: byte): (r: Motors)
    requires Shaped(m)
    ensures Shaped(r) && r.armed == m.armed
  {
    m.(speeds := seq(4, i requires 0 <= i < 4 => if Takes(m, motors, i) then speed else m.speeds[i]),
       raws := seq(4, i requires 0 <= i < 4 => if Takes(m, motors, i) then MotorPulse(speed, i) else m.raws[i]))
  }

  /** setMotorRaw: every motor whose bit is in the mask takes the raw value. */
  function SetRaw(m: Motors, motors: bv8, raw: byte): (r: Motors)
    requires Shaped(m)
    ensures Shaped(r)
  {
    m.(raws := seq(4, i requires 0 <= i < 4 => if Selected(motors, i) then raw else m.raws[i]))
  }

  /**
   * addMotorSpeed: a zero delta does nothing; otherwise every selected motor
   * is asked for its current speed plus the delta, clamped to 0..255, which
   * only armed motors take.
   */
  function AddSpeed(m: Motors, motors: bv8, delta: int): (r: Motors)
    requires Shaped(m) && IsInt16(delta)
    ensures Shaped(r) && r.armed == m.armed
  {
    if delta == 0 then m
    else
      m.(speeds := seq(4, i requires 0 <= i < 4 =>
           if Takes(m, motors, i) then Clamped(m.speeds[i], delta) else m.speeds[i]),
         raws := seq(4, i requires 0 <= i < 4 =>
           if Takes(m, motors, i) then MotorPulse(Clamped(m.speeds[i], delta), i) else m.raws[i]))
  }

  /** The source's clamping of `current + delta` for a non-zero delta, branch by branch. */
  function NewSpeed(current: byte, delta: int): (r: byte)
    requires IsInt16(delta) && delta != 0
    ensures delta > 0 ==> current <= r
    ensures delta < 0 ==> r <= current
    ensures 0 <= current as int + delta <= 255 ==> r as int == current as int + delta
  {
    if delta > 0 then
      if current as int + delta >= 255 then 255 else (current as int + delta) as byte
    else
      if -delta >= current as int then 0 else (current as int + delta) as byte
  }

  /** The branchy computation is a clamp of the sum. */
  lemma NewSpeedClamps(current: byte, delta: int)
    requires IsInt16(delta) && delta != 0
    ensures NewSpeed(current, delta) == Clamped(current, delta)
  {
  }

  /** setMotorRaw's branch for motor i. */
  function RawStep(m: Motors, motors: bv8, raw: byte, i: nat): (r: Motors)
    requires Shaped(m) && i < 4
    ensures Shaped(r)
  {
    m.(raws := m.raws[i := if Selected(motors, i) then raw else m.raws[i]])
  }

  /** setMotorSpeed's branch for motor i. */
  function SpeedStep(m: Motors, motors: bv8, speed: byte, i: nat): (r: Motors)
    requires Shaped(m) && i < 4
    ensures Shaped(r) && r.armed == m.armed
  {
    var hit := Takes(m, motors, i);
    m.(speeds := m.speeds[i := if hit then speed else m.speeds[i]],
       raws := m.raws[i := if hit then MotorPulse(speed, i) else m.raws[i]])
  }

  /**
   * addMotorSpeed's branch for motor i: when its bit is selected, the
   * source's clamp of its speed is requested through setMotorSpeed for that
   * motor alone.
   */
  function AddStep(m: Motors, motors: bv8, delta: int, i: nat): (r: Motors)
    requires Shaped(m) && i < 4 && IsInt16(delta) && delta != 0
    ensures Shaped(r) && r.armed == m.armed
  {
    SpeedStep(m, motors & Bit(i), NewSpeed(m.speeds[i], delta), i)
  }

  /** addMotorSpeed's branch asks setMotorSpeed for the selected motor alone, and leaves an unselected one alone. */
  lemma AddStepBranches(m: Motors, motors: bv8, delta: int, i: nat)
    requires Shaped(m) && i < 4 && IsInt16(delta) && delta != 0
    ensures Selected(motors, i) ==> AddStep(m, motors, delta, i) == SetSpeed(m, Bit(i), NewSpeed(m.speeds[i], delta))
    ensures !Selected(motors, i) ==> AddStep(m, motors, delta, i) == m
  {
    TakesIff(m, motors, i);
    TakesIff(m, Bit(i), i);
    SetSpeedOfOne(m, NewSpeed(m.speeds[i], delta), i);
    var r := AddStep(m, motors, delta, i);
    if !Selected(motors, i) {
      assert r.speeds == m.speeds && r.raws == m.raws;
    }
  }

  /** A single-motor setMotorRaw writes that motor's slot and no other. */
  lemma SetRawOfOne(m: Motors, raw: byte, i: nat)
    requires Shaped(m) && i < 4
    ensures SetRaw(m, Bit(i), raw) == m.(raws := m.raws[i := raw])
  {
    forall j | 0 <= j < 4
      ensures SetRaw(m, Bit(i), raw).raws[j] == m.raws[i := raw][j]
    {
      SelectorsPick(i, j);
    }
  }

  /** A single-motor setMotorSpeed is that motor's branch. */
  lemma SetSpeedOfOne(m: Motors, speed: byte, i: nat)
    requires Shaped(m) && i < 4
    ensures SetSpeed(m, Bit(i), speed) == SpeedStep(m, Bit(i), speed, i)
  {
    var r := SpeedStep(m, Bit(i), speed, i);
    var s := SetSpeed(m, Bit(i), speed);
    forall j | 0 <= j < 4
      ensures s.speeds[j] == r.speeds[j] && s.raws[j] == r.raws[j]
    {
      SelectorsPick(i, j);
      SelectedBoth(Bit(i), m.armed, j);
    }
  }

  /** The four setMotorRaw branches, in the source's order FRONT, BACK, LEFT, RIGHT, give every selected motor the raw value. */
  lemma SetRawInOrder(m: Motors, motors: bv8, raw: byte)
    requires Shaped(m)
    ensures RawStep(RawStep(RawStep(RawStep(m, motors, raw, FRONT_I), motors, raw, BACK_I), motors, raw, LEFT_I),
              motors, raw, RIGHT_I) == SetRaw(m, motors, raw)
  {
    var r := RawStep(RawStep(RawStep(RawStep(m, motors, raw, FRONT_I), motors, raw, BACK_I), motors, raw, LEFT_I),
               motors, raw, RIGHT_I);
    assert r.raws == SetRaw(m, motors, raw).raws;
  }

  /** The four setMotorSpeed branches, in the source's order, set exactly the selected armed motors. */
  lemma SetSpeedInOrder(m: Motors, motors: bv8, speed: byte)
    requires Shaped(m)
    ensures SpeedStep(SpeedStep(SpeedStep(SpeedStep(m, motors, speed, FRONT_I), motors, speed, BACK_I),
              motors, speed, LEFT_I), motors, speed, RIGHT_I) == SetSpeed(m, motors, speed)
  {
    var r := SpeedStep(SpeedStep(SpeedStep(SpeedStep(m, motors, speed, FRONT_I), motors, speed, BACK_I),
               motors, speed, LEFT_I), motors, speed, RIGHT_I);
    assert r.speeds == SetSpeed(m, motors, speed).speeds;
    assert r.raws == SetSpeed(m, motors, speed).raws;
  }

  /**
   * The four addMotorSpeed branches, in the source's order, each with the
   * source's branchy clamp, give every selected armed motor its clamped sum.
   */
  lemma AddSpeedInOrder(m: Motors, motors: bv8, delta: int)
    requires Shaped(m) && IsInt16(delta) && delta != 0
    ensures AddStep(AddStep(AddStep(AddStep(m, motors, delta, FRONT_I), motors, delta, BACK_I),
              motors, delta, LEFT_I), motors, delta, RIGHT_I) == AddSpeed(m, motors, delta)
  {
    var r := AddStep(AddStep(AddStep(AddStep(m, motors, delta, FRONT_I), motors, delta, BACK_I),
               motors, delta, LEFT_I), motors, delta, RIGHT_I);
    var a := AddSpeed(m, motors, delta);
    NewSpeedClamps(m.speeds[FRONT_I], delta);
    NewSpeedClamps(m.speeds[BACK_I], delta);
    NewSpeedClamps(m.speeds[LEFT_I], delta);
    NewSpeedClamps(m.speeds[RIGHT_I], delta);
    TakesIff(m, motors, FRONT_I);
    TakesIff(m, motors, BACK_I);
    TakesIff(m, motors, LEFT_I);
    TakesIff(m, motors, RIGHT_I);
    assert r.speeds == a.speeds;
    assert r.raws == a.raws;
  }

  /** Motor i of a state that is consistent under the speed API: stopped with its pin at 0 while disarmed, otherwise carrying the pulse for its speed. */
  predicate SlotConsistent(m: Motors, i: nat)
    requires Shaped(m) && i < 4
  {
    if ArmedAt(m, i) then m.raws[i] == MotorPulse(m.speeds[i], i)
    else m.speeds[i] == 0 && m.raws[i] == 0
  }

  predicate Consistent(m: Motors) {
    Shaped(m) && forall i :: 0 <= i < 4 ==> SlotConsistent(m, i)
  }

  /** In a consistent state the pin of a motor is driven exactly when it is armed, never below the arming pulse. */
  lemma ConsistentDrivesArmed(m: Motors, i: nat)
    requires Consistent(m) && i < 4
    ensures m.raws[i] != 0 <==> ArmedAt(m, i)
    ensures ArmedAt(m, i) ==> MOTOR_ARM_VALUE <= m.raws[i] <= MOTOR_MAX_SPEED_VALUE
    ensures ArmedAt(m, i) ==> (m.raws[i] == MOTOR_ARM_VALUE <==> m.speeds[i] == 0)
  {
    assert SlotConsistent(m, i);
    if ArmedAt(m, i) {
      MotorPulseOrdered(m.speeds[i], m.speeds[i], i);
    }
  }

  /** The constructor's state is consistent, and arming with the arming pulse keeps consistency. */
  lemma ArmKeepsConsistent(m: Motors, motors: bv8)
    requires Consistent(m)
    ensures Consistent(STOPPED)
    ensures Consistent(Arm(m, motors, MOTOR_ARM_VALUE))
  {
    var r := Arm(m, motors, MOTOR_ARM_VALUE);
    forall i | 0 <= i < 4
      ensures SlotConsistent(r, i) && SlotConsistent(STOPPED, i)
    {
      assert SlotConsistent(m, i);
      ArmedBits(m, motors, MOTOR_ARM_VALUE, i);
      MotorPulseOrdered(0, 0, i);
    }
  }

  /** Disarming keeps consistency. */
  lemma DisarmKeepsConsistent(m: Motors, motors: bv8)
    requires Consistent(m)
    ensures Consistent(Disarm(m, motors))
  {
    var r := Disarm(m, motors);
    forall i | 0 <= i < 4
      ensures SlotConsistent(r, i)
    {
      assert SlotConsistent(m, i);
      ArmedBits(m, motors, 0, i);
    }
  }

  /** setMotorSpeed keeps consistency. */
  lemma SetSpeedKeepsConsistent(m: Motors, motors: bv8, speed: byte)
    requires Consistent(m)
    ensures Consistent(SetSpeed(m, motors, speed))
  {
    var r := SetSpeed(m, motors, speed);
    forall i | 0 <= i < 4
      ensures SlotConsistent(r, i)
    {
      assert SlotConsistent(m, i);
      TakesIff(m, motors, i);
    }
  }

  /** addMotorSpeed keeps consistency. */
  lemma AddSpeedKeepsConsistent(m: Motors, motors: bv8, delta: int)
    requires Consistent(m) && IsInt16(delta)
    ensures Consistent(AddSpeed(m, motors, delta))
  {
    var r := AddSpeed(m, motors, delta);
    forall i | 0 <= i < 4
      ensures SlotConsistent(r, i)
    {
      assert SlotConsistent(m, i);
      TakesIff(m, motors, i);
    }
  }

  /** A motor that is not armed ignores speed requests; the state is untouched when no selected motor is armed. */
  lemma UnarmedIgnoresSpeed(m: Motors, motors: bv8, speed: byte, delta: int)
    requires Shaped(m) && IsInt16(delta)
    requires forall i :: 0 <= i < 4 && Selected(motors, i) ==> !ArmedAt(m, i)
    ensures SetSpeed(m, motors, speed) == m
    ensures AddSpeed(m, motors, delta) == m
  {
    forall i | 0 <= i < 4
      ensures !Takes(m, motors, i)
    {
      TakesIff(m, motors, i);
    }
    assert SetSpeed(m, motors, speed).speeds == m.speeds;
    assert SetSpeed(m, motors, speed).raws == m.raws;
    assert AddSpeed(m, motors, delta).speeds == m.speeds;
    assert AddSpeed(m, motors, delta).raws == m.raws;
  }

  /** On a consistent state, subtracting a delta that no motor clamped undoes adding it. */
  lemma SubtractUndoesAdd(m: Motors, motors: bv8, delta: int)
    requires Consistent(m) && IsInt16(delta) && delta != -0x8000
    requires forall i :: 0 <= i < 4 && Takes(m, motors, i) ==> 0 <= m.speeds[i] as int + delta <= 255
    ensures AddSpeed(AddSpeed(m, motors, delta), motors, Wrap16(-delta)) == m
  {
    var a := AddSpeed(m, motors, delta);
    var b := AddSpeed(a, motors, Wrap16(-delta));
    assert Wrap16(-delta) == -delta;
    forall i | 0 <= i < 4
      ensures b.speeds[i] == m.speeds[i] && b.raws[i] == m.raws[i]
    {
      assert SlotConsistent(m, i);
      TakesIff(m, motors, i);
      TakesIff(a, motors, i);
    }
    assert b.speeds == m.speeds;
    assert b.raws == m.raws;
  }

  /** Speed then arm: re-arming a running motor stops it back at the arming pulse. */
  lemma ArmResetsSpeed(m: Motors, motors: bv8, speed: byte, i: nat)
    requires Shaped(m) && i < 4 && Selected(motors, i)
    ensures var r := Arm(SetSpeed(m, motors, speed), motors, MOTOR_ARM_VALUE);
      r.speeds[i] == 0 && r.raws[i] == MOTOR_ARM_VALUE && ArmedAt(r, i)
  {
    ArmedBits(SetSpeed(m, motors, speed), motors, MOTOR_ARM_VALUE, i);
  }

  class MotorController {
    var armedMask: bv8
    const motorSpeeds: array<byte>
    const motorRaw: array<byte>

    ghost predicate Valid()
      reads this
    {
      motorSpeeds.Length == 4 && motorRaw.Length == 4 && motorSpeeds != motorRaw &&
      armedMask & !MOTOR_ALL == 0
    }

    ghost function State(): (m: Motors)
      requires Valid()
      reads this, motorSpeeds, motorRaw
      ensures Shaped(m)
    {
      Motors(armedMask, motorSpeeds[..], motorRaw[..])
    }

    constructor ()
      ensures Valid() && State() == STOPPED
      ensures fresh(motorSpeeds) && fresh(motorRaw)
    {
      armedMask := 0;
      motorSpeeds := new byte[4](_ => 0);
      motorRaw := new byte[4](_ => 0);
    }

    /** One branch of setMotorRaw. */
    method RawBranch(motors: bv8, raw: byte, i: nat)
      requires Valid() && i < 4
      modifies motorRaw
      ensures Valid() && State() == RawStep(old(State()), motors, raw, i)
    {
      if motors & Bit(i) != 0 {
        motorRaw[i] := raw;
      }
    }

    method SetMotorRaw(motors: bv8, raw: byte)
      requires Valid()
      modifies motorRaw
      ensures Valid() && State() == SetRaw(old(State()), motors, raw)
    {
      RawBranch(motors, raw, FRONT_I);
      RawBranch(motors, raw, BACK_I);
      RawBranch(motors, raw, LEFT_I);
      RawBranch(motors, raw, RIGHT_I);
      SetRawInOrder(old(State()), motors, raw);
    }

    /** The raw value of a single motor; 0 for any other selector, combined masks included. */
    function GetMotorRaw(motor: bv8): (raw: byte)
      requires Valid()
      reads this, motorRaw
      ensures IsMotor(motor) ==> raw == motorRaw[IndexOf(motor)]
      ensures !IsMotor(motor) ==> raw == 0
    {
      if motor == MOTOR_FRONT then motorRaw[FRONT_I]
      else if motor == MOTOR_BACK then motorRaw[BACK_I]
      else if motor == MOTOR_LEFT then motorRaw[LEFT_I]
      else if motor == MOTOR_RIGHT then motorRaw[RIGHT_I]
      else 0
    }

    /** The requested speed of a single motor; 0 for any other selector, combined masks included. */
    function GetMotorSpeed(motor: bv8): (speed: byte)
      requires Valid()
      reads this, motorSpeeds
      ensures IsMotor(motor) ==> speed == motorSpeeds[IndexOf(motor)]
      ensures !IsMotor(motor) ==> speed == 0
    {
      if motor == MOTOR_FRONT then motorSpeeds[FRONT_I]
      else if motor == MOTOR_BACK then motorSpeeds[BACK_I]
      else if motor == MOTOR_LEFT then motorSpeeds[LEFT_I]
      else if motor == MOTOR_RIGHT then motorSpeeds[RIGHT_I]
      else 0
    }

    /** One branch of setMotorSpeed: a selected, armed motor takes the speed and its pulse through setMotorRaw. */
    method SpeedBranch(motors: bv8, speed: byte, i: nat)
      requires Valid() && i < 4
      modifies motorSpeeds, motorRaw
      ensures Valid() && State() == SpeedStep(old(State()), motors, speed, i)
    {
      TakesIff(State(), motors, i);
      if motors & Bit(i) != 0 && armedMask & Bit(i) != 0 {
        motorSpeeds[i] := speed;
        ghost var mid := State();
        SetMotorRaw(Bit(i), MotorPulse(speed, i));
        SetRawOfOne(mid, MotorPulse(speed, i), i);
      }
    }

    method SetMotorSpeed(motors: bv8, speed: byte)
      requires Valid()
      modifies motorSpeeds, motorRaw
      ensures Valid() && State() == SetSpeed(old(State()), motors, speed)
    {
      SpeedBranch(motors, speed, FRONT_I);
      SpeedBranch(motors, speed, BACK_I);
      SpeedBranch(motors, speed, LEFT_I);
      SpeedBranch(motors, speed, RIGHT_I);
      SetSpeedInOrder(old(State()), motors, speed);
    }

    /** One branch of armMotor: a selected motor is stopped, marked armed and given the arming pulse. */
    method ArmBranch(motors: bv8, i: nat)
      requires Valid() && i < 4
      modifies this, motorSpeeds, motorRaw
      ensures Valid() && State() == ArmStep(old(State()), motors, MOTOR_ARM_VALUE, i)
    {
      if motors & Bit(i) != 0 {
        motorSpeeds[i] := 0;
        armedMask := armedMask | Bit(i);
        ghost var mid := State();
        SetMotorRaw(Bit(i), MOTOR_ARM_VALUE);
        SetRawOfOne(mid, MOTOR_ARM_VALUE, i);
      }
    }

    method ArmMotor(motors: bv8)
      requires Valid()
      modifies this, motorSpeeds, motorRaw
      ensures Valid() && State() == Arm(old(State()), motors, MOTOR_ARM_VALUE)
    {
      ArmBranch(motors, FRONT_I);
      ArmBranch(motors, BACK_I);
      ArmBranch(motors, LEFT_I);
      ArmBranch(motors, RIGHT_I);
      ArmInOrder(old(State()), motors, MOTOR_ARM_VALUE);
    }

    /** One branch of disarmMotor: a selected motor is stopped, marked disarmed and its pin driven to 0. */
    method DisarmBranch(motors: bv8, i: nat)
      requires Valid() && i < 4
      modifies this, motorSpeeds, motorRaw
      ensures Valid() && State() == DisarmStep(old(State()), motors, i)
    {
      if motors & Bit(i) != 0 {
        motorSpeeds[i] := 0;
        armedMask := armedMask & !Bit(i);
        ghost var mid := State();
        SetMotorRaw(Bit(i), 0);
        SetRawOfOne(mid, 0, i);
      }
    }

    method DisarmMotor(motors: bv8)
      requires Valid()
      modifies this, motorSpeeds, motorRaw
      ensures Valid() && State() == Disarm(old(State()), motors)
    {
      DisarmBranch(motors, FRONT_I);
      DisarmBranch(motors, BACK_I);
      DisarmBranch(motors, LEFT_I);
      DisarmBranch(motors, RIGHT_I);
      DisarmInOrder(old(State()), motors);
    }

    /** One branch of addMotorSpeed: a selected motor asks setMotorSpeed for its clamped new speed. */
    method AddBranch(motors: bv8, delta: int, i: nat)
      requires Valid() && i < 4 && IsInt16(delta) && delta != 0
      modifies motorSpeeds, motorRaw
      ensures Valid() && State() == AddStep(old(State()), motors, delta, i)
    {
      AddStepBranches(State(), motors, delta, i);
      if motors & Bit(i) != 0 {
        var currentSpeed := motorSpeeds[i];
        var newSpeed := NewSpeed(currentSpeed, delta);
        SetMotorSpeed(Bit(i), newSpeed);
      }
    }

    method AddMotorSpeed(motors: bv8, delta: int)
      requires Valid() && IsInt16(delta)
      modifies motorSpeeds, motorRaw
      ensures Valid() && State() == AddSpeed(old(State()), motors, delta)
    {
      if delta == 0 {
        return;
      }
      AddBranch(motors, delta, FRONT_I);
      AddBranch(motors, delta, BACK_I);
      AddBranch(motors, delta, LEFT_I);
      AddBranch(motors, delta, RIGHT_I);
      AddSpeedInOrder(old(State()), motors, delta);
    }

    /** subtractMotorSpeed: addMotorSpeed with the negated delta, converted back to a `short`. */
    method SubtractMotorSpeed(motors: bv8, delta: int)
      requires Valid() && IsInt16(delta)
      modifies motorSpeeds, motorRaw
      ensures Valid() && State() == AddSpeed(old(State()), motors, Wrap16(-delta))
    {
      AddMotorSpeed(motors, Wrap16(-delta));
    }
  }
}
