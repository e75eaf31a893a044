/**
 * The MotorController of the MotorControl sketch: the same four motors,
 * armed bits and mirrored speed and raw arrays as the gyro version, but
 * with no offsets, a single pulse range 127..252, and a `setMotorRaw` that
 * answers only to a single-motor constant or to MOTOR_ALL, which it spreads
 * over the four motors by calling itself once per motor.
 */
module MotorControlModel {
  import opened DofProtocol
  import opened MotorCommon

  const MOTOR_ARM_VALUE: byte := 127
  /** The top of setMotorSpeed's pulse range, written as a literal in the source. */
  const MOTOR_TOP_VALUE: byte := 252

  /** setMotorSpeed's pulse: speed 0 holds the arming pulse, 1..255 spread over 127..252. */
  function SpeedPulse(speed: byte): (raw: byte)
    ensures MOTOR_ARM_VALUE <= raw <= MOTOR_TOP_VALUE
    ensures speed == 0 ==> raw == MOTOR_ARM_VALUE
  {
    if speed > 0 then
      MapSpeed(speed as int, speed as int, MOTOR_ARM_VALUE as int, MOTOR_TOP_VALUE as int);
      ArduinoMap(speed as int, 0, 255, MOTOR_ARM_VALUE as int, MOTOR_TOP_VALUE as int) as byte
    else MOTOR_ARM_VALUE
  }

  /** A faster speed never gets a smaller pulse. */
  lemma SpeedPulseOrdered(s: byte, t: byte)
    requires s <= t
    ensures SpeedPulse(s) <= SpeedPulse(t)
  {
    if 0 < s {
      MapSpeed(s as int, t as int, MOTOR_ARM_VALUE as int, MOTOR_TOP_VALUE as int);
    }
  }

  /** Full speed gets the top of the pulse range. */
  lemma FullSpeedPulse()
    ensures SpeedPulse(255) == MOTOR_TOP_VALUE
  {
    assert CDiv(255 * 125, 255) == 125;
  }

  /** The two lowest non-zero speeds still map to the arming pulse, so those motors get no more than an armed idle. */
  lemma SlowestSpeedsIdle()
    ensures SpeedPulse(1) == MOTOR_ARM_VALUE && SpeedPulse(2) == MOTOR_ARM_VALUE
    ensures SpeedPulse(3) == MOTOR_ARM_VALUE + 1
  {
    assert CDiv(1 * 125, 255) == 0;
    assert CDiv(2 * 125, 255) == 0;
    assert CDiv(3 * 125, 255) == 1;
  }

  /**
   * setMotorRaw: MOTOR_ALL writes every motor, a single-motor constant writes
   * that motor, and any other selector, combined masks included, writes none.
   */
  function SetRaw(m: Motors, motor: bv8, raw: byte): (r: Motors)
    requires Shaped(m)
    ensures Shaped(r) && r.armed == m.armed && r.speeds == m.speeds
  {
    m.(raws := seq(4, i requires 0 <= i < 4 => if motor == MOTOR_ALL || motor == Bit(i) then raw else m.raws[i]))
  }

  /** setMotorSpeed: selected motors that are armed take the speed and its pulse; the rest keep their state. */
  function SetSpeed(m: Motors, motors: bv8, speed: byte): (r: Motors)
    requires Shaped(m)
    ensures Shaped(r) && r.armed == m.armed
  {
    m.(speeds := seq(4, i requires 0 <= i < 4 => if Takes(m, motors, i) then speed else m.speeds[i]),
       raws := seq(4, i requires 0 <= i < 4 => if Takes(m, motors, i) then SpeedPulse(speed) else m.raws[i]))
  }

  /** setMotorSpeed's branch for motor i. */
  function SpeedStep(m: Motors, motors: bv8, speed: byte, i: nat): (r: Motors)
    requires Shaped(m) && i < 4
    ensures Shaped(r) && r.armed == m.armed
  {
    var hit := Takes(m, motors, i);
    m.(speeds := m.speeds[i := if hit then speed else m.speeds[i]],
       raws := m.raws[i := if hit then SpeedPulse(speed) else m.raws[i]])
  }

  /** A single-motor setMotorRaw writes that motor's slot and no other. */
  lemma SetRawOfOne(m: Motors, raw: byte, i: nat)
    requires Shaped(m) && i < 4
    ensures SetRaw(m, Bit(i), raw) == m.(raws := m.raws[i := raw])
  {
    forall j | 0 <= j < 4
      ensures SetRaw(m, Bit(i), raw).raws[j] == m.raws[i := raw][j]
    {
      SelectorsPick(i, j);
    }
  }

  /** Selectors: MOTOR_ALL writes all four raws, and a mask that is neither a motor nor MOTOR_ALL writes nothing. */
  lemma SetRawSelectors(m: Motors, motor: bv8, raw: byte)
    requires Shaped(m)
    ensures SetRaw(m, MOTOR_ALL, raw).raws == [raw, raw, raw, raw]
    ensures !IsMotor(motor) && motor != MOTOR_ALL ==> SetRaw(m, motor, raw) == m
  {
    assert SetRaw(m, MOTOR_ALL, raw).raws == [raw, raw, raw, raw];
    if !IsMotor(motor) && motor != MOTOR_ALL {
      assert SetRaw(m, motor, raw).raws == m.raws;
    }
  }

  /** A combined mask such as FRONT|BACK reaches no motor here, unlike in the gyro version. */
  lemma CombinedMaskWritesNothing(m: Motors, raw: byte)
    requires Shaped(m)
    ensures SetRaw(m, MOTOR_FRONT | MOTOR_BACK, raw) == m
  {
    SetRawSelectors(m, MOTOR_FRONT | MOTOR_BACK, raw);
  }

  /** MOTOR_ALL's four single-motor writes, in the source's order FRONT, BACK, RIGHT, LEFT, write every motor. */
  lemma SetRawAllInOrder(m: Motors, raw: byte)
    requires Shaped(m)
    ensures SetRaw(SetRaw(SetRaw(SetRaw(m, MOTOR_FRONT, raw), MOTOR_BACK, raw), MOTOR_RIGHT, raw), MOTOR_LEFT, raw)
      == SetRaw(m, MOTOR_ALL, raw)
  {
    var m1 := SetRaw(m, MOTOR_FRONT, raw);
    var m2 := SetRaw(m1, MOTOR_BACK, raw);
    var m3 := SetRaw(m2, MOTOR_RIGHT, raw);
    SetRawOfOne(m, raw, FRONT_I);
    SetRawOfOne(m1, raw, BACK_I);
    SetRawOfOne(m2, raw, RIGHT_I);
    SetRawOfOne(m3, raw, LEFT_I);
    SetRawSelectors(m, MOTOR_ALL, raw);
    assert SetRaw(m3, MOTOR_LEFT, raw).raws == SetRaw(m, MOTOR_ALL, raw).raws;
  }

  /** A single-motor setMotorSpeed is that motor's branch. */
  lemma SetSpeedOfOne(m: Motors, speed: byte, i: nat)
    requires Shaped(m) && i < 4
    ensures SetSpeed(m, Bit(i), speed) == SpeedStep(m, Bit(i), speed, i)
  {
    var r := SpeedStep(m, Bit(i), speed, i);
    var s := SetSpeed(m, Bit(i), speed);
    forall j | 0 <= j < 4
      ensures s.speeds[j] == r.speeds[j] && s.raws[j] == r.raws[j]
    {
      SelectorsPick(i, j);
      SelectedBoth(Bit(i), m.armed, j);
    }
  }

  /** The four setMotorSpeed branches, in the source's order FRONT, BACK, LEFT, RIGHT, set exactly the selected armed motors. */
  lemma SetSpeedInOrder(m: Motors, motors: bv8, speed: byte)
    requires Shaped(m)
    ensures SpeedStep(SpeedStep(SpeedStep(SpeedStep(m, motors, speed, FRONT_I), motors, speed, BACK_I),
              motors, speed, LEFT_I), motors, speed, RIGHT_I) == SetSpeed(m, motors, speed)
  {
    var r := SpeedStep(SpeedStep(SpeedStep(SpeedStep(m, motors, speed, FRONT_I), motors, speed, BACK_I),
               motors, speed, LEFT_I), motors, speed, RIGHT_I);
    assert r.speeds == SetSpeed(m, motors, speed).speeds;
    assert r.raws == SetSpeed(m, motors, speed).raws;
  }

  /** Motor i under the speed API: stopped with its pin at 0 while disarmed, otherwise carrying the pulse for its speed. */
  predicate SlotConsistent(m: Motors, i: nat)
    requires Shaped(m) && i < 4
  {
    if ArmedAt(m, i) then m.raws[i] == SpeedPulse(m.speeds[i])
    else m.speeds[i] == 0 && m.raws[i] == 0
  }

  predicate Consistent(m: Motors) {
    Shaped(m) && forall i :: 0 <= i < 4 ==> SlotConsistent(m, i)
  }

  /** In a consistent state a motor's pin is driven exactly when it is armed, within 127..252. */
  lemma ConsistentDrivesArmed(m: Motors, i: nat)
    requires Consistent(m) && i < 4
    ensures m.raws[i] != 0 <==> ArmedAt(m, i)
    ensures ArmedAt(m, i) ==> MOTOR_ARM_VALUE <= m.raws[i] <= MOTOR_TOP_VALUE
  {
    assert SlotConsistent(m, i);
  }

  /** The constructor's state is consistent, and arming with the arming pulse keeps consistency. */
  lemma ArmKeepsConsistent(m: Motors, motors: bv8)
    requires Consistent(m)
    ensures Consistent(STOPPED)
    ensures Consistent(Arm(m, motors, MOTOR_ARM_VALUE))
  {
    var r := Arm(m, motors, MOTOR_ARM_VALUE);
    forall i | 0 <= i < 4
      ensures SlotConsistent(r, i) && SlotConsistent(STOPPED, i)
    {
      assert SlotConsistent(m, i);
      ArmedBits(m, motors, MOTOR_ARM_VALUE, i);
    }
  }

  /** Disarming keeps consistency. */
  lemma DisarmKeepsConsistent(m: Motors, motors: bv8)
    requires Consistent(m)
    ensures Consistent(Disarm(m, motors))
  {
    var r := Disarm(m, motors);
    forall i | 0 <= i < 4
      ensures SlotConsistent(r, i)
    {
      assert SlotConsistent(m, i);
      ArmedBits(m, motors, 0, i);
    }
  }

  /** setMotorSpeed keeps consistency. */
  lemma SetSpeedKeepsConsistent(m: Motors, motors: bv8, speed: byte)
    requires Consistent(m)
    ensures Consistent(SetSpeed(m, motors, speed))
  {
    var r := SetSpeed(m, motors, speed);
    forall i | 0 <= i < 4
      ensures SlotConsistent(r, i)
    {
      assert SlotConsistent(m, i);
      TakesIff(m, motors, i);
    }
  }

  /** A motor that is not armed ignores speed requests; the state is untouched when no selected motor is armed. */
  lemma UnarmedIgnoresSpeed(m: Motors, motors: bv8, speed: byte)
    requires Shaped(m)
    requires forall i :: 0 <= i < 4 && Selected(motors, i) ==> !ArmedAt(m, i)
    ensures SetSpeed(m, motors, speed) == m
  {
    forall i | 0 <= i < 4
      ensures !Takes(m, motors, i)
    {
      TakesIff(m, motors, i);
    }
    assert SetSpeed(m, motors, speed).speeds == m.speeds;
    assert SetSpeed(m, motors, speed).raws == m.raws;
  }

  /** Setting a speed twice is setting it once, and the last of two speeds wins. */
  lemma SetSpeedLastWins(m: Motors, motors: bv8, s: byte, t: byte)
    requires Shaped(m)
    ensures SetSpeed(SetSpeed(m, motors, s), motors, t) == SetSpeed(m, motors, t)
  {
    var a := SetSpeed(m, motors, s);
    assert SetSpeed(a, motors, t).speeds == SetSpeed(m, motors, t).speeds;
    assert SetSpeed(a, motors, t).raws == SetSpeed(m, motors, t).raws;
  }

  class MotorController {
    var armedMask: bv8
    const motorSpeeds: array<byte>
    const motorRaw: array<byte>

    ghost predicate Valid()
      reads this
    {
      motorSpeeds.Length == 4 && motorRaw.Length == 4 && motorSpeeds != motorRaw &&
      armedMask & !MOTOR_ALL == 0
    }

    ghost function State(): (m: Motors)
      requires Valid()
      reads this, motorSpeeds, motorRaw
      ensures Shaped(m)
    {
      Motors(armedMask, motorSpeeds[..], motorRaw[..])
    }

    constructor ()
      ensures Valid() && State() == STOPPED
      ensures fresh(motorSpeeds) && fresh(motorRaw)
    {
      armedMask := 0;
      motorSpeeds := new byte[4](_ => 0);
      motorRaw := new byte[4](_ => 0);
    }

    /** setMotorRaw: MOTOR_ALL by one call per motor, otherwise the motor whose constant it equals. */
    method SetMotorRaw(motor: bv8, raw: byte)
      requires Valid()
      modifies motorRaw
      ensures Valid() && State() == SetRaw(old(State()), motor, raw)
      decreases if motor == MOTOR_ALL then 1 else 0
    {
      if motor == MOTOR_ALL {
        SetMotorRaw(MOTOR_FRONT, raw);
        SetMotorRaw(MOTOR_BACK, raw);
        SetMotorRaw(MOTOR_RIGHT, raw);
        SetMotorRaw(MOTOR_LEFT, raw);
        SetRawAllInOrder(old(State()), raw);
        return;
      }
      SetRawSelectors(State(), motor, raw);
      if motor == MOTOR_FRONT {
        SetRawOfOne(State(), raw, FRONT_I);
        motorRaw[FRONT_I] := raw;
      } else if motor == MOTOR_BACK {
        SetRawOfOne(State(), raw, BACK_I);
        motorRaw[BACK_I] := raw;
      } else if motor == MOTOR_LEFT {
        SetRawOfOne(State(), raw, LEFT_I);
        motorRaw[LEFT_I] := raw;
      } else if motor == MOTOR_RIGHT {
        SetRawOfOne(State(), raw, RIGHT_I);
        motorRaw[RIGHT_I] := raw;
      }
    }

    /** The raw value of a single motor; 0 for any other selector, combined masks included. */
    function GetMotorRaw(motor: bv8): (raw: byte)
      requires Valid()
      reads this, motorRaw
      ensures IsMotor(motor) ==> raw == motorRaw[IndexOf(motor)]
      ensures !IsMotor(motor) ==> raw == 0
    {
      if motor == MOTOR_FRONT then motorRaw[FRONT_I]
      else if motor == MOTOR_BACK then motorRaw[BACK_I]
      else if motor == MOTOR_LEFT then motorRaw[LEFT_I]
      else if motor == MOTOR_RIGHT then motorRaw[RIGHT_I]
      else 0
    }

    /** The requested speed of a single motor; 0 for any other selector, combined masks included. */
    function GetMotorSpeed(motor: bv8): (speed: byte)
      requires Valid()
      reads this, motorSpeeds
      ensures IsMotor(motor) ==> speed == motorSpeeds[IndexOf(motor)]
      ensures !IsMotor(motor) ==> speed == 0
    {
      if motor == MOTOR_FRONT then motorSpeeds[FRONT_I]
      else if motor == MOTOR_BACK then motorSpeeds[BACK_I]
      else if motor == MOTOR_LEFT then motorSpeeds[LEFT_I]
      else if motor == MOTOR_RIGHT then motorSpeeds[RIGHT_I]
      else 0
    }

    /** One branch of setMotorSpeed: a selected, armed motor takes the speed and the pulse computed once for the call. */
    method SpeedBranch(motors: bv8, speed: byte, raw: byte, i: nat)
      requires Valid() && i < 4 && raw == SpeedPulse(speed)
      modifies motorSpeeds, motorRaw
      ensures Valid() && State() == SpeedStep(old(State()), motors, speed, i)
    {
      TakesIff(State(), motors, i);
      if motors & Bit(i) != 0 && armedMask & Bit(i) != 0 {
        motorSpeeds[i] := speed;
        ghost var mid := State();
        SetMotorRaw(Bit(i), raw);
        SetRawOfOne(mid, raw, i);
      }
    }

    method SetMotorSpeed(motors: bv8, speed: byte)
      requires Valid()
      modifies motorSpeeds, motorRaw
      ensures Valid() && State() == SetSpeed(old(State()), motors, speed)
    {
      var raw := if speed > 0 then
        ArduinoMap(speed as int, 0, 255, MOTOR_ARM_VALUE as int, MOTOR_TOP_VALUE as int) as byte
      else MOTOR_ARM_VALUE;
      SpeedBranch(motors, speed, raw, FRONT_I);
      SpeedBranch(motors, speed, raw, BACK_I);
      SpeedBranch(motors, speed, raw, LEFT_I);
      SpeedBranch(motors, speed, raw, RIGHT_I);
      SetSpeedInOrder(old(State()), motors, speed);
    }

    /** One branch of armMotor: a selected motor is stopped, marked armed and given the arming pulse. */
    method ArmBranch(motors: bv8, i: nat)
      requires Valid() && i < 4
      modifies this, motorSpeeds, motorRaw
      ensures Valid() && State() == ArmStep(old(State()), motors, MOTOR_ARM_VALUE, i)
    {
      if motors & Bit(i) != 0 {
        motorSpeeds[i] := 0;
        armedMask := armedMask | Bit(i);
        ghost var mid := State();
        SetMotorRaw(Bit(i), MOTOR_ARM_VALUE);
        SetRawOfOne(mid, MOTOR_ARM_VALUE, i);
      }
    }

    method ArmMotor(motors: bv8)
      requires Valid()
      modifies this, motorSpeeds, motorRaw
      ensures Valid() && State() == Arm(old(State()), motors, MOTOR_ARM_VALUE)
    {
      ArmBranch(motors, FRONT_I);
      ArmBranch(motors, BACK_I);
      ArmBranch(motors, LEFT_I);
      ArmBranch(motors, RIGHT_I);
      ArmInOrder(old(State()), motors, MOTOR_ARM_VALUE);
    }

    /** One branch of disarmMotor: a selected motor is stopped, marked disarmed and its pin driven to 0. */
    method DisarmBranch(motors: bv8, i: nat)
      requires Valid() && i < 4
      modifies this, motorSpeeds, motorRaw
      ensures Valid() && State() == DisarmStep(old(State()), motors, i)
    {
      if motors & Bit(i) != 0 {
        motorSpeeds[i] := 0;
        armedMask := armedMask & !Bit(i);
        ghost var mid := State();
        SetMotorRaw(Bit(i), 0);
        SetRawOfOne(mid, 0, i);
      }
    }

    method DisarmMotor(motors: bv8)
      requires Valid()
      modifies this, motorSpeeds, motorRaw
      ensures Valid() && State() == Disarm(old(State()), motors)
    {
      DisarmBranch(motors, FRONT_I);
      DisarmBranch(motors, BACK_I);
      DisarmBranch(motors, LEFT_I);
      DisarmBranch(motors, RIGHT_I);
      DisarmInOrder(old(State()), motors);
    }
  }
}
