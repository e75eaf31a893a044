/**
 * What the two MotorController classes share: the motor selector bits, the
 * array index of each motor, the mirrored state (armed bits, requested speeds
 * and raw PWM values) as a value, the arm and disarm updates, and Arduino's
 * `map` and `constrain`.
 */
module MotorCommon {
  import opened DofProtocol

  const MOTOR_FRONT: bv8 := 0x1
  const MOTOR_LEFT: bv8 := 0x2
  const MOTOR_RIGHT: bv8 := 0x4
  const MOTOR_BACK: bv8 := 0x8
  const MOTOR_ALL: bv8 := 0xF

  /** Array positions of the four motors in `motorSpeeds` and `motorRaw`. */
  const FRONT_I: nat := 0
  const RIGHT_I: nat := 1
  const LEFT_I: nat := 2
  const BACK_I: nat := 3

  /** The selector bit of the motor stored at index i. */
  function Bit(i: nat): (b: bv8)
    requires i < 4
    ensures b != 0 && b & MOTOR_ALL == b
  {
    if i == FRONT_I then MOTOR_FRONT
    else if i == RIGHT_I then MOTOR_RIGHT
    else if i == LEFT_I then MOTOR_LEFT
    else MOTOR_BACK
  }

  /** `motors & MOTOR_X`: the mask selects the motor at index i. */
  predicate Selected(motors: bv8, i: nat)
    requires i < 4
  {
    motors & Bit(i) != 0
  }

  /** The four single-motor constants, the only selectors the getters answer for. */
  predicate IsMotor(motor: bv8) {
    motor == MOTOR_FRONT || motor == MOTOR_BACK || motor == MOTOR_LEFT || motor == MOTOR_RIGHT
  }

  function IndexOf(motor: bv8): (i: nat)
    requires IsMotor(motor)
    ensures i < 4 && Bit(i) == motor
  {
    if motor == MOTOR_FRONT then FRONT_I
    else if motor == MOTOR_BACK then BACK_I
    else if motor == MOTOR_LEFT then LEFT_I
    else RIGHT_I
  }

  /** A single-motor selector picks exactly its own motor; MOTOR_ALL picks every motor. */
  lemma SelectorsPick(i: nat, j: nat)
    requires i < 4 && j < 4
    ensures Selected(Bit(i), j) <==> i == j
    ensures Selected(MOTOR_ALL, j)
  {
  }

  /** A motor is selected by `a & b` exactly when both masks select it. */
  lemma SelectedBoth(a: bv8, b: bv8, i: nat)
    requires i < 4
    ensures Selected(a & b, i) <==> Selected(a, i) && Selected(b, i)
  {
  }

  /**
   * The state a MotorController mirrors: the armed bits, and per motor (in
   * index order FRONT, RIGHT, LEFT, BACK) the requested speed and the raw
   * PWM value last written to its pin.
   */
  datatype Motors = Motors(armed: bv8, speeds: seq<byte>, raws: seq<byte>)

  /** Four motors, and no armed bit outside MOTOR_ALL. */
  predicate Shaped(m: Motors) {
    |m.speeds| == 4 && |m.raws| == 4 && m.armed & !MOTOR_ALL == 0
  }

  predicate ArmedAt(m: Motors, i: nat)
    requires i < 4
  {
    m.armed & Bit(i) != 0
  }

  /** A speed request reaches motor i: its bit is both selected and armed. */
  predicate Takes(m: Motors, motors: bv8, i: nat)
    requires i < 4
  {
    Selected(motors & m.armed, i)
  }

  lemma TakesIff(m: Motors, motors: bv8, i: nat)
    requires i < 4
    ensures Takes(m, motors, i) <==> Selected(motors, i) && ArmedAt(m, i)
    ensures Takes(m, motors & Bit(i), i) <==> Takes(m, motors, i)
  {
    SelectedBoth(motors, m.armed, i);
    SelectedBoth(motors & Bit(i), m.armed, i);
    SelectedBoth(motors, Bit(i), i);
    SelectorsPick(i, i);
  }

  /** The state both constructors leave: nothing armed, every speed and raw value 0. */
  const STOPPED := Motors(0, [0, 0, 0, 0], [0, 0, 0, 0])

  /** armMotor: every selected motor is armed, its speed zeroed and the arming pulse written; the others keep their state. */
  function Arm(m: Motors, motors: bv8, armPulse: byte): (r: Motors)
    requires Shaped(m)
    ensures Shaped(r)
  {
    Motors(m.armed | (motors & MOTOR_ALL),
      seq(4, i requires 0 <= i < 4 => if Selected(motors, i) then 0 else m.speeds[i]),
      seq(4, i requires 0 <= i < 4 => if Selected(motors, i) then armPulse else m.raws[i]))
  }

  /** disarmMotor: every selected motor is disarmed, its speed zeroed and its pin driven to 0; the others keep their state. */
  function Disarm(m: Motors, motors: bv8): (r: Motors)
    requires Shaped(m)
    ensures Shaped(r)
  {
    Motors(m.armed & !(motors & MOTOR_ALL),
      seq(4, i requires 0 <= i < 4 => if Selected(motors, i) then 0 else m.speeds[i]),
      seq(4, i requires 0 <= i < 4 => if Selected(motors, i) then 0 else m.raws[i]))
  }

  /** armMotor's branch for motor i. */
  function ArmStep(m: Motors, motors: bv8, armPulse: byte, i: nat): (r: Motors)
    requires Shaped(m) && i < 4
    ensures Shaped(r)
  {
    var hit := Selected(motors, i);
    Motors(if hit then m.armed | Bit(i) else m.armed,
      m.speeds[i := if hit then 0 else m.speeds[i]],
      m.raws[i := if hit then armPulse else m.raws[i]])
  }

  /** disarmMotor's branch for motor i. */
  function DisarmStep(m: Motors, motors: bv8, i: nat): (r: Motors)
    requires Shaped(m) && i < 4
    ensures Shaped(r)
  {
    var hit := Selected(motors, i);
    Motors(if hit then m.armed & !Bit(i) else m.armed,
      m.speeds[i := if hit then 0 else m.speeds[i]],
      m.raws[i := if hit then 0 else m.raws[i]])
  }

  /** The source's four arming branches, taken in its order FRONT, BACK, LEFT, RIGHT, arm exactly the selected motors. */
  lemma ArmInOrder(m: Motors, motors: bv8, armPulse: byte)
    requires Shaped(m)
    ensures ArmStep(ArmStep(ArmStep(ArmStep(m, motors, armPulse, FRONT_I), motors, armPulse, BACK_I),
              motors, armPulse, LEFT_I), motors, armPulse, RIGHT_I) == Arm(m, motors, armPulse)
  {
    var r := ArmStep(ArmStep(ArmStep(ArmStep(m, motors, armPulse, FRONT_I), motors, armPulse, BACK_I),
               motors, armPulse, LEFT_I), motors, armPulse, RIGHT_I);
    assert r.speeds == Arm(m, motors, armPulse).speeds;
    assert r.raws == Arm(m, motors, armPulse).raws;
  }

  /** The source's four disarming branches, in its order, disarm exactly the selected motors. */
  lemma DisarmInOrder(m: Motors, motors: bv8)
    requires Shaped(m)
    ensures DisarmStep(DisarmStep(DisarmStep(DisarmStep(m, motors, FRONT_I), motors, BACK_I), motors, LEFT_I),
              motors, RIGHT_I) == Disarm(m, motors)
  {
    var r := DisarmStep(DisarmStep(DisarmStep(DisarmStep(m, motors, FRONT_I), motors, BACK_I), motors, LEFT_I),
               motors, RIGHT_I);
    assert r.speeds == Disarm(m, motors).speeds;
    assert r.raws == Disarm(m, motors).raws;
  }

  /** Arming sets exactly the selected bits, disarming clears exactly them. */
  lemma ArmedBits(m: Motors, motors: bv8, armPulse: byte, i: nat)
    requires Shaped(m) && i < 4
    ensures ArmedAt(Arm(m, motors, armPulse), i) <==> Selected(motors, i) || ArmedAt(m, i)
    ensures ArmedAt(Disarm(m, motors), i) <==> !Selected(motors, i) && ArmedAt(m, i)
  {
  }

  /** Arming twice is arming once; disarming after arming is disarming. */
  lemma ArmIdempotent(m: Motors, motors: bv8, armPulse: byte)
    requires Shaped(m)
    ensures Arm(Arm(m, motors, armPulse), motors, armPulse) == Arm(m, motors, armPulse)
    ensures Disarm(Arm(m, motors, armPulse), motors) == Disarm(m, motors)
  {
    var a := Arm(m, motors, armPulse);
    assert Arm(a, motors, armPulse).speeds == a.speeds;
    assert Arm(a, motors, armPulse).raws == a.raws;
    assert Disarm(a, motors).speeds == Disarm(m, motors).speeds;
    assert Disarm(a, motors).raws == Disarm(m, motors).raws;
  }

  /** Disarming MOTOR_ALL brings any state back to the constructor's. */
  lemma DisarmAllStops(m: Motors)
    requires Shaped(m)
    ensures Disarm(m, MOTOR_ALL) == STOPPED
  {
    var d := Disarm(m, MOTOR_ALL);
    forall i | 0 <= i < 4
      ensures d.speeds[i] == 0 && d.raws[i] == 0
    {
      SelectorsPick(0, i);
    }
    assert d.speeds == STOPPED.speeds && d.raws == STOPPED.raws;
  }

  /** Arduino's `constrain(x, lo, hi)`. */
  function Constrain(x: int, lo: int, hi: int): (r: int)
    requires lo <= hi
    ensures lo <= r <= hi
    ensures lo <= x <= hi ==> r == x
  {
    if x < lo then lo else if x > hi then hi else x
  }

  /** Arduino's `map(x, inMin, inMax, outMin, outMax)`, in `long` arithmetic with C division. */
  function ArduinoMap(x: int, inMin: int, inMax: int, outMin: int, outMax: int): int
    requires inMin < inMax
  {
    CDiv((x - inMin) * (outMax - outMin), inMax - inMin) + outMin
  }

  /** Mapping 0..255 onto [lo, hi] lands inside it and keeps the order of the inputs. */
  lemma MapSpeed(x: int, y: int, lo: int, hi: int)
    requires 0 <= x <= y <= 255 && 0 <= lo <= hi
    ensures lo <= ArduinoMap(x, 0, 255, lo, hi) <= ArduinoMap(y, 0, 255, lo, hi) <= hi
  {
    var w := hi - lo;
    assert 0 <= x * w <= y * w <= 255 * w;
    assert x * w / 255 <= y * w / 255 <= 255 * w / 255 == w;
  }

  /** The ends of the speed range map to the ends of the pulse range. */
  lemma MapSpeedEnds(lo: int, hi: int)
    requires 0 <= lo <= hi
    ensures ArduinoMap(0, 0, 255, lo, hi) == lo && ArduinoMap(255, 0, 255, lo, hi) == hi
  {
  }
}
