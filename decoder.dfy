/**
 * The payload decoder (readPacket): the sensor records it fills and the
 * mode-dependent offsets it reads. Floating fields that the firmware obtains
 * by reinterpreting a 32-bit pattern are kept as that pattern; the gyro
 * floats are exact (raw / 256) and are kept as reals.
 */
module DofDecode {
  import opened DofProtocol

  /** DofData: accelerometer and magnetometer as 32-bit float patterns, gyro as degrees per second. */
  datatype DofData = DofData(
    accelX: word32, accelY: word32, accelZ: word32,
    magX: word32, magY: word32, magZ: word32,
    gyroX: real, gyroY: real, gyroZ: real)

  /** EulerData: roll, pitch and yaw as 32-bit float patterns. */
  datatype EulerData = EulerData(roll: word32, pitch: word32, yaw: word32)

  /** GyroData: the derived integer gyro triple and its checksum (a signed `char`). */
  datatype GyroData = GyroData(x: int, y: int, z: int, checkSum: int)

  /** Everything readPacket writes: the three records and the mode of the last packet. */
  datatype Sensors = Sensors(data: DofData, euler: EulerData, gyro: GyroData, lastMode: byte)

  const ZERO_SENSORS := Sensors(DofData(0, 0, 0, 0, 0, 0, 0.0, 0.0, 0.0), EulerData(0, 0, 0), GyroData(0, 0, 0, 0), 0)

  /** The integer triple and checksum derived from three gyro floats. */
  function GyroTriple(gx: real, gy: real, gz: real): GyroData {
    var x, y, z := Trunc(gx * 100.0), Trunc(gy * 100.0), Trunc(gz * 100.0);
    GyroData(x, y, z, CheckSum(x, y, z))
  }

  /**
   * readPacket for the given mode over a full payload: ALL reads six 32-bit
   * patterns at 0..20 and three shorts at 24, 26, 28; GYRO reads three shorts
   * at 0, 2, 4 and leaves the accelerometer and magnetometer fields as they
   * were; EULER reads three patterns at 0, 4, 8 and touches nothing else.
   */
  function Decode(mode: byte, buf: seq<byte>, s: Sensors): (r: Sensors)
    requires mode <= MODE_EULER && |buf| >= ModeSize(mode)
    ensures r.lastMode == mode
  {
    if mode == MODE_ALL then
      var data := DofData(
        ReadDouble(buf, 0), ReadDouble(buf, 4), ReadDouble(buf, 8),
        ReadDouble(buf, 12), ReadDouble(buf, 16), ReadDouble(buf, 20),
        GyroScaled(ReadShort(buf, 24)), GyroScaled(ReadShort(buf, 26)), GyroScaled(ReadShort(buf, 28)));
      s.(data := data, gyro := GyroTriple(data.gyroX, data.gyroY, data.gyroZ), lastMode := MODE_ALL)
    else if mode == MODE_GYRO then
      var data := s.data.(
        gyroX := GyroScaled(ReadShort(buf, 0)), gyroY := GyroScaled(ReadShort(buf, 2)),
        gyroZ := GyroScaled(ReadShort(buf, 4)));
      s.(data := data, gyro := GyroTriple(data.gyroX, data.gyroY, data.gyroZ), lastMode := MODE_GYRO)
    else
      s.(euler := EulerData(ReadDouble(buf, 0), ReadDouble(buf, 4), ReadDouble(buf, 8)), lastMode := MODE_EULER)
  }

  /**
   * What each mode touches: the mode is recorded; EULER changes only the
   * angles; the other two leave the angles alone and recompute the gyro
   * integers from the new gyro floats; GYRO keeps the accelerometer and
   * magnetometer fields.
   */
  lemma DecodeTouchesItsFields(mode: byte, buf: seq<byte>, s: Sensors)
    requires mode <= MODE_EULER && |buf| >= ModeSize(mode)
    ensures var r := Decode(mode, buf, s);
      && r.lastMode == mode
      && (mode == MODE_EULER ==> r.data == s.data && r.gyro == s.gyro)
      && (mode != MODE_EULER ==> r.euler == s.euler)
      && (mode != MODE_EULER ==> r.gyro == GyroTriple(r.data.gyroX, r.data.gyroY, r.data.gyroZ))
      && (mode == MODE_GYRO ==>
           r.data.accelX == s.data.accelX && r.data.accelY == s.data.accelY && r.data.accelZ == s.data.accelZ &&
           r.data.magX == s.data.magX && r.data.magY == s.data.magY && r.data.magZ == s.data.magZ)
  {
  }

  /** Decoding looks only at the mode's payload, never past it. */
  lemma DecodeReadsPayloadOnly(mode: byte, buf: seq<byte>, s: Sensors)
    requires mode <= MODE_EULER && |buf| >= ModeSize(mode)
    ensures Decode(mode, buf, s) == Decode(mode, buf[..ModeSize(mode)], s)
  {
    var n := ModeSize(mode);
    var pre := buf[..n];
    forall i: nat | i + 4 <= n
      ensures ReadDouble(pre, i) == ReadDouble(buf, i)
    {
      assert pre[i] == buf[i] && pre[i + 1] == buf[i + 1] && pre[i + 2] == buf[i + 2] && pre[i + 3] == buf[i + 3];
    }
    forall i: nat | i + 2 <= n
      ensures ReadShort(pre, i) == ReadShort(buf, i)
    {
      assert pre[i] == buf[i] && pre[i + 1] == buf[i + 1];
    }
  }

  // ---------------------------------------------------------------------
  // The board's side: how frames are laid out, and decoding them back
  // ---------------------------------------------------------------------

  /** Payload of an ALL frame: accelerometer, magnetometer, then raw gyro shorts. */
  function AllPayload(accel: seq<word32>, mag: seq<word32>, gx: int, gy: int, gz: int): (p: seq<byte>)
    requires |accel| == 3 && |mag| == 3 && IsInt16(gx) && IsInt16(gy) && IsInt16(gz)
    ensures |p| == ModeSize(MODE_ALL)
  {
    WordBytes(accel[0]) + WordBytes(accel[1]) + WordBytes(accel[2]) +
    WordBytes(mag[0]) + WordBytes(mag[1]) + WordBytes(mag[2]) +
    ShortBytes(gx) + ShortBytes(gy) + ShortBytes(gz)
  }

  /** Payload of a GYRO frame: the three raw gyro shorts. */
  function GyroPayload(gx: int, gy: int, gz: int): (p: seq<byte>)
    requires IsInt16(gx) && IsInt16(gy) && IsInt16(gz)
    ensures |p| == ModeSize(MODE_GYRO)
  {
    ShortBytes(gx) + ShortBytes(gy) + ShortBytes(gz)
  }

  /** Payload of an EULER frame: roll, pitch, yaw. */
  function EulerPayload(roll: word32, pitch: word32, yaw: word32): (p: seq<byte>)
    ensures |p| == ModeSize(MODE_EULER)
  {
    WordBytes(roll) + WordBytes(pitch) + WordBytes(yaw)
  }

  /** The derived gyro integers of three raw readings, computed without floating point. */
  function GyroIntegers(gx: int, gy: int, gz: int): GyroData {
    var x, y, z := CDiv(gx * 25, 64), CDiv(gy * 25, 64), CDiv(gz * 25, 64);
    GyroData(x, y, z, CheckSum(x, y, z))
  }

  lemma GyroTripleExact(gx: int, gy: int, gz: int)
    requires IsInt16(gx) && IsInt16(gy) && IsInt16(gz)
    ensures GyroTriple(GyroScaled(gx), GyroScaled(gy), GyroScaled(gz)) == GyroIntegers(gx, gy, gz)
  {
    GyroIntegerExact(gx);
    GyroIntegerExact(gy);
    GyroIntegerExact(gz);
  }

  /** An ALL frame decodes back to the readings the board encoded, at the documented offsets. */
  lemma DecodeAllFrame(accel: seq<word32>, mag: seq<word32>, gx: int, gy: int, gz: int, s: Sensors)
    requires |accel| == 3 && |mag| == 3 && IsInt16(gx) && IsInt16(gy) && IsInt16(gz)
    ensures var r := Decode(MODE_ALL, AllPayload(accel, mag, gx, gy, gz), s);
      && r.data == DofData(accel[0], accel[1], accel[2], mag[0], mag[1], mag[2],
                           GyroScaled(gx), GyroScaled(gy), GyroScaled(gz))
      && r.gyro == GyroIntegers(gx, gy, gz)
      && r.euler == s.euler && r.lastMode == MODE_ALL
  {
    var p := AllPayload(accel, mag, gx, gy, gz);
    ReadDoubleAt(p, 0, accel[0]);
    ReadDoubleAt(p, 4, accel[1]);
    ReadDoubleAt(p, 8, accel[2]);
    ReadDoubleAt(p, 12, mag[0]);
    ReadDoubleAt(p, 16, mag[1]);
    ReadDoubleAt(p, 20, mag[2]);
    ReadShortAt(p, 24, gx);
    ReadShortAt(p, 26, gy);
    ReadShortAt(p, 28, gz);
    GyroTripleExact(gx, gy, gz);
  }

  /** A GYRO frame decodes back to its three readings; the other fields keep their values. */
  lemma DecodeGyroFrame(gx: int, gy: int, gz: int, s: Sensors)
    requires IsInt16(gx) && IsInt16(gy) && IsInt16(gz)
    ensures var r := Decode(MODE_GYRO, GyroPayload(gx, gy, gz), s);
      && r.data == s.data.(gyroX := GyroScaled(gx), gyroY := GyroScaled(gy), gyroZ := GyroScaled(gz))
      && r.gyro == GyroIntegers(gx, gy, gz)
      && r.euler == s.euler && r.lastMode == MODE_GYRO
  {
    var p := GyroPayload(gx, gy, gz);
    ReadShortAt(p, 0, gx);
    ReadShortAt(p, 2, gy);
    ReadShortAt(p, 4, gz);
    GyroTripleExact(gx, gy, gz);
  }

  /** An EULER frame decodes back to its three angles; nothing else changes. */
  lemma DecodeEulerFrame(roll: word32, pitch: word32, yaw: word32, s: Sensors)
    ensures Decode(MODE_EULER, EulerPayload(roll, pitch, yaw), s) ==
      s.(euler := EulerData(roll, pitch, yaw), lastMode := MODE_EULER)
  {
    var p := EulerPayload(roll, pitch, yaw);
    ReadDoubleAt(p, 0, roll);
    ReadDoubleAt(p, 4, pitch);
    ReadDoubleAt(p, 8, yaw);
  }

  /** An ALL frame of thirty zero bytes decodes to all-zero readings. */
  lemma DecodeAllZeros(s: Sensors)
    ensures var r := Decode(MODE_ALL, seq(30, _ => 0 as byte), s);
      r.data == DofData(0, 0, 0, 0, 0, 0, 0.0, 0.0, 0.0) && r.gyro == GyroData(0, 0, 0, 0)
  {
    assert seq(30, _ => 0 as byte) == AllPayload([0, 0, 0], [0, 0, 0], 0, 0, 0);
    DecodeAllFrame([0, 0, 0], [0, 0, 0], 0, 0, 0, s);
  }

  /** GYRO readings (256, -256, 0) give (1.0, -1.0, 0.0), integers (100, -100, 0) and checksum 0. */
  lemma DecodeGyroExample(s: Sensors)
    ensures var r := Decode(MODE_GYRO, [0x01, 0x00, 0xFF, 0x00, 0x00, 0x00], s);
      && r.data.gyroX == 1.0 && r.data.gyroY == -1.0 && r.data.gyroZ == 0.0
      && r.gyro == GyroData(100, -100, 0, 0)
  {
    assert [0x01, 0x00, 0xFF, 0x00, 0x00, 0x00] == GyroPayload(256, -256, 0);
    DecodeGyroFrame(256, -256, 0, s);
  }
}
