/**
 * Wire-level vocabulary of the 9DoF serial protocol: the data modes and their
 * payload sizes, the 16-bit integer arithmetic of the firmware's `short`
 * fields, the big-endian byte combinations used by the payload decoder, the
 * baud-rate identifier table and the ASCII command strings sent to the board.
 */
module DofProtocol {

  /** An unsigned 8-bit value (`byte`, `uint8_t`). */
  newtype byte = x: int | 0 <= x < 0x100

  /** The bit pattern held by a 32-bit `long`, read as unsigned. */
  newtype word32 = x: int | 0 <= x < 0x1_0000_0000

  /** Capacity of the packet buffer: the largest payload of any mode. */
  const DATA_SIZE: nat := 30

  const MODE_ALL: byte := 0
  const MODE_GYRO: byte := 1
  const MODE_EULER: byte := 2
  const MODE_DEFAULT: byte := MODE_ALL

  /** The value of the gyroscope scale factor, 1 / 256. */
  const GYRO_SCALE: real := 0.00390625

  /** Payload length of each data mode: {30, 6, 12}. */
  function ModeSize(mode: byte): (n: nat)
    requires mode <= MODE_EULER
    ensures 0 < n <= DATA_SIZE && n % 2 == 0
    ensures mode == MODE_ALL <==> n == DATA_SIZE
  {
    [30, 6, 12][mode as int]
  }

  /** The data-mode switch: an unsupported mode falls back to the default mode. */
  function CoerceMode(mode: byte): (m: byte)
    ensures m <= MODE_EULER
    ensures m == mode || (mode > MODE_EULER && m == MODE_DEFAULT)
  {
    if mode == MODE_ALL || mode == MODE_GYRO || mode == MODE_EULER then mode else MODE_DEFAULT
  }

  // ---------------------------------------------------------------------
  // 16-bit integers (`short`)
  // ---------------------------------------------------------------------

  predicate IsInt16(x: int) {
    -0x8000 <= x < 0x8000
  }

  /** Conversion of an `int` to `short`: two's-complement wrap-around. */
  function Wrap16(x: int): (r: int)
    ensures IsInt16(r)
    ensures IsInt16(x) ==> r == x
  {
    (x + 0x8000) % 0x10000 - 0x8000
  }

  /** Wrap-around keeps the value modulo 2^16. */
  lemma Wrap16Congruent(x: int)
    ensures (Wrap16(x) - x) % 0x10000 == 0
  {
    var q := (x + 0x8000) / 0x10000;
    assert x + 0x8000 == q * 0x10000 + (x + 0x8000) % 0x10000;
    assert Wrap16(x) - x == -q * 0x10000;
  }

  // ---------------------------------------------------------------------
  // Big-endian byte combinations
  // ---------------------------------------------------------------------

  /**
   * read_short: `val |= hi; val <<= 8; val |= lo` on a `short`. The shift
   * happens in `int` and is stored back into the `short` (wrap-around); the
   * low byte of the shifted value is zero, so the last `|=` adds `lo`.
   */
  function ReadShort(buf: seq<byte>, i: nat): (v: int)
    requires i + 1 < |buf|
    ensures IsInt16(v)
  {
    var hi := Wrap16(0 + buf[i] as int);
    var shifted := Wrap16(hi * 0x100);
    shifted + buf[i + 1] as int
  }

  /** The `short` read is the two bytes' unsigned big-endian value, taken modulo 2^16. */
  lemma ReadShortValue(buf: seq<byte>, i: nat)
    requires i + 1 < |buf|
    ensures var u := buf[i] as int * 0x100 + buf[i + 1] as int;
      ReadShort(buf, i) == if u < 0x8000 then u else u - 0x10000
  {
  }

  /**
   * read_double: `val |= b; val <<= 8` for the four bytes at `i`, most
   * significant first, into a 32-bit `long`. The result is the bit pattern
   * that the firmware then reinterprets as a 32-bit float. Each shift moves a
   * value below 2^24, so no bit is lost, and each `|=` meets a zero low byte.
   */
  function ReadDouble(buf: seq<byte>, i: nat): (w: word32)
    requires i + 3 < |buf|
    ensures w as int < 0x100_0000 * (buf[i] as int + 1)
  {
    var v := (0 + buf[i] as int) * 0x100;
    var v := (v + buf[i + 1] as int) * 0x100;
    var v := (v + buf[i + 2] as int) * 0x100;
    (v + buf[i + 3] as int) as word32
  }

  /** Each of the four bytes lands in its own byte of the pattern, the first one highest. */
  lemma ReadDoubleBytes(buf: seq<byte>, i: nat)
    requires i + 3 < |buf|
    ensures var w := ReadDouble(buf, i) as int;
      && w / 0x100_0000 == buf[i] as int
      && (w / 0x1_0000) % 0x100 == buf[i + 1] as int
      && (w / 0x100) % 0x100 == buf[i + 2] as int
      && w % 0x100 == buf[i + 3] as int
  {
  }

  /** How a `short` travels as two bytes, high byte first (the board's encoding). */
  function ShortBytes(x: int): (b: seq<byte>)
    requires IsInt16(x)
    ensures |b| == 2
  {
    [((x / 0x100) % 0x100) as byte, (x % 0x100) as byte]
  }

  /** How a 32-bit pattern travels as four bytes, high byte first. */
  function WordBytes(w: word32): (b: seq<byte>)
    ensures |b| == 4
  {
    var x1 := w as int / 0x100;
    var x2 := x1 / 0x100;
    [(x2 / 0x100) as byte, (x2 % 0x100) as byte, (x1 % 0x100) as byte, (w as int % 0x100) as byte]
  }

  /** read_short inverts the two-byte encoding of every `short`. */
  lemma ReadShortOfShortBytes(x: int)
    requires IsInt16(x)
    ensures ReadShort(ShortBytes(x), 0) == x
  {
    var b := ShortBytes(x);
    ReadShortValue(b, 0);
    assert b[0] as int * 0x100 + b[1] as int == (x + 0x10000) % 0x10000;
  }

  /** ... and every two bytes are the encoding of the `short` read from them. */
  lemma ShortBytesOfReadShort(buf: seq<byte>)
    requires |buf| == 2
    ensures ShortBytes(ReadShort(buf, 0)) == buf
  {
    var v := ReadShort(buf, 0);
    ReadShortValue(buf, 0);
    assert ShortBytes(v)[0] == buf[0];
    assert ShortBytes(v)[1] == buf[1];
  }

  /** read_double inverts the four-byte encoding, in both directions. */
  lemma ReadDoubleOfWordBytes(w: word32)
    ensures ReadDouble(WordBytes(w), 0) == w
  {
  }

  lemma WordBytesOfReadDouble(buf: seq<byte>)
    requires |buf| == 4
    ensures WordBytes(ReadDouble(buf, 0)) == buf
  {
    ReadDoubleBytes(buf, 0);
  }

  /** A short or a word encoded anywhere in a buffer is read back from that position. */
  lemma ReadShortAt(buf: seq<byte>, i: nat, x: int)
    requires IsInt16(x) && i + 2 <= |buf| && buf[i..i + 2] == ShortBytes(x)
    ensures ReadShort(buf, i) == x
  {
    ReadShortOfShortBytes(x);
    assert buf[i] == ShortBytes(x)[0] && buf[i + 1] == ShortBytes(x)[1];
  }

  lemma ReadDoubleAt(buf: seq<byte>, i: nat, w: word32)
    requires i + 4 <= |buf| && buf[i..i + 4] == WordBytes(w)
    ensures ReadDouble(buf, i) == w
  {
    ReadDoubleOfWordBytes(w);
    var b := WordBytes(w);
    assert buf[i] == b[0] && buf[i + 1] == b[1] && buf[i + 2] == b[2] && buf[i + 3] == b[3];
  }

  // ---------------------------------------------------------------------
  // Gyroscope integers
  // ---------------------------------------------------------------------

  /** The gyro float of a raw reading: raw * (1 / 256), exact in binary32. */
  function GyroScaled(raw: int): real {
    raw as real * GYRO_SCALE
  }

  /** C's conversion of a floating value to `int`: truncation toward zero. */
  function Trunc(r: real): int {
    if r >= 0.0 then r.Floor else -((-r).Floor)
  }

  /** Truncation drops the fraction: the result is the integer next to `r` on the side of zero. */
  lemma TruncTowardZero(r: real)
    ensures var t := Trunc(r);
      && (r >= 0.0 ==> 0 <= t && t as real <= r < t as real + 1.0)
      && (r < 0.0 ==> t <= 0 && t as real - 1.0 < r <= t as real)
  {
  }

  /** C's integer division, truncating toward zero. */
  function CDiv(a: int, b: nat): int
    requires b > 0
  {
    if a >= 0 then a / b else -((-a) / b)
  }

  /** gyroData.x = gyroX * 100, the derived integer of one gyro reading. */
  function GyroInteger(raw: int): int {
    Trunc(GyroScaled(raw) * 100.0)
  }

  /**
   * checkSum = (x + y + z) % 10 with C's `%`: the remainder of the
   * truncating division, which takes the sign of the dividend.
   */
  function CheckSum(x: int, y: int, z: int): int {
    var sum := x + y + z;
    if sum >= 0 then sum % 10 else -((-sum) % 10)
  }

  /** The checksum is a single signed decimal digit, congruent to the sum and of the sum's sign. */
  lemma CheckSumDigit(x: int, y: int, z: int)
    ensures var c := CheckSum(x, y, z);
      && -9 <= c <= 9
      && (x + y + z - c) % 10 == 0
      && (c > 0 ==> x + y + z > 0)
      && (c < 0 ==> x + y + z < 0)
  {
  }

  /**
   * The derived gyro integer needs no floating point: it is the truncating
   * quotient raw * 25 / 64, and it stays within +-12800 for a 16-bit reading.
   */
  lemma GyroIntegerExact(raw: int)
    requires IsInt16(raw)
    ensures GyroInteger(raw) == CDiv(raw * 25, 64)
    ensures -12800 <= GyroInteger(raw) <= 12800
  {
    var n := raw * 25;
    assert GyroScaled(raw) * 100.0 == n as real / 64.0;
    if n >= 0 {
      FloorOfQuotient(n);
    } else {
      FloorOfQuotient(-n);
      assert -(n as real / 64.0) == (-n) as real / 64.0;
    }
  }

  lemma FloorOfQuotient(n: nat)
    ensures (n as real / 64.0).Floor == n / 64
  {
    var q, r := n / 64, n % 64;
    assert n == 64 * q + r;
    assert n as real / 64.0 == q as real + r as real / 64.0;
  }

  // ---------------------------------------------------------------------
  // Baud rates
  // ---------------------------------------------------------------------

  /** The nine link speeds the board supports, indexed by identifier - 1. */
  const BAUD_RATES: seq<int> := [2400, 4800, 9600, 14400, 19200, 28800, 38400, 57600, 115200]

  /** baudRateToId: the identifier 1..9 of a supported rate, -1 for any other rate. */
  function BaudRateToId(rate: int): (id: int)
    ensures id == -1 || 1 <= id <= 9
    ensures id == -1 <==> rate !in BAUD_RATES
    ensures id != -1 ==> BAUD_RATES[id - 1] == rate
  {
    match rate
    case 2400 => 1
    case 4800 => 2
    case 9600 => 3
    case 14400 => 4
    case 19200 => 5
    case 28800 => 6
    case 38400 => 7
    case 57600 => 8
    case 115200 => 9
    case _ => -1
  }

  /** Every identifier names exactly one supported rate. */
  lemma BaudRateIdRoundTrip(id: int)
    requires 1 <= id <= 9
    ensures BaudRateToId(BAUD_RATES[id - 1]) == id
  {
  }

  // ---------------------------------------------------------------------
  // Commands
  // ---------------------------------------------------------------------

  /** The bytes of an ASCII string, as `print` sends them. */
  function Ascii(s: string): (b: seq<byte>)
    requires forall k :: 0 <= k < |s| ==> s[k] as int < 0x80
    ensures |b| == |s|
    ensures forall k :: 0 <= k < |s| ==> b[k] as int == s[k] as int
  {
    seq(|s|, k requires 0 <= k < |s| => s[k] as int as byte)
  }

  /** `print` of a number 0..9: its one decimal digit. */
  function DigitByte(d: int): (b: byte)
    requires 0 <= d <= 9
    ensures '0' as int <= b as int <= '9' as int
    ensures b as int - '0' as int == d
  {
    ('0' as int + d) as byte
  }
}
