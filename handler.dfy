/**
 * DofHandler: the Arduino-side driver of the 9DoF board. It owns the packet
 * buffer and the framing state, decodes good packets into its sensor records,
 * keeps packet statistics, mirrors the board's settings and sends the ASCII
 * commands that change them.
 *
 * Every method is proved against the value-level model: the receive side
 * against Receive/Poll (module DofFramer), the command side against the
 * event sequences defined below.
 */
module DofHandlerModel {
  import opened DofProtocol
  import opened DofDecode
  import opened DofFramer
  import opened SerialPort

  // ---------------------------------------------------------------------
  // Commands, as the events they put on the port
  // ---------------------------------------------------------------------

  /** "#m" followed by the raw mode byte. */
  function ModeCommand(mode: byte): seq<PortEvent> {
    [Write(Ascii("#m")), Write([mode])]
  }

  /** "#b" followed by the identifier's decimal digit. */
  function BaudCommand(id: int): seq<PortEvent>
    requires 1 <= id <= 9
  {
    [Write(Ascii("#b")), Write([DigitByte(id)])]
  }

  /**
   * The baud-change sequence: the command (unless the change is internal),
   * then flush, end, a pause, begin at the new rate and a short settle.
   */
  function BaudSwitch(rate: int, internal: bool): seq<PortEvent>
    requires rate in BAUD_RATES
  {
    (if internal then [] else BaudCommand(BaudRateToId(rate))) +
    [PortEvent.Flush, PortEvent.End, Delay(if internal then 10 else 100), PortEvent.Begin(rate), Delay(10)]
  }

  /** begin() switches speed only to a nonzero, different, supported final rate. */
  predicate SwitchesBaud(initialBaud: int, finalBaud: int) {
    finalBaud != 0 && finalBaud != initialBaud && BaudRateToId(finalBaud) != -1
  }

  function BeginEvents(initialBaud: int, finalBaud: int): seq<PortEvent> {
    [PortEvent.Begin(initialBaud)] +
    (if SwitchesBaud(initialBaud, finalBaud) then [Delay(100)] + BaudSwitch(finalBaud, false) else [])
  }

  /**
   * "#i", then `write(interval >> 8)` and `write(interval)`: `write` keeps
   * the low byte, and `>>` on a negative value is an arithmetic shift, so the
   * two bytes are the big-endian encoding of the `short`.
   */
  function IntervalCommand(interval: int): seq<PortEvent>
    requires IsInt16(interval)
  {
    var b := ShortBytes(interval);
    [Write(Ascii("#i")), Write([b[0]]), Write([b[1]])]
  }

  /** `println("#o1")` or `println("#o0")`: the text, then the line ending. */
  function StreamCommand(enable: bool): seq<PortEvent> {
    [Write(Ascii(if enable then "#o1" else "#o0")), Write(Ascii("\r\n"))]
  }

  const REQUEST_FRAME: seq<PortEvent> := [Write(Ascii("#f"))]
  const ZERO_CALIBRATE: seq<PortEvent> := [Write(Ascii("#z"))]

  /** The board reads the interval back from the two bytes it is sent. */
  lemma IntervalCommandCarriesInterval(interval: int)
    requires IsInt16(interval)
    ensures var e := IntervalCommand(interval);
      e[1].Write? && e[2].Write? && ReadShort(e[1].bytes + e[2].bytes, 0) == interval
  {
    var b := ShortBytes(interval);
    assert [b[0]] + [b[1]] == b;
    ReadShortOfShortBytes(interval);
  }

  /** The digit sent after "#b" names the requested rate in the board's table. */
  lemma BaudCommandNamesRate(rate: int)
    requires rate in BAUD_RATES
    ensures var e := BaudSwitch(rate, false);
      && e[0] == Write(Ascii("#b")) && e[1].Write? && |e[1].bytes| == 1
      && BAUD_RATES[e[1].bytes[0] as int - '1' as int] == rate
  {
  }

  /** The port calls of a baud change, shared by begin() and setBaudRate(). */
  method SendBaudSwitch(stream: SerialStream, rate: int, internal: bool)
    requires rate in BAUD_RATES
    modifies stream
    ensures stream.trace == old(stream.trace) + BaudSwitch(rate, internal)
    ensures stream.input == old(stream.input) && stream.clock == old(stream.clock)
  {
    ghost var t0 := stream.trace;
    if !internal {
      stream.Print(Ascii("#b"));
      stream.Print([DigitByte(BaudRateToId(rate))]);
    }
    ghost var t1 := stream.trace;
    assert t1 == t0 + (if internal then [] else BaudCommand(BaudRateToId(rate)));
    stream.Flush();
    stream.End();
    stream.Delay(if internal then 10 else 100);
    stream.Begin(rate);
    stream.Delay(10);
    assert stream.trace == t1 + [PortEvent.Flush, PortEvent.End, Delay(if internal then 10 else 100), PortEvent.Begin(rate), Delay(10)];
  }

  // ---------------------------------------------------------------------
  // The handler
  // ---------------------------------------------------------------------

  /** The settings the handler mirrors: port state and the board's configuration. */
  datatype Settings = Settings(open: bool, baudRate: int, updateInterval: int, continuousStream: bool)

  class DofHandler {
    const stream: SerialStream
    const dataBuffer: array<byte>

    var open: bool
    var baudRate: int
    var packetState: nat
    var dataBufferSize: nat
    var dataModeSize: nat
    var dataMode: byte
    var lastPacketMode: byte
    var updateInterval: int
    var continuousStream: bool
    var data: DofData
    var eulerData: EulerData
    var gyroData: GyroData
    var dataTime: nat
    var newData: bool
    var goodCount: int
    var badCount: int
    var lastPacketGood: bool

    /** The buffer is the full packet size, the fill count stays within the mode's size, shorts stay shorts. */
    ghost predicate Valid()
      reads this
    {
      && dataBuffer.Length == DATA_SIZE
      && dataMode <= MODE_EULER && dataModeSize == ModeSize(dataMode)
      && packetState <= COLLECTING && dataBufferSize <= dataModeSize
      && (packetState < COLLECTING ==> dataBufferSize == 0)
      && IsInt16(goodCount) && IsInt16(badCount) && IsInt16(updateInterval)
    }

    ghost function Config(): Settings
      reads this
    {
      Settings(open, baudRate, updateInterval, continuousStream)
    }

    ghost function Readings(): Sensors
      reads this
    {
      Sensors(data, eulerData, gyroData, lastPacketMode)
    }

    /** The receive-side state: the buffer's filled part is the framer's payload. */
    ghost function Rx(): (rx: RxState)
      requires Valid()
      reads this, dataBuffer
      ensures RxOk(rx)
    {
      RxState(Framer(packetState, dataBuffer[..dataBufferSize]), dataMode, Readings(),
              Stats(goodCount, badCount, lastPacketGood, newData, dataTime))
    }

    /**
     * A handler on `dofStream`; a positive `baud` means the stream is already
     * open at that rate. Fields the firmware leaves uninitialised start at 0.
     */
    constructor (dofStream: SerialStream, baud: int)
      ensures Valid() && stream == dofStream && fresh(dataBuffer)
      ensures Config() == Settings(baud > 0, if baud > 0 then baud else 0, -1, false)
      ensures Rx() == RxState(SEEK_START, MODE_DEFAULT, ZERO_SENSORS, Stats(0, 0, false, false, 0))
    {
      stream := dofStream;
      dataBuffer := new byte[DATA_SIZE](_ => 0);
      if baud > 0 {
        baudRate := baud;
        open := true;
      } else {
        open := false;
        baudRate := 0;
      }
      updateInterval := -1;
      continuousStream := false;
      lastPacketGood := false;
      dataModeSize := ModeSize(MODE_DEFAULT);
      dataMode := MODE_DEFAULT;
      packetState := 0;
      dataBufferSize := 0;
      goodCount := 0;
      badCount := 0;
      newData := false;
      lastPacketMode := 0;
      dataTime := 0;
      data := ZERO_SENSORS.data;
      eulerData := ZERO_SENSORS.euler;
      gyroData := ZERO_SENSORS.gyro;
    }

    // -------------------------------------------------------------------
    // Opening and closing the port
    // -------------------------------------------------------------------

    /**
     * Opens the port at `initialBaud`; when `finalBaud` is a different
     * supported rate, tells the board to switch and reopens at that rate.
     * Does nothing when already open.
     */
    method Begin(initialBaud: int, finalBaud: int)
      requires Valid()
      modifies this, stream
      ensures Valid() && Rx() == old(Rx())
      ensures old(open) ==> Config() == old(Config()) && stream.trace == old(stream.trace)
      ensures !old(open) ==>
        && Config() == old(Config()).(open := true,
             baudRate := if SwitchesBaud(initialBaud, finalBaud) then finalBaud else initialBaud)
        && stream.trace == old(stream.trace) + BeginEvents(initialBaud, finalBaud)
      ensures stream.input == old(stream.input) && stream.clock == old(stream.clock)
    {
      if open {
        return;
      }
      stream.Begin(initialBaud);
      var baud := finalBaud;
      if baud != 0 && baud != initialBaud {
        var baudId := BaudRateToId(baud);
        if baudId >= 0 {
          stream.Delay(100);
          SendBaudSwitch(stream, baud, false);
        } else {
          baud := initialBaud;
        }
      } else {
        baud := initialBaud;
      }
      baudRate := baud;
      open := true;
    }

    /** Closes the port if it is open. */
    method End()
      requires Valid()
      modifies this, stream
      ensures Valid() && Rx() == old(Rx())
      ensures Config() == old(Config()).(open := false)
      ensures stream.trace == old(stream.trace) + (if old(open) then [PortEvent.End] else [])
      ensures stream.input == old(stream.input) && stream.clock == old(stream.clock)
    {
      if !open {
        return;
      }
      stream.End();
      open := false;
    }

    /** Records that the port was opened elsewhere, at `baud`. */
    method MarkOpen(baud: int)
      requires Valid()
      modifies this
      ensures Valid() && Rx() == old(Rx())
      ensures Config() == old(Config()).(open := true, baudRate := baud)
    {
      open := true;
      baudRate := baud;
    }

    /**
     * Switches the link to `rate`: only when open and the rate is supported;
     * the board is told first unless the change is `internal`.
     */
    method SetBaudRate(rate: int, internal: bool)
      requires Valid()
      modifies this, stream
      ensures Valid() && Rx() == old(Rx())
      ensures !old(open) || rate !in BAUD_RATES ==>
        Config() == old(Config()) && stream.trace == old(stream.trace)
      ensures old(open) && rate in BAUD_RATES ==>
        Config() == old(Config()).(baudRate := rate) && stream.trace == old(stream.trace) + BaudSwitch(rate, internal)
      ensures stream.input == old(stream.input) && stream.clock == old(stream.clock)
    {
      if !open {
        return;
      }
      var baudId := BaudRateToId(rate);
      if baudId < 0 {
        return;
      }
      SendBaudSwitch(stream, rate, internal);
      baudRate := rate;
    }

    // -------------------------------------------------------------------
    // Board configuration commands
    // -------------------------------------------------------------------

    /** Tells the board its update interval and mirrors it. */
    method SetUpdateInterval(interval: int)
      requires Valid() && IsInt16(interval)
      modifies this, stream
      ensures Valid() && Rx() == old(Rx())
      ensures Config() == old(Config()).(updateInterval := interval)
      ensures stream.trace == old(stream.trace) + IntervalCommand(interval)
      ensures stream.input == old(stream.input) && stream.clock == old(stream.clock)
    {
      stream.Print(Ascii("#i"));
      var b := ShortBytes(interval);
      stream.Print([b[0]]);
      stream.Print([b[1]]);
      updateInterval := interval;
    }

    /** Tells the board to stream continuously or not; the mirrored flag is left as it was. */
    method SetContinuousStream(enable: bool)
      requires Valid()
      modifies stream
      ensures Valid() && Rx() == old(Rx()) && Config() == old(Config())
      ensures stream.trace == old(stream.trace) + StreamCommand(enable)
      ensures stream.input == old(stream.input) && stream.clock == old(stream.clock)
    {
      if enable {
        stream.Print(Ascii("#o1"));
      } else {
        stream.Print(Ascii("#o0"));
      }
      stream.Print(Ascii("\r\n"));
    }

    /**
     * Selects the data mode (an unsupported mode becomes the default), always
     * restarting the framer; the board is told only when forced or when the
     * mode actually changes.
     */
    method SetDataMode(mode: byte, force: bool)
      requires Valid()
      modifies this, dataBuffer, stream
      ensures Valid() && Config() == old(Config())
      ensures Rx() == old(Rx()).(framer := SEEK_START, mode := CoerceMode(mode))
      ensures dataModeSize == ModeSize(CoerceMode(mode))
      ensures stream.trace == old(stream.trace) +
        (if force || old(dataMode) != CoerceMode(mode) then ModeCommand(CoerceMode(mode)) else [])
      ensures stream.input == old(stream.input) && stream.clock == old(stream.clock)
    {
      var m := CoerceMode(mode);
      ClearBuffer();
      if force || dataMode != m {
        stream.Print(Ascii("#m"));
        stream.Print([m]);
      }
      dataModeSize := ModeSize(m);
      dataMode := m;
    }

    /** Requests one frame in `mode` (switching to it first). */
    method RequestData(mode: byte)
      requires Valid()
      modifies this, dataBuffer, stream
      ensures Valid() && Config() == old(Config())
      ensures Rx() == old(Rx()).(framer := SEEK_START, mode := CoerceMode(mode))
      ensures stream.trace == old(stream.trace) +
        (if old(dataMode) != CoerceMode(mode) then ModeCommand(CoerceMode(mode)) else []) + REQUEST_FRAME
      ensures stream.input == old(stream.input) && stream.clock == old(stream.clock)
    {
      SetDataMode(mode, false);
      stream.Print(Ascii("#f"));
    }

    /** Requests one frame in the current mode: only "#f" goes out. */
    method RequestCurrentData()
      requires Valid()
      modifies this, dataBuffer, stream
      ensures Valid() && Config() == old(Config())
      ensures Rx() == old(Rx()).(framer := SEEK_START)
      ensures stream.trace == old(stream.trace) + REQUEST_FRAME
      ensures stream.input == old(stream.input) && stream.clock == old(stream.clock)
    {
      RequestData(dataMode);
    }

    /** Tells the board to zero its accelerometer and gyroscope. */
    method ZeroCalibrate()
      requires Valid()
      modifies stream
      ensures Valid() && Rx() == old(Rx()) && Config() == old(Config())
      ensures stream.trace == old(stream.trace) + ZERO_CALIBRATE
      ensures stream.input == old(stream.input) && stream.clock == old(stream.clock)
    {
      stream.Print(Ascii("#z"));
    }

    // -------------------------------------------------------------------
    // Receiving
    // -------------------------------------------------------------------

    /** Restarts the framer; the first buffer byte is zeroed. */
    method ClearBuffer()
      requires Valid()
      modifies this, dataBuffer
      ensures Valid() && Config() == old(Config())
      ensures Rx() == old(Rx()).(framer := SEEK_START)
      ensures dataBuffer[0] == 0
      ensures dataMode == old(dataMode) && dataModeSize == old(dataModeSize)
    {
      dataBuffer[0] := 0;
      dataBufferSize := 0;
      packetState := 0;
    }

    /** Decodes the buffer according to the current mode, at that mode's offsets. */
    method ReadPacket()
      requires Valid()
      modifies this
      ensures Valid() && Config() == old(Config())
      ensures Readings() == old(Decode(dataMode, dataBuffer[..], Readings()))
      ensures Rx() == old(Rx()).(sensors := Readings())
    {
      var buf := dataBuffer[..];
      if dataMode == MODE_ALL {
        var d := DofData(
          ReadDouble(buf, 0), ReadDouble(buf, 4), ReadDouble(buf, 8),
          ReadDouble(buf, 12), ReadDouble(buf, 16), ReadDouble(buf, 20),
          GyroScaled(ReadShort(buf, 24)), GyroScaled(ReadShort(buf, 26)), GyroScaled(ReadShort(buf, 28)));
        data, gyroData, lastPacketMode := d, GyroTriple(d.gyroX, d.gyroY, d.gyroZ), MODE_ALL;
      } else if dataMode == MODE_GYRO {
        var d := data.(
          gyroX := GyroScaled(ReadShort(buf, 0)),
          gyroY := GyroScaled(ReadShort(buf, 2)),
          gyroZ := GyroScaled(ReadShort(buf, 4)));
        data, gyroData, lastPacketMode := d, GyroTriple(d.gyroX, d.gyroY, d.gyroZ), MODE_GYRO;
      } else if dataMode == MODE_EULER {
        eulerData, lastPacketMode := EulerData(ReadDouble(buf, 0), ReadDouble(buf, 4), ReadDouble(buf, 8)), MODE_EULER;
      }
    }

    /** A good packet: the payload is decoded, counted and timed. */
    method AcceptPacket()
      requires Valid() && packetState == COLLECTING && dataBufferSize == dataModeSize
      modifies this
      ensures Valid() && Config() == old(Config())
      ensures Rx() == old(Rx().(sensors := Decode(dataMode, dataBuffer[..dataBufferSize], Readings()),
        stats := Rx().stats.(goodCount := Wrap16(goodCount + 1), lastPacketGood := true, dataTime := stream.clock)))
    {
      DecodeReadsPayloadOnly(dataMode, dataBuffer[..], Readings());
      assert dataBuffer[..][..dataBufferSize] == dataBuffer[..dataBufferSize];
      ReadPacket();
      lastPacketGood := true;
      goodCount := Wrap16(goodCount + 1);
      dataTime := stream.Millis();
    }

    /**
     * The byte after a full payload: '\n' makes the packet good, anything
     * else bad; either way newData is set and the framer restarts.
     */
    method FinishPacket(b: byte)
      requires Valid() && packetState == COLLECTING && dataBufferSize == dataModeSize
      modifies this, dataBuffer
      ensures Valid() && Config() == old(Config())
      ensures b == TERMINATOR ==> Rx() == old(Rx().(framer := SEEK_START,
        sensors := Decode(dataMode, dataBuffer[..dataBufferSize], Readings()), stats := CountGood(Rx().stats, stream.clock)))
      ensures b != TERMINATOR ==> Rx() == old(Rx().(framer := SEEK_START, stats := CountBad(Rx().stats)))
    {
      if b == TERMINATOR {
        AcceptPacket();
      } else {
        badCount := Wrap16(badCount + 1);
        lastPacketGood := false;
      }
      newData := true;
      ClearBuffer();
    }

    /** _checkStream: reads one byte and runs it through the framing state machine. */
    method CheckStreamOnce() returns (packet: bool)
      requires Valid()
      modifies this, dataBuffer, stream
      ensures Valid() && Config() == old(Config())
      ensures (Rx(), packet) == Receive(old(Rx()), NextByte(old(stream.input)), old(stream.clock))
      ensures stream.input == AfterRead(old(stream.input))
      ensures stream.trace == old(stream.trace) && stream.clock == old(stream.clock)
    {
      var c := stream.Read();
      var b := (c % 0x100) as byte;
      packet := false;
      if packetState < COLLECTING {
        // States 0..3: only the next byte of "9DoF" advances.
        if b == MAGIC[packetState] {
          packetState := packetState + 1;
        } else {
          packetState := 0;
        }
      } else if dataBufferSize >= dataModeSize {
        FinishPacket(b);
        packet := true;
      } else {
        dataBuffer[dataBufferSize] := b;
        dataBufferSize := dataBufferSize + 1;
        assert dataBuffer[..dataBufferSize] == old(dataBuffer[..dataBufferSize]) + [b];
      }
    }

    /** checkStream(true): handles available bytes until a packet event fires. */
    method DrainStream() returns (packet: bool)
      requires Valid()
      modifies this, dataBuffer, stream
      ensures Valid() && Config() == old(Config())
      ensures var r := Drain(old(Rx()), old(stream.input), old(stream.clock));
        Rx() == r.0 && packet == r.2 && stream.input == old(stream.input)[r.1..]
      ensures stream.trace == old(stream.trace) && stream.clock == old(stream.clock)
    {
      ghost var rx0, in0, now := Rx(), stream.input, stream.clock;
      ghost var k: nat, cur := 0, rx0;
      var avail := stream.Available();
      packet := false;
      while avail > 0
        invariant Valid() && Config() == old(Config()) && cur == Rx()
        invariant stream.trace == old(stream.trace) && stream.clock == now
        invariant k <= |in0| && stream.input == in0[k..] && avail == |stream.input|
        invariant Drain(rx0, in0, now) ==
          (Drain(cur, in0[k..], now).0, k + Drain(cur, in0[k..], now).1, Drain(cur, in0[k..], now).2)
        decreases |stream.input|
      {
        assert in0[k..][1..] == in0[k + 1..];
        packet := CheckStreamOnce();
        DrainAfterReceive(cur, in0[k..], now, Rx(), packet);
        if packet {
          return;
        }
        k, cur := k + 1, Rx();
        avail := stream.Available();
      }
    }

    /**
     * checkStream(loop): without `loop`, handles at most one available byte;
     * with it, handles available bytes until a packet event fires.
     */
    method CheckStream(loop: bool) returns (packet: bool)
      requires Valid()
      modifies this, dataBuffer, stream
      ensures Valid() && Config() == old(Config())
      ensures var r := Poll(old(Rx()), old(stream.input), loop, old(stream.clock));
        Rx() == r.0 && packet == r.2 && stream.input == old(stream.input)[r.1..]
      ensures stream.trace == old(stream.trace) && stream.clock == old(stream.clock)
    {
      if loop {
        packet := DrainStream();
      } else {
        var avail := stream.Available();
        if avail > 0 {
          packet := CheckStreamOnce();
        } else {
          packet := false;
        }
      }
    }

    /**
     * checkStreamValid(loop): true exactly when a good packet arrived. After
     * a bad packet the new-data flag is cleared and, unless the board streams
     * continuously, a fresh frame is requested.
     */
    method CheckStreamValid(loop: bool) returns (valid: bool)
      requires Valid()
      modifies this, dataBuffer, stream
      ensures Valid() && Config() == old(Config())
      ensures var r := Poll(old(Rx()), old(stream.input), loop, old(stream.clock));
        && valid == (r.2 && r.0.stats.lastPacketGood)
        && stream.input == old(stream.input)[r.1..]
        && (r.2 && !r.0.stats.lastPacketGood ==>
             && Rx() == r.0.(stats := r.0.stats.(newData := false))
             && stream.trace == old(stream.trace) + (if old(continuousStream) then [] else REQUEST_FRAME))
        && (!(r.2 && !r.0.stats.lastPacketGood) ==> Rx() == r.0 && stream.trace == old(stream.trace))
      ensures stream.clock == old(stream.clock)
    {
      var packet := CheckStream(loop);
      if !packet {
        return false;
      }
      if lastPacketGood {
        return true;
      }
      ClearNewDataFlag();
      if !continuousStream {
        RequestCurrentData();
      }
      return false;
    }

    // -------------------------------------------------------------------
    // New-data accessors
    // -------------------------------------------------------------------

    method GetData() returns (d: DofData)
      requires Valid()
      modifies this
      ensures Valid() && Config() == old(Config())
      ensures d == old(data)
      ensures Rx() == old(Rx()).(stats := old(Rx()).stats.(newData := false))
    {
      newData := false;
      d := data;
    }

    method GetEulerData() returns (e: EulerData)
      requires Valid()
      modifies this
      ensures Valid() && Config() == old(Config())
      ensures e == old(eulerData)
      ensures Rx() == old(Rx()).(stats := old(Rx()).stats.(newData := false))
    {
      newData := false;
      e := eulerData;
    }

    method GetGyroData() returns (g: GyroData)
      requires Valid()
      modifies this
      ensures Valid() && Config() == old(Config())
      ensures g == old(gyroData)
      ensures Rx() == old(Rx()).(stats := old(Rx()).stats.(newData := false))
    {
      newData := false;
      g := gyroData;
    }

    /** Reports the new-data flag; clears it only when asked to. */
    method IsNewDataAvailable(clear: bool) returns (available: bool)
      requires Valid()
      modifies this
      ensures Valid() && Config() == old(Config())
      ensures available == old(newData)
      ensures Rx() == old(Rx()).(stats := old(Rx()).stats.(newData := old(newData) && !clear))
    {
      if newData {
        newData := !clear;
        return true;
      }
      return false;
    }

    method ClearNewDataFlag()
      requires Valid()
      modifies this
      ensures Valid() && Config() == old(Config())
      ensures Rx() == old(Rx()).(stats := old(Rx()).stats.(newData := false))
    {
      newData := false;
    }
  }
}
