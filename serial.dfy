/**
 * The serial stream a DofHandler talks through, as an abstract collaborator:
 * the bytes still waiting to be read, a ghost trace of everything done to the
 * port (begin, end, writes, flushes and the delays between them), and the
 * millisecond clock that `millis()` reads.
 */
module SerialPort {
  import opened DofProtocol

  datatype PortEvent =
    | Begin(rate: int)
    | End
    | Write(bytes: seq<byte>)
    | Flush
    | Delay(ms: nat)

  /** `read()`'s result as a byte: the cast `(byte)` turns the -1 of an empty stream into 0xFF. */
  function NextByte(input: seq<byte>): (b: byte)
    ensures input != [] ==> b == input[0]
    ensures input == [] ==> b == 0xFF
  {
    if input == [] then 0xFF else input[0]
  }

  /** What is left to read after one `read()`. */
  function AfterRead(input: seq<byte>): (rest: seq<byte>)
    ensures input != [] ==> [input[0]] + rest == input
    ensures input == [] ==> rest == []
  {
    if input == [] then [] else input[1..]
  }

  class SerialStream {
    /** Bytes received and not yet read. */
    var input: seq<byte>
    /** Everything done to the port so far, oldest first. */
    ghost var trace: seq<PortEvent>
    /** The value `millis()` returns. */
    var clock: nat

    constructor (pending: seq<byte>, now: nat)
      ensures input == pending && trace == [] && clock == now
    {
      input := pending;
      trace := [];
      clock := now;
    }

    method Available() returns (n: int)
      ensures n == |input|
    {
      n := |input|;
    }

    /** The next byte, or -1 when none is waiting. */
    method Read() returns (c: int)
      modifies this
      ensures c == if old(input) == [] then -1 else old(input)[0] as int
      ensures input == AfterRead(old(input))
      ensures trace == old(trace) && clock == old(clock)
    {
      if input == [] {
        c := -1;
      } else {
        c := input[0] as int;
        input := input[1..];
      }
    }

    method Millis() returns (t: nat)
      ensures t == clock
    {
      t := clock;
    }

    /** `print` and `write`: the bytes go out as one event. */
    method Print(bytes: seq<byte>)
      modifies this
      ensures trace == old(trace) + [Write(bytes)]
      ensures input == old(input) && clock == old(clock)
    {
      trace := trace + [Write(bytes)];
    }

    method Flush()
      modifies this
      ensures trace == old(trace) + [PortEvent.Flush]
      ensures input == old(input) && clock == old(clock)
    {
      trace := trace + [PortEvent.Flush];
    }

    method End()
      modifies this
      ensures trace == old(trace) + [PortEvent.End]
      ensures input == old(input) && clock == old(clock)
    {
      trace := trace + [PortEvent.End];
    }

    method Begin(rate: int)
      modifies this
      ensures trace == old(trace) + [PortEvent.Begin(rate)]
      ensures input == old(input) && clock == old(clock)
    {
      trace := trace + [PortEvent.Begin(rate)];
    }

    /** `delay(ms)`, recorded in order with the port calls it separates; the clock is not advanced. */
    method Delay(ms: nat)
      modifies this
      ensures trace == old(trace) + [PortEvent.Delay(ms)]
      ensures input == old(input) && clock == old(clock)
    {
      trace := trace + [PortEvent.Delay(ms)];
    }
  }
}
