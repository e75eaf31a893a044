/**
 * The receive side of DofHandler as values: the byte-at-a-time framing state
 * machine (_checkStream's switch), the statistics and sensor records it
 * updates, and the two polling disciplines of checkStream. The DofHandler
 * class is proved to follow these functions step by step.
 */
module DofFramer {
  import opened DofProtocol
  import opened DofDecode

  /** The magic prefix "9DoF". */
  const MAGIC: seq<byte> := [0x39, 0x44, 0x6F, 0x46]
  /** The terminator of a good packet, '\n'. */
  const TERMINATOR: byte := 0x0A
  /** packetState once the whole magic prefix has been seen. */
  const COLLECTING: nat := 4

  /** packetState and the bytes collected so far (dataBuffer[..dataBufferSize]). */
  datatype Framer = Framer(state: nat, payload: seq<byte>)

  const SEEK_START := Framer(0, [])

  datatype PacketEvent = NoPacket | GoodPacket(payload: seq<byte>) | BadPacket

  /** The framer's invariant: the fill count never exceeds the mode's size, itself within the buffer. */
  predicate FramerOk(f: Framer, size: nat) {
    && size <= DATA_SIZE
    && f.state <= COLLECTING
    && |f.payload| <= size
    && (f.state < COLLECTING ==> f.payload == [])
  }

  /**
   * One byte through _checkStream's state machine, for a mode whose payload
   * has `size` bytes.
   */
  function FrameStep(f: Framer, size: nat, b: byte): (r: (Framer, PacketEvent))
    ensures FramerOk(f, size) ==> FramerOk(r.0, size)
  {
    if f.state < COLLECTING then
      (Framer(if b == MAGIC[f.state] then f.state + 1 else 0, f.payload), NoPacket)
    else if |f.payload| >= size then
      (SEEK_START, if b == TERMINATOR then GoodPacket(f.payload) else BadPacket)
    else
      (Framer(f.state, f.payload + [b]), NoPacket)
  }

  /** What one byte does, case by case. */
  lemma FrameStepCases(f: Framer, size: nat, b: byte)
    ensures var r := FrameStep(f, size, b);
      // While seeking, only the expected magic byte advances; any other byte restarts the search.
      && (f.state < COLLECTING ==>
           && r.1 == NoPacket && r.0.payload == f.payload
           && (b == MAGIC[f.state] ==> r.0.state == f.state + 1)
           && (b != MAGIC[f.state] ==> r.0.state == 0))
      // While collecting with room left, the byte is appended.
      && (f.state >= COLLECTING && |f.payload| < size ==> r == (Framer(f.state, f.payload + [b]), NoPacket))
      // A full payload makes the next byte a terminator: a packet event and a reset.
      && (r.1 != NoPacket <==> f.state >= COLLECTING && |f.payload| >= size)
      && (r.1 != NoPacket ==> r.0 == SEEK_START)
      && (r.1.GoodPacket? <==> r.1 != NoPacket && b == TERMINATOR)
      && (r.1.GoodPacket? ==> r.1.payload == f.payload)
  {
  }

  /** A sequence of bytes through the state machine: the final framer and the packet events, in order. */
  function Run(f: Framer, size: nat, bytes: seq<byte>): (r: (Framer, seq<PacketEvent>))
    ensures FramerOk(f, size) ==> FramerOk(r.0, size)
    ensures NoPacket !in r.1 && |r.1| <= |bytes|
    decreases |bytes|
  {
    if bytes == [] then (f, [])
    else
      var (f1, e) := FrameStep(f, size, bytes[0]);
      var (f2, es) := Run(f1, size, bytes[1..]);
      (f2, (if e == NoPacket then [] else [e]) + es)
  }

  /** Running two chunks one after the other is running their concatenation. */
  lemma {:induction false} RunAppend(f: Framer, size: nat, a: seq<byte>, b: seq<byte>)
    ensures Run(f, size, a + b) == (Run(Run(f, size, a).0, size, b).0, Run(f, size, a).1 + Run(Run(f, size, a).0, size, b).1)
    decreases |a|
  {
    if a == [] {
      assert a + b == b;
      assert Run(f, size, a) == (f, []);
      assert [] + Run(f, size, b).1 == Run(f, size, b).1;
    } else {
      assert (a + b)[0] == a[0];
      assert (a + b)[1..] == a[1..] + b;
      var (f1, e) := FrameStep(f, size, a[0]);
      var head: seq<PacketEvent> := if e == NoPacket then [] else [e];
      RunAppend(f1, size, a[1..], b);
      var mid := Run(f1, size, a[1..]);
      var tail := Run(mid.0, size, b).1;
      assert head + (mid.1 + tail) == (head + mid.1) + tail;
    }
  }

  /** One byte through Run is one FrameStep. */
  lemma RunOne(f: Framer, size: nat, b: byte)
    ensures var (f1, e) := FrameStep(f, size, b);
      Run(f, size, [b]) == (f1, if e == NoPacket then [] else [e])
  {
    var (f1, e) := FrameStep(f, size, b);
    assert [b][1..] == [];
    assert Run(f1, size, []) == (f1, []);
    assert (if e == NoPacket then [] else [e]) + [] == (if e == NoPacket then [] else [e]);
  }

  /** While collecting, payload bytes are stored one by one without any event. */
  lemma {:induction false} CollectPayload(f: Framer, size: nat, p: seq<byte>)
    requires f.state == COLLECTING && |f.payload| + |p| <= size
    ensures Run(f, size, p) == (Framer(COLLECTING, f.payload + p), [])
    decreases |p|
  {
    if p == [] {
      assert f.payload + p == f.payload;
    } else {
      CollectPayload(Framer(COLLECTING, f.payload + [p[0]]), size, p[1..]);
      assert f.payload + [p[0]] + p[1..] == f.payload + p;
    }
  }

  /** The magic prefix takes the framer from the seek start to collecting. */
  lemma SeekMagic(size: nat)
    ensures Run(SEEK_START, size, MAGIC) == (Framer(COLLECTING, []), [])
  {
    var f1 := FrameStep(SEEK_START, size, MAGIC[0]).0;
    var f2 := FrameStep(f1, size, MAGIC[1]).0;
    var f3 := FrameStep(f2, size, MAGIC[2]).0;
    assert MAGIC[1..][1..][1..][1..] == [];
    assert Run(f3, size, MAGIC[1..][1..][1..]) == (Framer(COLLECTING, []), []);
  }

  /**
   * A complete frame, magic + payload of the mode's size + terminator, from
   * the seek start: exactly one packet event, good iff the terminator is
   * '\n', carrying exactly the payload, and the framer is back at the start.
   */
  lemma CompleteFrame(size: nat, payload: seq<byte>, t: byte)
    requires |payload| == size
    ensures Run(SEEK_START, size, MAGIC + payload + [t]) ==
      (SEEK_START, [if t == TERMINATOR then GoodPacket(payload) else BadPacket])
  {
    MagicThenPayload(size, payload);
    RunAppend(SEEK_START, size, MAGIC + payload, [t]);
    RunOne(Framer(COLLECTING, payload), size, t);
    var ev := if t == TERMINATOR then GoodPacket(payload) else BadPacket;
    assert [] + [ev] == [ev];
  }

  /** The magic prefix and at most a payload's worth of bytes: collecting, no event. */
  lemma MagicThenPayload(size: nat, p: seq<byte>)
    requires |p| <= size
    ensures Run(SEEK_START, size, MAGIC + p) == (Framer(COLLECTING, p), [])
  {
    SeekMagic(size);
    CollectPayload(Framer(COLLECTING, []), size, p);
    assert [] + p == p;
    QuietThenQuiet(SEEK_START, size, MAGIC, p);
  }

  /** Two quiet chunks in a row are one quiet chunk. */
  lemma QuietThenQuiet(f: Framer, size: nat, a: seq<byte>, b: seq<byte>)
    requires Run(f, size, a).1 == [] && Run(Run(f, size, a).0, size, b).1 == []
    ensures Run(f, size, a + b) == Run(Run(f, size, a).0, size, b)
  {
    RunAppend(f, size, a, b);
  }

  /**
   * A magic prefix broken at position k goes back to the seek start with no
   * event; the breaking byte is not re-examined, so "99" ends at state 0.
   */
  lemma MagicMismatch(size: nat, k: nat, b: byte)
    requires k < |MAGIC| && b != MAGIC[k]
    ensures Run(SEEK_START, size, MAGIC[..k] + [b]) == (SEEK_START, [])
  {
    var f := SEEK_START;
    var i := 0;
    while i < k
      invariant 0 <= i <= k
      invariant f == Framer(i, [])
      invariant Run(SEEK_START, size, MAGIC[..i]) == (f, [])
    {
      RunAppend(SEEK_START, size, MAGIC[..i], [MAGIC[i]]);
      assert MAGIC[..i] + [MAGIC[i]] == MAGIC[..i + 1];
      f := Framer(i + 1, []);
      i := i + 1;
    }
    RunAppend(SEEK_START, size, MAGIC[..k], [b]);
  }

  // ---------------------------------------------------------------------
  // The receive-side state of a DofHandler
  // ---------------------------------------------------------------------

  /** goodCount, badCount (both `short`), lastPacketGood, newData and dataTime. */
  datatype Stats = Stats(goodCount: int, badCount: int, lastPacketGood: bool, newData: bool, dataTime: nat)

  /** Everything _checkStream reads or writes, apart from the stream itself. */
  datatype RxState = RxState(framer: Framer, mode: byte, sensors: Sensors, stats: Stats)

  predicate RxOk(rx: RxState) {
    && rx.mode <= MODE_EULER
    && FramerOk(rx.framer, ModeSize(rx.mode))
    && IsInt16(rx.stats.goodCount) && IsInt16(rx.stats.badCount)
  }

  /**
   * Statistics after a good packet received at time `now`: `goodCount++` on a
   * `short` advances by one, wrapping from 32767 to -32768.
   */
  function CountGood(s: Stats, now: nat): (r: Stats)
    requires IsInt16(s.goodCount)
    ensures IsInt16(r.goodCount) && (r.goodCount - s.goodCount - 1) % 0x10000 == 0
    ensures s.goodCount < 0x7FFF ==> r.goodCount == s.goodCount + 1
    ensures s.goodCount == 0x7FFF ==> r.goodCount == -0x8000
    ensures r.badCount == s.badCount && r.lastPacketGood && r.newData && r.dataTime == now
  {
    Wrap16Congruent(s.goodCount + 1);
    s.(goodCount := Wrap16(s.goodCount + 1), lastPacketGood := true, newData := true, dataTime := now)
  }

  /** Statistics after a bad packet: `badCount++` on a `short`, and the time of the last good packet is kept. */
  function CountBad(s: Stats): (r: Stats)
    requires IsInt16(s.badCount)
    ensures IsInt16(r.badCount) && (r.badCount - s.badCount - 1) % 0x10000 == 0
    ensures s.badCount < 0x7FFF ==> r.badCount == s.badCount + 1
    ensures s.badCount == 0x7FFF ==> r.badCount == -0x8000
    ensures r.goodCount == s.goodCount && !r.lastPacketGood && r.newData && r.dataTime == s.dataTime
  {
    Wrap16Congruent(s.badCount + 1);
    s.(badCount := Wrap16(s.badCount + 1), lastPacketGood := false, newData := true)
  }

  /**
   * _checkStream on byte `b` at time `now`: the new state and whether a
   * packet event (good or bad) fired.
   */
  function Receive(rx: RxState, b: byte, now: nat): (r: (RxState, bool))
    requires RxOk(rx)
    ensures RxOk(r.0) && r.0.mode == rx.mode
    ensures r.0.framer == FrameStep(rx.framer, ModeSize(rx.mode), b).0
    ensures r.1 <==> FrameStep(rx.framer, ModeSize(rx.mode), b).1 != NoPacket
    ensures !r.1 ==> r.0.sensors == rx.sensors && r.0.stats == rx.stats
    ensures r.1 ==> r.0.framer == SEEK_START && r.0.stats.newData
    ensures FrameStep(rx.framer, ModeSize(rx.mode), b).1.GoodPacket? ==>
      r.0.sensors == Decode(rx.mode, FrameStep(rx.framer, ModeSize(rx.mode), b).1.payload, rx.sensors)
      && r.0.stats == CountGood(rx.stats, now)
    ensures FrameStep(rx.framer, ModeSize(rx.mode), b).1.BadPacket? ==>
      r.0.sensors == rx.sensors && r.0.stats == CountBad(rx.stats)
  {
    var (f, e) := FrameStep(rx.framer, ModeSize(rx.mode), b);
    match e
    case NoPacket => (rx.(framer := f), false)
    case GoodPacket(p) => (RxState(f, rx.mode, Decode(rx.mode, p, rx.sensors), CountGood(rx.stats, now)), true)
    case BadPacket => (rx.(framer := f, stats := CountBad(rx.stats)), true)
  }

  /** Every byte of `bytes` through Receive. */
  function Feed(rx: RxState, bytes: seq<byte>, now: nat): (r: RxState)
    requires RxOk(rx)
    ensures RxOk(r) && r.mode == rx.mode
    ensures r.framer == Run(rx.framer, ModeSize(rx.mode), bytes).0
    decreases |bytes|
  {
    if bytes == [] then rx else Feed(Receive(rx, bytes[0], now).0, bytes[1..], now)
  }

  lemma {:induction false} FeedAppend(rx: RxState, a: seq<byte>, b: seq<byte>, now: nat)
    requires RxOk(rx)
    ensures Feed(rx, a + b, now) == Feed(Feed(rx, a, now), b, now)
    decreases |a|
  {
    if a == [] {
      assert a + b == b;
    } else {
      assert (a + b)[0] == a[0];
      assert (a + b)[1..] == a[1..] + b;
      FeedAppend(Receive(rx, a[0], now).0, a[1..], b, now);
    }
  }

  /** Feeding one byte is receiving it. */
  lemma FeedOne(rx: RxState, b: byte, now: nat)
    requires RxOk(rx)
    ensures Feed(rx, [b], now) == Receive(rx, b, now).0
  {
    assert [b][1..] == [];
  }

  /** Feeding a prefix one byte longer is receiving that byte after the shorter prefix. */
  lemma FeedSnoc(rx: RxState, input: seq<byte>, i: nat, now: nat)
    requires RxOk(rx) && i < |input|
    ensures Feed(rx, input[..i + 1], now) == Receive(Feed(rx, input[..i], now), input[i], now).0
  {
    assert input[..i] + [input[i]] == input[..i + 1];
    FeedAppend(rx, input[..i], [input[i]], now);
    FeedOne(Feed(rx, input[..i], now), input[i], now);
  }

  /** Bytes that fire no packet event change the framer and nothing else. */
  lemma {:induction false} FeedQuiet(rx: RxState, bytes: seq<byte>, now: nat)
    requires RxOk(rx) && Run(rx.framer, ModeSize(rx.mode), bytes).1 == []
    ensures Feed(rx, bytes, now) == rx.(framer := Run(rx.framer, ModeSize(rx.mode), bytes).0)
    decreases |bytes|
  {
    if bytes != [] {
      var size := ModeSize(rx.mode);
      var (f1, e) := FrameStep(rx.framer, size, bytes[0]);
      assert e == NoPacket;
      FeedQuiet(Receive(rx, bytes[0], now).0, bytes[1..], now);
    }
  }

  /**
   * A complete frame from the seek start: with '\n' it is decoded, goodCount
   * goes up by one and the time is recorded; with any other terminator
   * badCount goes up by one and the sensor records are untouched. Either way
   * newData is set and the framer is back at the start.
   */
  lemma FrameReceived(rx: RxState, payload: seq<byte>, t: byte, now: nat)
    requires RxOk(rx) && rx.framer == SEEK_START && |payload| == ModeSize(rx.mode)
    ensures Feed(rx, MAGIC + payload + [t], now) ==
      if t == TERMINATOR then rx.(sensors := Decode(rx.mode, payload, rx.sensors), stats := CountGood(rx.stats, now))
      else rx.(stats := CountBad(rx.stats))
  {
    var size := ModeSize(rx.mode);
    MagicThenPayload(size, payload);
    FeedQuiet(rx, MAGIC + payload, now);
    FeedAppend(rx, MAGIC + payload, [t], now);
    FeedOne(rx.(framer := Framer(COLLECTING, payload)), t, now);
  }

  // ---------------------------------------------------------------------
  // Polling: checkStream(false) and checkStream(true)
  // ---------------------------------------------------------------------

  /** A byte that fires no event only moves the framer on. */
  lemma RunQuietHead(f: Framer, size: nat, b: byte, rest: seq<byte>)
    requires FrameStep(f, size, b).1 == NoPacket
    ensures Run(f, size, [b] + rest) == Run(FrameStep(f, size, b).0, size, rest)
  {
    assert ([b] + rest)[0] == b;
    assert ([b] + rest)[1..] == rest;
    assert [] + Run(FrameStep(f, size, b).0, size, rest).1 == Run(FrameStep(f, size, b).0, size, rest).1;
  }

  /**
   * checkStream(true): bytes are received one at a time until a packet
   * event fires or the input runs out. The result is the new state, the
   * number of bytes consumed and whether an event fired.
   */
  function Drain(rx: RxState, input: seq<byte>, now: nat): (r: (RxState, nat, bool))
    requires RxOk(rx)
    ensures RxOk(r.0) && r.0.mode == rx.mode && r.1 <= |input|
    decreases |input|
  {
    if input == [] then (rx, 0, false)
    else
      var (rx1, e) := Receive(rx, input[0], now);
      if e then (rx1, 1, true)
      else
        var d := Drain(rx1, input[1..], now);
        (d.0, d.1 + 1, d.2)
  }

  /** One step of draining, given the state and event of receiving the first byte. */
  lemma DrainAfterReceive(rx: RxState, input: seq<byte>, now: nat, rx1: RxState, e: bool)
    requires RxOk(rx) && input != [] && (rx1, e) == Receive(rx, input[0], now)
    ensures RxOk(rx1)
    ensures Drain(rx, input, now) ==
      if e then (rx1, 1, true)
      else (Drain(rx1, input[1..], now).0, Drain(rx1, input[1..], now).1 + 1, Drain(rx1, input[1..], now).2)
  {
  }

  /** A prefix of n + 1 elements is the head followed by n elements of the tail. */
  lemma ConsPrefix(s: seq<byte>, n: nat)
    requires n < |s|
    ensures s[..n + 1] == [s[0]] + s[1..][..n]
  {
  }

  /**
   * Draining is feeding the bytes it consumes: all of them when no event
   * fires, and otherwise up to and including the byte that fired it, after
   * which the framer is back at the start with new data flagged.
   */
  lemma {:induction false} DrainFeeds(rx: RxState, input: seq<byte>, now: nat)
    requires RxOk(rx)
    ensures var r := Drain(rx, input, now);
      && r.0 == Feed(rx, input[..r.1], now)
      && (!r.2 ==> r.1 == |input|)
      && (r.2 ==> r.1 > 0 && r.0.framer == SEEK_START && r.0.stats.newData)
    decreases |input|
  {
    if input == [] {
      assert input[..0] == [];
    } else {
      var (rx1, e) := Receive(rx, input[0], now);
      assert input[..1] == [input[0]];
      FeedOne(rx, input[0], now);
      if !e {
        DrainFeeds(rx1, input[1..], now);
        var d := Drain(rx1, input[1..], now);
        ConsPrefix(input, d.1);
        FeedAppend(rx, [input[0]], input[1..][..d.1], now);
      }
    }
  }

  /**
   * Draining stops at the first event: the bytes before the stopping point
   * fire none, the byte at it fires one, and when none is reported there is
   * none in the whole input.
   */
  lemma DrainStopsAtFirstEvent(rx: RxState, input: seq<byte>, now: nat)
    requires RxOk(rx)
    ensures var r, f, size := Drain(rx, input, now), rx.framer, ModeSize(rx.mode);
      && (r.2 ==> Run(f, size, input[..r.1 - 1]).1 == [] &&
                  FrameStep(Run(f, size, input[..r.1 - 1]).0, size, input[r.1 - 1]).1 != NoPacket)
      && (!r.2 ==> Run(f, size, input).1 == [])
  {
    DrainEventIsFirst(rx, input, now);
    DrainWithoutEventIsQuiet(rx, input, now);
  }

  lemma {:induction false} DrainEventIsFirst(rx: RxState, input: seq<byte>, now: nat)
    requires RxOk(rx)
    ensures var r, f, size := Drain(rx, input, now), rx.framer, ModeSize(rx.mode);
      r.2 ==> Run(f, size, input[..r.1 - 1]).1 == [] &&
              FrameStep(Run(f, size, input[..r.1 - 1]).0, size, input[r.1 - 1]).1 != NoPacket
    decreases |input|
  {
    if input != [] {
      var (rx1, e) := Receive(rx, input[0], now);
      if e {
        assert input[..0] == [];
      } else {
        DrainEventIsFirst(rx1, input[1..], now);
        var d := Drain(rx1, input[1..], now);
        if d.2 {
          ConsPrefix(input, d.1 - 1);
          RunQuietHead(rx.framer, ModeSize(rx.mode), input[0], input[1..][..d.1 - 1]);
          assert input[d.1] == input[1..][d.1 - 1];
        }
      }
    }
  }

  lemma {:induction false} DrainWithoutEventIsQuiet(rx: RxState, input: seq<byte>, now: nat)
    requires RxOk(rx)
    ensures !Drain(rx, input, now).2 ==> Run(rx.framer, ModeSize(rx.mode), input).1 == []
    decreases |input|
  {
    if input != [] {
      var (rx1, e) := Receive(rx, input[0], now);
      if !e {
        DrainWithoutEventIsQuiet(rx1, input[1..], now);
        assert input == [input[0]] + input[1..];
        RunQuietHead(rx.framer, ModeSize(rx.mode), input[0], input[1..]);
      }
    }
  }

  /**
   * checkStream(loop): with `loop` it drains; without, it receives at most
   * one byte, and none when none is available.
   */
  function Poll(rx: RxState, input: seq<byte>, loop: bool, now: nat): (r: (RxState, nat, bool))
    requires RxOk(rx)
    ensures RxOk(r.0) && r.0.mode == rx.mode
    ensures r.1 <= |input| && r.0 == Feed(rx, input[..r.1], now)
    ensures !loop ==> r.1 == (if input == [] then 0 else 1)
    ensures r.2 ==> r.1 > 0 && r.0.stats.newData && r.0.framer == SEEK_START
    ensures loop && !r.2 ==> r.1 == |input|
  {
    if loop then
      DrainFeeds(rx, input, now);
      Drain(rx, input, now)
    else if input == [] then (rx, 0, false)
    else
      var (rx1, p) := Receive(rx, input[0], now);
      assert input[..1] == [input[0]];
      (rx1, 1, p)
  }

  /** Input that fires no packet event is drained completely, and nothing is reported. */
  lemma QuietInputDrains(rx: RxState, input: seq<byte>, now: nat)
    requires RxOk(rx) && Run(rx.framer, ModeSize(rx.mode), input).1 == []
    ensures Drain(rx, input, now) == (Feed(rx, input, now), |input|, false)
  {
    QuietInputReportsNothing(rx, input, now);
    DrainFeeds(rx, input, now);
    assert input[..|input|] == input;
  }

  lemma QuietInputReportsNothing(rx: RxState, input: seq<byte>, now: nat)
    requires RxOk(rx) && Run(rx.framer, ModeSize(rx.mode), input).1 == []
    ensures !Drain(rx, input, now).2
  {
    DrainStopsAtFirstEvent(rx, input, now);
    var n := Drain(rx, input, now).1;
    if Drain(rx, input, now).2 {
      assert input[..n - 1] + input[n - 1..] == input;
      RunAppend(rx.framer, ModeSize(rx.mode), input[..n - 1], input[n - 1..]);
    }
  }

  /**
   * While collecting with `rest` bytes missing from the payload, the rest and
   * a terminator are drained exactly, and a packet event is reported.
   */
  lemma FrameTailDrains(rx: RxState, rest: seq<byte>, t: byte, now: nat)
    requires RxOk(rx) && rx.framer.state == COLLECTING
    requires |rx.framer.payload| + |rest| == ModeSize(rx.mode)
    ensures Drain(rx, rest + [t], now) == (Feed(rx, rest + [t], now), |rest| + 1, true)
  {
    DrainCollects(rx, rest, t, now);
    DrainFeeds(rx, rest + [t], now);
    assert (rest + [t])[..|rest| + 1] == rest + [t];
  }

  lemma {:induction false} DrainCollects(rx: RxState, rest: seq<byte>, t: byte, now: nat)
    requires RxOk(rx) && rx.framer.state == COLLECTING
    requires |rx.framer.payload| + |rest| == ModeSize(rx.mode)
    ensures Drain(rx, rest + [t], now).1 == |rest| + 1 && Drain(rx, rest + [t], now).2
    decreases |rest|
  {
    if rest == [] {
      assert rest + [t] == [t];
    } else {
      var rx1 := Receive(rx, rest[0], now).0;
      assert (rest + [t])[0] == rest[0];
      assert (rest + [t])[1..] == rest[1..] + [t];
      DrainCollects(rx1, rest[1..], t, now);
    }
  }

  /**
   * A frame split across two draining polls: the first poll takes the magic
   * and part of the payload and reports nothing; the second takes the rest
   * and the terminator and reports the one packet event, ending where the
   * whole frame received at once would.
   */
  lemma SplitFrameOverTwoPolls(rx: RxState, payload: seq<byte>, k: nat, t: byte, now: nat)
    requires RxOk(rx) && rx.framer == SEEK_START && |payload| == ModeSize(rx.mode) && k <= |payload|
    ensures Poll(rx, MAGIC + payload[..k], true, now) == (Feed(rx, MAGIC + payload[..k], now), |MAGIC| + k, false)
    ensures Poll(Feed(rx, MAGIC + payload[..k], now), payload[k..] + [t], true, now) ==
      (Feed(rx, MAGIC + payload + [t], now), |payload| - k + 1, true)
  {
    FirstPollOfSplitFrame(rx, payload, k, now);
    SecondPollOfSplitFrame(rx, payload, k, t, now);
  }

  lemma SecondPollOfSplitFrame(rx: RxState, payload: seq<byte>, k: nat, t: byte, now: nat)
    requires RxOk(rx) && rx.framer == SEEK_START && |payload| == ModeSize(rx.mode) && k <= |payload|
    ensures Poll(Feed(rx, MAGIC + payload[..k], now), payload[k..] + [t], true, now) ==
      (Feed(rx, MAGIC + payload + [t], now), |payload| - k + 1, true)
  {
    assert MAGIC + payload[..k] + (payload[k..] + [t]) == MAGIC + payload + [t] by {
      assert payload[..k] + payload[k..] == payload;
    }
    var rx1 := Feed(rx, MAGIC + payload[..k], now);
    FirstPollOfSplitFrame(rx, payload, k, now);
    FrameTailDrains(rx1, payload[k..], t, now);
    FeedAppend(rx, MAGIC + payload[..k], payload[k..] + [t], now);
  }

  lemma FirstPollOfSplitFrame(rx: RxState, payload: seq<byte>, k: nat, now: nat)
    requires RxOk(rx) && rx.framer == SEEK_START && |payload| == ModeSize(rx.mode) && k <= |payload|
    ensures Poll(rx, MAGIC + payload[..k], true, now) == (Feed(rx, MAGIC + payload[..k], now), |MAGIC| + k, false)
    ensures Feed(rx, MAGIC + payload[..k], now).framer == Framer(COLLECTING, payload[..k])
  {
    MagicThenPayload(ModeSize(rx.mode), payload[..k]);
    QuietInputDrains(rx, MAGIC + payload[..k], now);
  }
}
