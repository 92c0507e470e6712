/**
 * The binary command protocol of SerialStream (serial_server.hpp). On the native USB
 * port, one opcode byte selects HANDSHAKE, SETUP, STREAM or RESET. Payload values
 * arrive as 2-byte little-endian words through a union. The link is modelled as:
 * the bytes that arrive (rx), the bytes written (tx) and the builtin LED.
 *
 * The 1000 ms wait for a payload is modelled as an oracle, inTime. It says whether
 * the first byte still in rx arrives before the wait gives up. When rx is empty,
 * nothing ever arrives.
 */
module SerialServer {
  import opened Numeric
  import opened Wrappers
  import Config
  import DisplayState

  const CMD_HANDSHAKE: byte := 0
  const CMD_ACK: byte := 1
  const CMD_NACK: byte := 2
  const CMD_STREAM: byte := 3
  const CMD_RESET: byte := 4
  const CMD_SETUP: byte := 5

  const STATUS_NOT_SETUP: u8 := 10
  const STATUS_STANDBY: u8 := 11
  const STATUS_BUSY: u8 := 12

  const ALLOCATE_TASK_MILLIS: nat := 1000

  /** The capacity of the listen<RES> result in receiveAScan: `MAX_T - MIN_T` defaults. */
  const LISTEN_CAPACITY: nat := 1000

  // ------------------------------------------------------------------ time

  /** toc(tic): more than ALLOCATE_TASK_MILLIS have passed, in wrapping 32-bit millis. */
  function Toc(now: u32, tic: u32): (r: bool)
    ensures tic <= now ==> (r <==> now - tic > ALLOCATE_TASK_MILLIS)
    ensures now < tic ==> (r <==> now + 0x1_0000_0000 - tic > ALLOCATE_TASK_MILLIS)
  {
    SubU32(now, tic) > ALLOCATE_TASK_MILLIS
  }

  /**
   * The comparison is strict, and it measures elapsed time across the wrap of the
   * millis() counter: 756 ms from 0xFFFFFF00 to 500 is not yet a timeout.
   */
  lemma TocBoundary(tic: u32)
    requires tic <= 0x1_0000_0000 - 1002
    ensures !Toc(tic, tic) && !Toc(tic + 1000, tic) && Toc(tic + 1001, tic)
    ensures !Toc(500, 0xFFFF_FF00) && Toc(1000, 0xFFFF_FF00)
  {
  }

  // ---------------------------------------------------------- byte payloads

  /** `u16.val` after `u16.b = {b0, b1}` on the little-endian target. */
  function LittleEndian(b0: byte, b1: byte): (v: u16)
    ensures v % 0x100 == b0 && v / 0x100 == b1
  {
    b0 + 0x100 * b1
  }

  /** The two bytes a host sends for a 16-bit value, low byte first. */
  function Encode16(v: u16): (b: seq<byte>)
    ensures |b| == 2 && b[0] as int + 0x100 * b[1] as int == v as int
  {
    [v % 0x100, v / 0x100]
  }

  /** Every 16-bit value survives encoding and reassembly, and so does every byte pair. */
  lemma LittleEndianRoundTrip(v: u16, b0: byte, b1: byte)
    ensures LittleEndian(Encode16(v)[0], Encode16(v)[1]) == v
    ensures Encode16(LittleEndian(b0, b1)) == [b0, b1]
  {
  }

  /** `i16.val`: the same bits read as a two's-complement 16-bit integer. */
  function Signed16(v: u16): (x: int)
    ensures -0x8000 <= x < 0x8000
    ensures (x - v) % 0x1_0000 == 0
  {
    if v < 0x8000 then v else v - 0x1_0000
  }

  /** `(float) i16.val / 100.`: a streamed sample sent in hundredths. */
  function Centi(v: u16): (x: real)
    ensures -327.68 <= x < 327.68
    ensures x * 100.0 == Signed16(v) as real
  {
    (Signed16(v) as real) / 100.0
  }

  /**
   * readBytes(buf, 2): up to two bytes move from rx into the union. A short read (the
   * stream ran dry) leaves the remaining union bytes as they were.
   */
  function ReadPair(rx: seq<byte>, buf: seq<byte>): (r: (seq<byte>, seq<byte>))
    requires |buf| == 2
    ensures |r.0| == 2
    ensures |rx| >= 2 ==> r.0 == rx[..2] && r.1 == rx[2..]
    ensures |rx| < 2 ==> r.1 == [] && r.0 == rx + buf[|rx|..]
  {
    var n := if |rx| < 2 then |rx| else 2;
    (rx[..n] + buf[n..], rx[n..])
  }

  /** The union bytes and the unread stream after i successive 2-byte reads. */
  function ReadState(rx: seq<byte>, buf: seq<byte>, i: nat): (s: (seq<byte>, seq<byte>))
    requires |buf| == 2
    ensures |s.0| == 2
  {
    if i == 0 then (buf, rx)
    else
      var prev := ReadState(rx, buf, i - 1);
      ReadPair(prev.1, prev.0)
  }

  /** The reads consume the stream only from its front. */
  lemma {:induction false} ReadStateSuffix(rx: seq<byte>, buf: seq<byte>, i: nat)
    requires |buf| == 2
    ensures var rest := ReadState(rx, buf, i).1; |rest| <= |rx| && rest == rx[|rx| - |rest|..]
  {
    if i > 0 {
      ReadStateSuffix(rx, buf, i - 1);
    }
  }

  /** The values of i successive reads: the union's value after each read. */
  function Words(rx: seq<byte>, buf: seq<byte>, i: nat): (ws: seq<u16>)
    requires |buf| == 2
    ensures |ws| == i
  {
    if i == 0 then []
    else
      var b := ReadState(rx, buf, i).0;
      Words(rx, buf, i - 1) + [LittleEndian(b[0], b[1])]
  }

  /** With enough bytes the reads walk the stream two bytes at a time. */
  lemma {:induction false} ReadStateOfFullStream(rx: seq<byte>, buf: seq<byte>, i: nat)
    requires |buf| == 2 && 2 * i <= |rx|
    ensures ReadState(rx, buf, i).1 == rx[2 * i..]
    ensures i >= 1 ==> ReadState(rx, buf, i).0 == rx[2 * i - 2..2 * i]
  {
    if i >= 1 {
      ReadStateOfFullStream(rx, buf, i - 1);
      var prev := ReadState(rx, buf, i - 1);
      assert prev.1 == rx[2 * i - 2..];
      assert prev.1[..2] == rx[2 * i - 2..2 * i];
      assert prev.1[2..] == rx[2 * i..];
    }
  }

  /** With enough bytes, word k is the little-endian pair at bytes 2k and 2k+1. */
  lemma {:induction false} WordsOfFullStream(rx: seq<byte>, buf: seq<byte>, i: nat)
    requires |buf| == 2 && 2 * i <= |rx|
    ensures forall k :: 0 <= k < i ==> Words(rx, buf, i)[k] == LittleEndian(rx[2 * k], rx[2 * k + 1])
  {
    if i >= 1 {
      WordsOfFullStream(rx, buf, i - 1);
      ReadStateOfFullStream(rx, buf, i);
      var b := ReadState(rx, buf, i).0;
      assert b[0] == rx[2 * i - 2] && b[1] == rx[2 * i - 1];
      forall k | 0 <= k < i
        ensures Words(rx, buf, i)[k] == LittleEndian(rx[2 * k], rx[2 * k + 1])
      {
        if k < i - 1 {
          assert Words(rx, buf, i)[k] == Words(rx, buf, i - 1)[k];
        }
      }
    }
  }

  /** A short read reuses the stale high byte: one byte 7 after a union holding {1, 2}. */
  lemma StaleHighByte()
    ensures Words([7], [1, 2], 1) == [7 + 2 * 0x100]
    ensures Words([], [1, 2], 1) == [1 + 2 * 0x100]
  {
    var buf: seq<byte> := [1, 2];
    var one: seq<byte> := [7];
    assert ReadState(one, buf, 0) == (buf, one);
    assert ReadPair(one, buf).0 == one + buf[1..] == [7, 2];
    assert ReadState([], buf, 0) == (buf, []);
    assert ReadPair([], buf).0 == buf;
  }

  /** The streamed samples: each word in hundredths of its signed value. */
  function Samples(ws: seq<u16>): (s: seq<real>)
    ensures |s| == |ws|
  {
    seq(|ws|, k requires 0 <= k < |ws| => Centi(ws[k]))
  }

  // ------------------------------------------------------ the listen step

  /** What listen can see of the link: the bytes still to arrive, the bytes written, the LED. */
  datatype Link = Link(rx: seq<byte>, tx: seq<byte>, led: bool)

  function Send(l: Link, b: byte): Link
  {
    l.(tx := l.tx + [b])
  }

  /** The server's own fields that listen reads or writes. */
  datatype ServerState = ServerState(status: u8, portUsb: bool, u16b: seq<byte>, i16b: seq<byte>)

  /**
   * The effect of one call of listen: the returned samples, the link afterwards, the
   * server fields it writes, the configuration loaded (if any) and whether the display
   * was reset.
   */
  datatype Outcome = Outcome(arr: seq<real>, link: Link, status: u8, u16b: seq<byte>,
                             i16b: seq<byte>, loaded: Option<Config.Slots>, reset: bool)

  /** The payload wait ends because a byte arrived, not because of the timeout. */
  predicate Arrives(rx: seq<byte>, inTime: bool)
  {
    |rx| > 0 && inTime
  }

  /** The numPtsLocal zeros that listen starts from and returns unless a STREAM completes. */
  function Zeros(cfg: Config.Slots): (z: seq<real>)
    ensures |z| == Config.NumPtsLocal(cfg) && forall k :: 0 <= k < |z| ==> z[k] == 0.0
  {
    seq(Config.NumPtsLocal(cfg), _ => 0.0)
  }

  /** An outcome that returns zeros and leaves every server field as it was. */
  function Idle(s: ServerState, l: Link, zeros: seq<real>): Outcome
  {
    Outcome(zeros, l, s.status, s.u16b, s.i16b, None, false)
  }

  /**
   * From link l to link l2: the input was consumed only from the front, and at most
   * `most` answers were sent after what was already sent, each an ACK or a NACK.
   */
  predicate Answered(l: Link, l2: Link, most: nat)
  {
    |l2.rx| <= |l.rx| && l2.rx == l.rx[|l.rx| - |l2.rx|..] &&
    |l.tx| <= |l2.tx| <= |l.tx| + most && l2.tx[..|l.tx|] == l.tx &&
    forall k :: |l.tx| <= k < |l2.tx| ==> l2.tx[k] == CMD_ACK || l2.tx[k] == CMD_NACK
  }

  /** listen<N>() as one step from the state before it. */
  function ListenSpec(s: ServerState, l: Link, cfg: Config.Slots, inTime: bool): (o: Outcome)
    requires |s.u16b| == 2 && |s.i16b| == 2
  {
    var zeros := Zeros(cfg);
    if !s.portUsb || |l.rx| == 0 then Idle(s, l, zeros)
    else
      var cmd, after := l.rx[0], l.(rx := l.rx[1..]);
      if s.status == STATUS_BUSY then Idle(s, Send(after, CMD_NACK), zeros)
      else if cmd == CMD_HANDSHAKE then Idle(s, Send(after, CMD_ACK), zeros)
      else if cmd == CMD_SETUP then SetupStep(s, after, zeros, inTime)
      else if cmd == CMD_STREAM then StreamStep(s, after, cfg, zeros, inTime)
      else if cmd == CMD_RESET then Idle(s, Send(after, CMD_ACK), zeros).(reset := true)
      else Idle(s, Send(after, CMD_NACK), zeros)
  }

  /**
   * SETUP once its opcode is read: ACK and the LED on; then, if the payload arrives,
   * N_CFG words become the configuration, a second ACK, the LED off and STANDBY.
   */
  function SetupStep(s: ServerState, l: Link, zeros: seq<real>, inTime: bool): (o: Outcome)
    requires |s.u16b| == 2
  {
    var acked := Send(l, CMD_ACK).(led := true);
    if !Arrives(l.rx, inTime) then Idle(s, acked, zeros)
    else
      var st := ReadState(l.rx, s.u16b, Config.N_CFG);
      Outcome(zeros, Link(st.1, acked.tx + [CMD_ACK], false), STATUS_STANDBY, st.0, s.i16b,
              Some(Words(l.rx, s.u16b, Config.N_CFG)), false)
  }

  /**
   * STREAM once its opcode is read: NACK unless in STANDBY; otherwise ACK and the LED
   * on, and, if the payload arrives, numPtsLocal samples after the zeros, a second ACK
   * and the LED off.
   */
  function StreamStep(s: ServerState, l: Link, cfg: Config.Slots, zeros: seq<real>, inTime: bool): (o: Outcome)
    requires |s.i16b| == 2
  {
    if s.status != STATUS_STANDBY then Idle(s, Send(l, CMD_NACK), zeros)
    else
      var acked := Send(l, CMD_ACK).(led := true);
      if !Arrives(l.rx, inTime) then Idle(s, acked, zeros)
      else
        var n := Config.NumPtsLocal(cfg);
        var st := ReadState(l.rx, s.i16b, n);
        Outcome(zeros + Samples(Words(l.rx, s.i16b, n)), Link(st.1, acked.tx + [CMD_ACK], false),
                s.status, s.u16b, st.0, None, false)
  }

  /** Without a connected native port or a pending byte, listen returns numPtsLocal zeros and does nothing. */
  lemma NothingPending(s: ServerState, l: Link, cfg: Config.Slots, inTime: bool)
    requires |s.u16b| == 2 && |s.i16b| == 2
    requires !s.portUsb || l.rx == []
    ensures var o := ListenSpec(s, l, cfg, inTime);
      o.link == l && o.status == s.status && o.loaded == None && !o.reset &&
      |o.arr| == Config.NumPtsLocal(cfg) && forall k :: 0 <= k < |o.arr| ==> o.arr[k] == 0.0
  {
  }

  /**
   * Every call of listen consumes input only from the front and sends at most two
   * answers, each an ACK or a NACK; the returned array starts with numPtsLocal zeros,
   * and the status either stays or becomes STANDBY.
   */
  lemma ListenShape(s: ServerState, l: Link, cfg: Config.Slots, inTime: bool)
    requires |s.u16b| == 2 && |s.i16b| == 2
    ensures var o := ListenSpec(s, l, cfg, inTime);
      Answered(l, o.link, 2) && (o.status == s.status || o.status == STATUS_STANDBY) &&
      |o.arr| >= Config.NumPtsLocal(cfg) && o.arr[..Config.NumPtsLocal(cfg)] == Zeros(cfg)
  {
    var zeros := Zeros(cfg);
    if s.portUsb && |l.rx| > 0 && s.status != STATUS_BUSY {
      var after := l.(rx := l.rx[1..]);
      var cmd := l.rx[0];
      if cmd == CMD_SETUP {
        SetupShape(s, after, zeros, inTime);
        AnsweredAfterOpcode(l, SetupStep(s, after, zeros, inTime).link);
      } else if cmd == CMD_STREAM {
        StreamShape(s, after, cfg, zeros, inTime);
        AnsweredAfterOpcode(l, StreamStep(s, after, cfg, zeros, inTime).link);
      }
    }
  }

  /** Answers sent after the opcode was read count as answers to the whole call. */
  lemma AnsweredAfterOpcode(l: Link, l2: Link)
    requires |l.rx| > 0 && Answered(l.(rx := l.rx[1..]), l2, 2)
    ensures Answered(l, l2, 2)
  {
    assert l.rx[1..][|l.rx| - 1 - |l2.rx|..] == l.rx[|l.rx| - |l2.rx|..];
  }

  /** The SETUP step: at most two answers, a front-consumed stream, zeros returned. */
  lemma SetupShape(s: ServerState, l: Link, zeros: seq<real>, inTime: bool)
    requires |s.u16b| == 2
    ensures var o := SetupStep(s, l, zeros, inTime);
      Answered(l, o.link, 2) && (o.status == s.status || o.status == STATUS_STANDBY) && o.arr == zeros
  {
    if Arrives(l.rx, inTime) {
      ReadStateSuffix(l.rx, s.u16b, Config.N_CFG);
    }
  }

  /** The STREAM step: at most two answers, a front-consumed stream, zeros kept in front. */
  lemma StreamShape(s: ServerState, l: Link, cfg: Config.Slots, zeros: seq<real>, inTime: bool)
    requires |s.i16b| == 2
    ensures var o := StreamStep(s, l, cfg, zeros, inTime);
      Answered(l, o.link, 2) && o.status == s.status && |o.arr| >= |zeros| && o.arr[..|zeros|] == zeros
  {
    if s.status == STATUS_STANDBY && Arrives(l.rx, inTime) {
      ReadStateSuffix(l.rx, s.i16b, Config.NumPtsLocal(cfg));
    }
  }

  /**
   * The status is only ever set to STANDBY, and only by a SETUP whose payload arrived;
   * so from NOT_SETUP or STANDBY it never becomes BUSY, and the busy NACK is never sent.
   */
  lemma StatusOnlyBecomesStandby(s: ServerState, l: Link, cfg: Config.Slots, inTime: bool)
    requires |s.u16b| == 2 && |s.i16b| == 2
    ensures var o := ListenSpec(s, l, cfg, inTime);
      o.status == s.status ||
      (o.status == STATUS_STANDBY && s.portUsb && |l.rx| > 0 && l.rx[0] == CMD_SETUP && Arrives(l.rx[1..], inTime))
    ensures s.status != STATUS_BUSY ==> ListenSpec(s, l, cfg, inTime).status != STATUS_BUSY
  {
  }

  /**
   * HANDSHAKE answers one ACK, any other opcode but SETUP, STREAM and RESET (ACK and NACK
   * included) one NACK; either way only the opcode
   * is consumed and nothing else changes.
   */
  lemma OneByteAnswers(s: ServerState, l: Link, cfg: Config.Slots, inTime: bool)
    requires |s.u16b| == 2 && |s.i16b| == 2
    requires s.portUsb && |l.rx| > 0 && s.status != STATUS_BUSY
    requires l.rx[0] != CMD_SETUP && l.rx[0] != CMD_STREAM && l.rx[0] != CMD_RESET
    ensures var o := ListenSpec(s, l, cfg, inTime);
      o.link == Link(l.rx[1..], l.tx + [if l.rx[0] == CMD_HANDSHAKE then CMD_ACK else CMD_NACK], l.led) &&
      o.status == s.status && o.u16b == s.u16b && o.i16b == s.i16b && o.loaded == None && !o.reset
  {
  }

  /** STREAM before a successful SETUP: one NACK, no payload consumed, no change. */
  lemma StreamRefusedUnlessStandby(s: ServerState, l: Link, cfg: Config.Slots, inTime: bool)
    requires |s.u16b| == 2 && |s.i16b| == 2
    requires s.portUsb && |l.rx| > 0 && l.rx[0] == CMD_STREAM && s.status != STATUS_STANDBY
    requires s.status != STATUS_BUSY
    ensures var o := ListenSpec(s, l, cfg, inTime);
      o.link == Link(l.rx[1..], l.tx + [CMD_NACK], l.led) && o.status == s.status &&
      o.i16b == s.i16b && |o.arr| == Config.NumPtsLocal(cfg)
  {
  }

  /**
   * SETUP (from NOT_SETUP or STANDBY) or STREAM (from STANDBY) whose payload does not
   * arrive in time: the ACK is the only answer,
   * the LED stays on, the zero array comes back and the status is unchanged.
   */
  lemma PayloadTimeout(s: ServerState, l: Link, cfg: Config.Slots, inTime: bool)
    requires |s.u16b| == 2 && |s.i16b| == 2
    requires s.portUsb && |l.rx| > 0 && s.status != STATUS_BUSY
    requires l.rx[0] == CMD_SETUP || l.rx[0] == CMD_STREAM
    requires l.rx[0] == CMD_STREAM ==> s.status == STATUS_STANDBY
    requires !Arrives(l.rx[1..], inTime)
    ensures var o := ListenSpec(s, l, cfg, inTime);
      o.link == Link(l.rx[1..], l.tx + [CMD_ACK], true) && o.status == s.status &&
      o.loaded == None && o.arr == seq(Config.NumPtsLocal(cfg), _ => 0.0)
  {
  }

  /**
   * SETUP with its payload: the ten little-endian words of the stream become the
   * configuration, the answer is ACK then ACK, the LED goes off and the status is STANDBY.
   */
  lemma SetupLoadsWords(s: ServerState, l: Link, cfg: Config.Slots, inTime: bool)
    requires |s.u16b| == 2 && |s.i16b| == 2
    requires s.portUsb && s.status != STATUS_BUSY && inTime
    requires |l.rx| >= 1 + 2 * Config.N_CFG && l.rx[0] == CMD_SETUP
    ensures var o := ListenSpec(s, l, cfg, inTime);
      o.loaded.Some? && o.status == STATUS_STANDBY && o.link.tx == l.tx + [CMD_ACK, CMD_ACK] &&
      !o.link.led && o.link.rx == l.rx[1 + 2 * Config.N_CFG..] &&
      forall k :: 0 <= k < Config.N_CFG ==> o.loaded.value[k] == LittleEndian(l.rx[1 + 2 * k], l.rx[2 + 2 * k])
  {
    var rx := l.rx[1..];
    WordsOfFullStream(rx, s.u16b, Config.N_CFG);
    ReadStateOfFullStream(rx, s.u16b, Config.N_CFG);
    assert rx[2 * Config.N_CFG..] == l.rx[1 + 2 * Config.N_CFG..];
  }

  /**
   * STREAM in STANDBY with its payload: numPtsLocal signed words, in hundredths, are
   * appended after the numPtsLocal zeros, and the answer is ACK then ACK.
   */
  lemma StreamAppendsSamples(s: ServerState, l: Link, cfg: Config.Slots, inTime: bool)
    requires |s.u16b| == 2 && |s.i16b| == 2
    requires s.portUsb && s.status == STATUS_STANDBY && inTime
    requires var n := Config.NumPtsLocal(cfg); n >= 1 && |l.rx| >= 1 + 2 * n && l.rx[0] == CMD_STREAM
    ensures var o, n := ListenSpec(s, l, cfg, inTime), Config.NumPtsLocal(cfg);
      |o.arr| == 2 * n && o.link.tx == l.tx + [CMD_ACK, CMD_ACK] && o.status == s.status &&
      (forall k :: 0 <= k < n ==> o.arr[k] == 0.0) &&
      (forall k :: 0 <= k < n ==> o.arr[n + k] == Centi(LittleEndian(l.rx[1 + 2 * k], l.rx[2 + 2 * k])))
  {
    var n := Config.NumPtsLocal(cfg);
    var rx := l.rx[1..];
    WordsOfFullStream(rx, s.i16b, n);
    var o := ListenSpec(s, l, cfg, inTime);
    var zeros := seq(n, _ => 0.0);
    assert o.arr == zeros + Samples(Words(rx, s.i16b, n));
    forall k | 0 <= k < n
      ensures o.arr[n + k] == Centi(LittleEndian(l.rx[1 + 2 * k], l.rx[2 + 2 * k]))
    {
      assert o.arr[n + k] == Samples(Words(rx, s.i16b, n))[k];
      assert rx[2 * k] == l.rx[1 + 2 * k] && rx[2 * k + 1] == l.rx[2 + 2 * k];
    }
  }

  /** With the default window a full STREAM returns 2000 samples, twice the listen capacity. */
  lemma DefaultStreamOverflows(s: ServerState, l: Link, inTime: bool)
    requires |s.u16b| == 2 && |s.i16b| == 2
    requires s.portUsb && s.status == STATUS_STANDBY && inTime
    requires |l.rx| >= 1 + 2 * 1000 && l.rx[0] == CMD_STREAM
    ensures |ListenSpec(s, l, Config.DEFAULTS, inTime).arr| == 2000 > LISTEN_CAPACITY
  {
    Config.DefaultReadings();
    StreamAppendsSamples(s, l, Config.DEFAULTS, inTime);
  }

  /** RESET resets the display and answers ACK; the status is unchanged. */
  lemma ResetAnswersAck(s: ServerState, l: Link, cfg: Config.Slots, inTime: bool)
    requires |s.u16b| == 2 && |s.i16b| == 2
    requires s.portUsb && |l.rx| > 0 && l.rx[0] == CMD_RESET && s.status != STATUS_BUSY
    ensures var o := ListenSpec(s, l, cfg, inTime);
      o.reset && o.link == Link(l.rx[1..], l.tx + [CMD_ACK], l.led) && o.status == s.status
  {
  }

  // ------------------------------------------------------------- the port

  /** The native USB serial port `SerialUSB` and the builtin LED. */
  class UsbPort {
    var rx: seq<byte>
    var tx: seq<byte>
    var led: bool

    function Snapshot(): Link
      reads this
    {
      Link(rx, tx, led)
    }

    constructor(rx: seq<byte>)
      ensures this.rx == rx && tx == [] && !led
    {
      this.rx := rx;
      tx := [];
      led := false;
    }

    /** read(): takes the next byte. */
    method Read() returns (b: byte)
      requires |rx| > 0
      modifies this`rx
      ensures b == old(rx[0]) && rx == old(rx[1..])
    {
      b := rx[0];
      rx := rx[1..];
    }

    /** write(b): sends one byte. */
    method Write(b: byte)
      modifies this`tx
      ensures tx == old(tx) + [b]
    {
      tx := tx + [b];
    }

    /** digitalWrite(LED_BUILTIN, on). */
    method SetLed(on: bool)
      modifies this`led
      ensures led == on
    {
      led := on;
    }

    /**
     * `while (!SerialUSB.available()) if (toc(tic)) return arr;`: the wait either sees a
     * byte (arrived) or gives up; the oracle inTime tells which comes first.
     */
    method Await(inTime: bool) returns (arrived: bool)
      ensures arrived == Arrives(rx, inTime)
    {
      arrived := |rx| > 0 && inTime;
    }

    /** readBytes(buf, 2) into a 2-byte union. */
    method ReadBytes(buf: seq<byte>) returns (buf': seq<byte>)
      requires |buf| == 2
      modifies this`rx
      ensures (buf', rx) == ReadPair(old(rx), buf)
    {
      var n := if |rx| < 2 then |rx| else 2;
      buf' := rx[..n] + buf[n..];
      rx := rx[n..];
    }
  }

  // ------------------------------------------------------------ the server

  class SerialStream {
    const display: DisplayState.Display
    const config: Config.ConfigStore
    const usb: UsbPort
    const s1Ypos: u8
    const s2Ypos: u8
    var portUpdate: u32
    var status: u8
    var portPrg: bool
    var portUsb: bool
    var rawSignal: bool
    var u16b: seq<byte>
    var i16b: seq<byte>

    ghost predicate Valid()
      reads this, config
    {
      config.Valid() && |u16b| == 2 && |i16b| == 2
    }

    /** The status is one the server can be in: NOT_SETUP or STANDBY. */
    ghost predicate Reachable()
      reads this
    {
      status == STATUS_NOT_SETUP || status == STATUS_STANDBY
    }

    function State(): ServerState
      reads this
    {
      ServerState(status, portUsb, u16b, i16b)
    }

    /** Construction at time now: not set up, no port seen, the unions zeroed. */
    constructor(display: DisplayState.Display, config: Config.ConfigStore, usb: UsbPort,
                s1Ypos: u8, s2Ypos: u8, now: u32)
      requires config.Valid()
      ensures Valid() && Reachable() && status == STATUS_NOT_SETUP
      ensures !portPrg && !portUsb && rawSignal && portUpdate == now
      ensures this.display == display && this.config == config && this.usb == usb
    {
      this.display := display;
      this.config := config;
      this.usb := usb;
      this.s1Ypos := s1Ypos;
      this.s2Ypos := s2Ypos;
      portUpdate := now;
      status := STATUS_NOT_SETUP;
      portPrg := false;
      portUsb := false;
      rawSignal := true;
      u16b := [0, 0];
      i16b := [0, 0];
    }

    /** The SETUP payload: N_CFG words into a zeroed array, handed to cfg::update. */
    method LoadSettings()
      requires Valid()
      modifies this`u16b, usb`rx, config, config.config
      ensures Valid()
      ensures (u16b, usb.rx) == ReadState(old(usb.rx), old(u16b), Config.N_CFG)
      ensures config.Current() == Words(old(usb.rx), old(u16b), Config.N_CFG) && config.configUpdate
    {
      ghost var rx0, buf0 := usb.rx, u16b;
      var cfg := new u16[Config.N_CFG];
      var i := 0;
      while i < Config.N_CFG
        invariant 0 <= i <= Config.N_CFG && |u16b| == 2
        invariant (u16b, usb.rx) == ReadState(rx0, buf0, i)
        invariant cfg[..i] == Words(rx0, buf0, i)
        invariant config.Valid() && config.config[..] == old(config.config[..])
      {
        u16b := usb.ReadBytes(u16b);
        cfg[i] := LittleEndian(u16b[0], u16b[1]);
        assert cfg[..i + 1] == cfg[..i] + [cfg[i]];
        i := i + 1;
      }
      config.Update(cfg);
    }

    /** The STREAM payload: n signed words appended, in hundredths, after arr. */
    method ReadSamples(arr: seq<real>, n: u16) returns (arr': seq<real>)
      requires |i16b| == 2
      modifies this`i16b, usb`rx
      ensures |i16b| == 2
      ensures (i16b, usb.rx) == ReadState(old(usb.rx), old(i16b), n)
      ensures arr' == arr + Samples(Words(old(usb.rx), old(i16b), n))
    {
      ghost var rx0, buf0 := usb.rx, i16b;
      arr' := arr;
      var i: u16 := 0;
      while i < n
        invariant 0 <= i <= n && |i16b| == 2
        invariant (i16b, usb.rx) == ReadState(rx0, buf0, i)
        invariant |arr'| == |arr| + i && arr'[..|arr|] == arr
        invariant forall k :: 0 <= k < i ==> arr'[|arr| + k] == Centi(Words(rx0, buf0, i)[k])
      {
        i16b := usb.ReadBytes(i16b);
        arr' := arr' + [Centi(LittleEndian(i16b[0], i16b[1]))];
        i := i + 1;
        assert forall k :: 0 <= k < i - 1 ==> Words(rx0, buf0, i)[k] == Words(rx0, buf0, i - 1)[k];
      }
      assert arr' == arr + Samples(Words(rx0, buf0, n));
    }

    /**
     * The state after a listen step agrees with the outcome o: the samples returned,
     * the link, the server fields, the configuration and the display.
     */
    twostate predicate Reflects(o: Outcome, arr: seq<real>)
      reads this, usb, config, config.config, display
      requires old(config.Valid()) && config.Valid()
    {
      arr == o.arr && usb.Snapshot() == o.link &&
      State() == old(State()).(status := o.status, u16b := o.u16b, i16b := o.i16b) &&
      portPrg == old(portPrg) && portUpdate == old(portUpdate) && rawSignal == old(rawSignal) &&
      (if o.loaded.Some? then config.Current() == o.loaded.value && config.configUpdate
       else config.Current() == old(config.Current()) && config.configUpdate == old(config.configUpdate)) &&
      (if o.reset then display.currentCol == 0 && display.clears == old(display.clears) + 1 && display.drawn == []
       else display.currentCol == old(display.currentCol) && display.clears == old(display.clears) &&
            display.drawn == old(display.drawn))
    }

    /** listen<N>(): at most one command per call, as ListenSpec describes. */
    method Listen(inTime: bool) returns (arr: seq<real>)
      requires Valid()
      modifies this, usb, config, config.config, display
      ensures Valid()
      ensures Reflects(ListenSpec(old(State()), old(usb.Snapshot()), old(config.Current()), inTime), arr)
      ensures old(Reachable()) ==> Reachable()
    {
      var zeros := Zeros(config.Current());
      arr := zeros;
      if !(portUsb && |usb.rx| > 0) {
        return;
      }
      var cmd := usb.Read();
      if status == STATUS_BUSY {
        usb.Write(CMD_NACK);
        return;
      }
      if cmd == CMD_HANDSHAKE {
        usb.Write(CMD_ACK);
      } else if cmd == CMD_SETUP {
        arr := HandleSetup(inTime, zeros);
      } else if cmd == CMD_STREAM {
        arr := HandleStream(inTime, zeros);
      } else if cmd == CMD_RESET {
        display.ResetColumn();
        var _ := display.ClearInner();
        usb.Write(CMD_ACK);
      } else {
        usb.Write(CMD_NACK);
      }
    }

    /** The SETUP branch of listen, after the opcode. */
    method HandleSetup(inTime: bool, zeros: seq<real>) returns (arr: seq<real>)
      requires Valid()
      modifies this`u16b, this`status, usb, config, config.config
      ensures Valid()
      ensures Reflects(SetupStep(old(State()), old(usb.Snapshot()), zeros, inTime), arr)
    {
      arr := zeros;
      usb.Write(CMD_ACK);
      usb.SetLed(true);
      var arrived := usb.Await(inTime);
      if !arrived {
        return;
      }
      LoadSettings();
      usb.Write(CMD_ACK);
      usb.SetLed(false);
      status := STATUS_STANDBY;
    }

    /** The STREAM branch of listen, after the opcode. */
    method HandleStream(inTime: bool, zeros: seq<real>) returns (arr: seq<real>)
      requires Valid()
      modifies this`i16b, usb
      ensures Valid()
      ensures Reflects(StreamStep(old(State()), old(usb.Snapshot()), old(config.Current()), zeros, inTime), arr)
    {
      arr := zeros;
      if status != STATUS_STANDBY {
        usb.Write(CMD_NACK);
        return;
      }
      usb.Write(CMD_ACK);
      usb.SetLed(true);
      var arrived := usb.Await(inTime);
      if !arrived {
        return;
      }
      var n := Config.NumPtsLocal(config.Current());
      arr := ReadSamples(arr, n);
      usb.Write(CMD_ACK);
      usb.SetLed(false);
    }

    /**
     * checkConnections(update_display): at most once a second, each port flag follows
     * its port's presence; with update_display, each flag that changes blanks the
     * image and resets the display's column counter.
     */
    method CheckConnections(now: u32, serialPresent: bool, usbPresent: bool, updateDisplay: bool)
      modifies this`portUpdate, this`portPrg, this`portUsb, display
      ensures SubU32(now, old(portUpdate)) < 1000 ==>
        portUpdate == old(portUpdate) && portPrg == old(portPrg) && portUsb == old(portUsb) &&
        display.currentCol == old(display.currentCol) && display.clears == old(display.clears) &&
        display.drawn == old(display.drawn)
      ensures SubU32(now, old(portUpdate)) >= 1000 ==>
        portUpdate == now && portPrg == serialPresent && portUsb == usbPresent &&
        var changes := (if old(portPrg) != serialPresent then 1 else 0) + (if old(portUsb) != usbPresent then 1 else 0);
        display.clears == old(display.clears) + (if updateDisplay then changes else 0) &&
        display.currentCol == (if updateDisplay && changes > 0 then 0 else old(display.currentCol)) &&
        display.drawn == (if updateDisplay && changes > 0 then [] else old(display.drawn))
    {
      if SubU32(now, portUpdate) < 1000 {
        return;
      }
      portUpdate := now;
      if portPrg != serialPresent {
        portPrg := serialPresent;
        if updateDisplay {
          var _ := display.ClearInner();
          display.ResetColumn();
        }
      }
      if portUsb != usbPresent {
        portUsb := usbPresent;
        if updateDisplay {
          var _ := display.ClearInner();
          display.ResetColumn();
        }
      }
    }

    /** s1(): whether the programming port was last seen connected. */
    method S1() returns (connected: bool)
      ensures connected == portPrg
    {
      connected := portPrg;
    }

    /** s2(): whether the native port was last seen connected. */
    method S2() returns (connected: bool)
      ensures connected == portUsb
    {
      connected := portUsb;
    }
  }
}
