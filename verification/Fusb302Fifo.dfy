/** The two FIFOs of the FUSB302 as FUSB302.cpp uses them: transmit frames written as
    tokens and payload, and received packets drained until one is not a GoodCRC. */
module Fusb302Fifo {
  import opened PdWords

  type Bytes = seq<Byte>

  // Tokens of the transmit FIFO.
  const FIFOS: Byte := 0x43
  const TXON: Byte := 0xA1
  const SYNC1: Byte := 0x12
  const SYNC2: Byte := 0x13
  const PACKSYM: Byte := 0x80
  const JAMCRC: Byte := 0xFF
  const EOP: Byte := 0x14
  const TXOFF: Byte := 0xFE

  const CRC_BYTES: nat := 4

  // ---- Little-endian bytes ----

  function Shift(k: nat): nat
    requires k < 4
  {
    if k == 0 then 1 else if k == 1 then 0x100 else if k == 2 then 0x1_0000 else 0x100_0000
  }

  function ByteOf(words: seq<Word>, i: nat): Byte
    requires i < 4 * |words|
  {
    words[i / 4] / Shift(i % 4) % 0x100
  }

  /** The words as they lie in memory. */
  function Payload(words: seq<Word>): (b: Bytes)
    ensures |b| == 4 * |words|
  {
    seq(4 * |words|, i requires 0 <= i < 4 * |words| => ByteOf(words, i))
  }

  function FromBytes(b0: nat, b1: nat, b2: nat, b3: nat): nat {
    b0 + b1 * 0x100 + b2 * 0x1_0000 + b3 * 0x100_0000
  }

  function WordAt(b: Bytes, k: nat): Word
    requires 4 * k + 4 <= |b|
  {
    FromBytes(b[4 * k], b[4 * k + 1], b[4 * k + 2], b[4 * k + 3])
  }

  function Words(b: Bytes): (w: seq<Word>)
    ensures |w| == |b| / 4
  {
    seq(|b| / 4, k requires 0 <= k < |b| / 4 => WordAt(b, k))
  }

  lemma WordOfItsBytes(w: Word)
    ensures FromBytes(w / Shift(0) % 0x100, w / Shift(1) % 0x100, w / Shift(2) % 0x100, w / Shift(3) % 0x100) == w
  {
    var a, b, c := w / 0x100, w / 0x1_0000, w / 0x100_0000;
    assert b == a / 0x100 && c == b / 0x100 && c < 0x100;
    assert w == a * 0x100 + w % 0x100 && a == b * 0x100 + a % 0x100 && b == c * 0x100 + b % 0x100;
  }

  lemma ByteInWord(words: seq<Word>, k: nat, j: nat)
    requires k < |words| && j < 4
    ensures Payload(words)[4 * k + j] == words[k] / Shift(j) % 0x100
  {
    assert (4 * k + j) / 4 == k && (4 * k + j) % 4 == j;
  }

  lemma WordInPayload(words: seq<Word>, k: nat)
    requires k < |words|
    ensures WordAt(Payload(words), k) == words[k]
  {
    ByteInWord(words, k, 0);
    ByteInWord(words, k, 1);
    ByteInWord(words, k, 2);
    ByteInWord(words, k, 3);
    WordOfItsBytes(words[k]);
  }

  lemma PayloadRoundTrip(words: seq<Word>)
    ensures Words(Payload(words)) == words
  {
    forall k | 0 <= k < |words| ensures WordAt(Payload(words), k) == words[k] {
      WordInPayload(words, k);
    }
  }

  function HeaderAt(low: Byte, high: Byte): Half { low + high * 0x100 }

  // ---- Receiving ----

  /** A burst read of `n` bytes; an empty FIFO is taken to read as zero. */
  function Burst(fifo: Bytes, n: nat): (b: Bytes)
    ensures |b| == n
  {
    if n <= |fifo| then fifo[..n] else fifo + seq(n - |fifo|, _ => 0)
  }

  function Remaining(fifo: Bytes, n: nat): (r: Bytes)
    ensures |r| <= |fifo| && (n > 0 && fifo != [] ==> |r| < |fifo|)
  {
    if n <= |fifo| then fifo[n..] else []
  }

  /** The next packet as the driver reads it: three bytes for token and header, then as
      many as the header says and the CRC. */
  function NextPacket(fifo: Bytes): (r: (Half, Bytes, Bytes))
    ensures |r.1| == 4 * HeaderCnt(r.0) && |r.2| <= |fifo| && (fifo != [] ==> |r.2| < |fifo|)
  {
    var front, left := Burst(fifo, 3), Remaining(fifo, 3);
    var h := HeaderAt(front[1], front[2]);
    var len := 4 * HeaderCnt(h);
    (h, Burst(left, len + CRC_BYTES)[..len], Remaining(left, len + CRC_BYTES))
  }

  /** fusb302_tcpm_get_message: the first packet that is not a GoodCRC and what is left
      in the FIFO. */
  function GetMessage(fifo: Bytes): (r: (Option<Message>, Bytes))
    ensures r.0.Some? ==> r.0.value.Valid() && !IsGoodCrc(r.0.value.header)
    ensures r.0.Some? ==> |r.1| < |fifo|
    decreases |fifo|
  {
    if fifo == [] then (None, [])
    else
      var (h, body, rest) := NextPacket(fifo);
      if IsGoodCrc(h) then GetMessage(rest) else (Some(Message(h, Words(body))), rest)
  }

  /** A whole packet in the receive FIFO: start token, message, CRC. */
  datatype RxPacket = RxPacket(token: Byte, message: Message, crc: Bytes) {
    predicate Whole() { message.Valid() && |crc| == CRC_BYTES }

    predicate GoodCrc() { IsGoodCrc(message.header) }

    function Bytes(): Bytes {
      [token, message.header % 0x100, message.header / 0x100] + Payload(message.data) + crc
    }
  }

  type RxPackets = s: seq<RxPacket> | forall k :: 0 <= k < |s| ==> s[k].Whole() witness []

  function Stream(ps: RxPackets): Bytes {
    if ps == [] then [] else ps[0].Bytes() + Stream(ps[1..])
  }

  function AfterGoodCrcs(ps: RxPackets): RxPackets {
    if ps != [] && ps[0].GoodCrc() then AfterGoodCrcs(ps[1..]) else ps
  }

  /** One packet in front of anything is read exactly, whatever follows it. */
  lemma ReadsOnePacket(p: RxPacket, rest: Bytes)
    requires p.Whole()
    ensures GetMessage(p.Bytes() + rest) ==
            if p.GoodCrc() then GetMessage(rest) else (Some(p.message), rest)
  {
    var fifo := p.Bytes() + rest;
    var h := p.message.header;
    var left := Payload(p.message.data) + p.crc + rest;
    assert fifo[..3] == [p.token, h % 0x100, h / 0x100];
    assert fifo[3..] == left;
    assert HeaderAt(h % 0x100, h / 0x100) == h;
    var len := 4 * HeaderCnt(h);
    assert left[..len + CRC_BYTES][..len] == Payload(p.message.data);
    assert left[len + CRC_BYTES..] == rest;
    PayloadRoundTrip(p.message.data);
  }

  /** On whole packets the leading GoodCRCs are skipped, the next packet is returned and
      the FIFO is left exactly at the following boundary. */
  lemma {:induction false} ReadsFirstRealPacket(ps: RxPackets)
    ensures var left := AfterGoodCrcs(ps);
            GetMessage(Stream(ps)) ==
            if left == [] then (None, []) else (Some(left[0].message), Stream(left[1..]))
    decreases |ps|
  {
    if ps != [] {
      ReadsOnePacket(ps[0], Stream(ps[1..]));
      if ps[0].GoodCrc() {
        ReadsFirstRealPacket(ps[1..]);
      }
    }
  }

  /** What calling get_message until it fails delivers. */
  function Delivered(fifo: Bytes): seq<Message>
    decreases |fifo|
  {
    var (m, rest) := GetMessage(fifo);
    if m.None? then [] else [m.value] + Delivered(rest)
  }

  /** The messages other than GoodCRC, in order. */
  function RealMessages(ps: RxPackets): seq<Message> {
    if ps == [] then []
    else (if ps[0].GoodCrc() then [] else [ps[0].message]) + RealMessages(ps[1..])
  }

  lemma {:induction false} DeliversEveryMessage(ps: RxPackets)
    ensures Delivered(Stream(ps)) == RealMessages(ps)
    decreases |ps|
  {
    if ps != [] {
      ReadsOnePacket(ps[0], Stream(ps[1..]));
      DeliversEveryMessage(ps[1..]);
    }
  }

  // ---- Transmitting ----

  function Length(header: Half): nat { 4 * HeaderCnt(header) + 2 }

  /** The burst that sends a message: FIFO address, SOP, payload marker, payload, and the
      tokens for CRC, end of packet, transmitter off and on. */
  function FrameBytes(m: Message): Bytes
    requires m.Valid()
  {
    [FIFOS, SYNC1, SYNC1, SYNC1, SYNC2, PACKSYM + Length(m.header) % 0x20, m.header % 0x100, m.header / 0x100]
    + Payload(m.data) + [JAMCRC, EOP, TXOFF, TXON]
  }

  lemma FrameTail(m: Message, start: Bytes, front: Bytes)
    requires m.Valid()
    requires front == start + [PACKSYM + Length(m.header) % 0x20, m.header % 0x100, m.header / 0x100]
    ensures front + Payload(m.data) + [JAMCRC, EOP, TXOFF, TXON] == start + FrameBytes(m)[5..]
  {}

  /** At most forty bytes, and the marker's five low bits give back the payload length. */
  lemma FrameLength(m: Message)
    requires m.Valid()
    ensures |FrameBytes(m)| == 12 + 4 * HeaderCnt(m.header) <= 40
    ensures FrameBytes(m)[5] % 0x20 == 2 + 4 * |m.data|
  {}

  /** The marker as the driver builds it: the token, and `|` of the length's low bits. */
  lemma MarkerIsOr(m: Message)
    requires m.Valid()
    ensures FrameBytes(m)[5] == Or(PACKSYM, Length(m.header) % 0x20)
  {
    Powers();
    OrField(Length(m.header) % 0x20, 1, 7, PACKSYM);
  }

  datatype Symbol = Sync1 | Sync2 | Data(byte: Byte) | Crc | Eop

  function DataSymbols(b: Bytes): (s: seq<Symbol>)
    ensures |s| == |b|
  {
    seq(|b|, k requires 0 <= k < |b| => Data(b[k]))
  }

  function Append(front: seq<Symbol>, rest: Option<seq<Symbol>>): Option<seq<Symbol>> {
    if rest.None? then None else Some(front + rest.value)
  }

  /** What the chip puts on the wire for the tokens in its FIFO: nothing before TXON. */
  function Emitted(tokens: Bytes): Option<seq<Symbol>>
    decreases |tokens|
  {
    if tokens == [] then None
    else
      var t, more := tokens[0], tokens[1..];
      if t == TXON then Some([])
      else if t == SYNC1 then Append([Sync1], Emitted(more))
      else if t == SYNC2 then Append([Sync2], Emitted(more))
      else if t == JAMCRC then Append([Crc], Emitted(more))
      else if t == EOP then Append([Eop], Emitted(more))
      else if t == TXOFF then Emitted(more)
      else if PACKSYM <= t < PACKSYM + 0x20 && t - PACKSYM <= |more| then
        Append(DataSymbols(more[..t - PACKSYM]), Emitted(more[t - PACKSYM..]))
      else None
  }

  /** The payload bytes of a SOP packet seen on the wire, if it is one. */
  function PacketBytes(wire: seq<Symbol>): Option<Bytes> {
    if |wire| >= 6 && wire[..4] == [Sync1, Sync1, Sync1, Sync2] && wire[|wire| - 2..] == [Crc, Eop]
       && (forall k :: 4 <= k < |wire| - 2 ==> wire[k].Data?) then
      Some(seq(|wire| - 6, k requires 0 <= k < |wire| - 6 => wire[k + 4].byte))
    else None
  }

  lemma EmitsToken(t: Byte, symbols: seq<Symbol>, rest: Bytes)
    requires || (t == SYNC1 && symbols == [Sync1]) || (t == SYNC2 && symbols == [Sync2])
             || (t == JAMCRC && symbols == [Crc]) || (t == EOP && symbols == [Eop]) || (t == TXOFF && symbols == [])
    requires Emitted(rest).Some?
    ensures Emitted([t] + rest) == Some(symbols + Emitted(rest).value)
  {
    assert ([t] + rest)[1..] == rest;
    assert [] + Emitted(rest).value == Emitted(rest).value;
  }

  lemma EmitsPayload(payload: Bytes, rest: Bytes)
    requires |payload| < 0x20 && Emitted(rest).Some?
    ensures Emitted([PACKSYM + |payload|] + (payload + rest)) == Some(DataSymbols(payload) + Emitted(rest).value)
  {
    var more := payload + rest;
    assert ([PACKSYM + |payload|] + more)[1..] == more;
    assert more[..|payload|] == payload && more[|payload|..] == rest;
  }

  lemma Nested<T>(a: T, b: T, rest: seq<T>)
    ensures [a] + ([a] + ([a] + ([b] + rest))) == [a, a, a, b] + rest
  {}

  lemma EmitsOrderedSet(body: Bytes)
    requires Emitted(body).Some?
    ensures Emitted([SYNC1, SYNC1, SYNC1, SYNC2] + body) == Some([Sync1, Sync1, Sync1, Sync2] + Emitted(body).value)
  {
    var b3 := [SYNC2] + body;
    var b2 := [SYNC1] + b3;
    var b1 := [SYNC1] + b2;
    EmitsToken(SYNC2, [Sync2], body);
    EmitsToken(SYNC1, [Sync1], b3);
    EmitsToken(SYNC1, [Sync1], b2);
    EmitsToken(SYNC1, [Sync1], b1);
    Nested(SYNC1, SYNC2, body);
    Nested(Sync1, Sync2, Emitted(body).value);
  }

  lemma EmitsTrailer()
    ensures Emitted([JAMCRC, EOP, TXOFF, TXON]) == Some([Crc, Eop])
  {
    EmitsToken(TXOFF, [], [TXON]);
    EmitsToken(EOP, [Eop], [TXOFF] + [TXON]);
    EmitsToken(JAMCRC, [Crc], [EOP] + ([TXOFF] + [TXON]));
    assert [JAMCRC, EOP, TXOFF, TXON] == [JAMCRC] + ([EOP] + ([TXOFF] + [TXON]));
    assert [Crc] + ([Eop] + ([] + [])) == [Crc, Eop];
  }

  lemma FrameShape(m: Message, payload: Bytes)
    requires m.Valid() && payload == [m.header % 0x100, m.header / 0x100] + Payload(m.data)
    ensures FrameBytes(m)[1..] == [SYNC1, SYNC1, SYNC1, SYNC2]
                             + ([PACKSYM + |payload|] + (payload + [JAMCRC, EOP, TXOFF, TXON]))
  {}

  lemma EmitsSop(m: Message)
    requires m.Valid()
    ensures Emitted(FrameBytes(m)[1..]) ==
            Some([Sync1, Sync1, Sync1, Sync2]
                 + (DataSymbols([m.header % 0x100, m.header / 0x100] + Payload(m.data)) + [Crc, Eop]))
  {
    var payload := [m.header % 0x100, m.header / 0x100] + Payload(m.data);
    EmitsTrailer();
    EmitsPayload(payload, [JAMCRC, EOP, TXOFF, TXON]);
    EmitsOrderedSet([PACKSYM + |payload|] + (payload + [JAMCRC, EOP, TXOFF, TXON]));
    FrameShape(m, payload);
  }

  lemma ReadsWire(payload: Bytes)
    ensures PacketBytes([Sync1, Sync1, Sync1, Sync2] + (DataSymbols(payload) + [Crc, Eop])) == Some(payload)
  {
    var wire := [Sync1, Sync1, Sync1, Sync2] + (DataSymbols(payload) + [Crc, Eop]);
    assert wire[..4] == [Sync1, Sync1, Sync1, Sync2] && wire[|wire| - 2..] == [Crc, Eop];
    assert forall k :: 4 <= k < |wire| - 2 ==> wire[k] == Data(payload[k - 4]);
    assert PacketBytes(wire).Some? && PacketBytes(wire).value == payload;
  }

  /** Whatever the driver transmits, a receiver on the other end of the wire reads the
      same header and objects and leaves what follows untouched; a GoodCRC, and nothing
      else, it passes over. */
  lemma {:induction false} TransmitReceive(m: Message, token: Byte, crc: Bytes, rest: Bytes)
    requires m.Valid() && |crc| == CRC_BYTES
    ensures var wire := Emitted(FrameBytes(m)[1..]);
            && wire.Some? && PacketBytes(wire.value).Some?
            && GetMessage([token] + PacketBytes(wire.value).value + crc + rest) ==
               if IsGoodCrc(m.header) then GetMessage(rest) else (Some(m), rest)
  {
    var payload := [m.header % 0x100, m.header / 0x100] + Payload(m.data);
    EmitsSop(m);
    ReadsWire(payload);
    var p := RxPacket(token, m, crc);
    assert [token] + payload + crc == p.Bytes();
    ReadsOnePacket(p, rest);
  }
}
