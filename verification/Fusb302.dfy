/** The FUSB302 driver and its chip as an object: registers, shadow state and FIFOs,
    changed step by step as FUSB302.cpp does. */
module Fusb302Chip {
  import opened PdWords
  import opened Fusb302Registers
  import opened Fusb302Fifo

  /** What goes on the wire: a burst of the transmit FIFO, or a signal. */
  datatype Transmission = Sent(bytes: Bytes) | Signaled(kind: TxKind)

  class Fusb302 {
    const regs: array<bv8>
    var polarity: int
    var vconn: bool
    var pullUp: bool
    var rx: bool
    var thresholds: Thresholds
    /** The receive FIFO, and all that has been transmitted. */
    var fifo: Bytes
    var air: seq<Transmission>
    ghost var log: seq<bv8>

    ghost predicate Valid() { regs.Length == REGISTERS }

    ghost function View(): Driver
      reads this, regs
      requires Valid()
    {
      Driver(regs[..], polarity, vconn, pullUp, rx, thresholds, log)
    }

    /** The state every call of an initialised driver keeps. */
    ghost predicate Ready()
      reads this, regs
    {
      Valid() && Coherent(View()) && LogSafe(View())
    }

    /** A chip with power-on register contents and a driver that has not been initialised. */
    constructor (powerOn: Registers)
      ensures Valid() && fresh(regs) && regs[..] == powerOn && Fresh(View())
      ensures fifo == [] && air == []
    {
      regs := new bv8[REGISTERS](i requires 0 <= i < REGISTERS => powerOn[i]);
      polarity, vconn, pullUp, rx, thresholds := 0, false, false, false, Thresholds(0, 0);
      fifo, air, log := [], [], [];
      new;
      assert regs[..] == powerOn;
    }

    /** tcpc_write of a value that transmits nothing. */
    method WriteReg(reg: nat, value: bv8)
      requires Valid() && reg < REGISTERS && Triggers(regs[..], reg, value) == []
      modifies regs, this`log
      ensures View() == Write(old(View()), reg, value)
    {
      regs[reg] := value;
      if reg == SWITCHES0 {
        log := log + [value];
      }
    }

    /** tcpc_write of a value that may start a signal. */
    method WriteCommand(reg: nat, value: bv8)
      requires Valid() && (reg == CONTROL0 || reg == CONTROL3)
      modifies regs, this`air
      ensures View() == Write(old(View()), reg, value)
      ensures var t := Triggers(old(regs[..]), reg, value);
              air == if t == [] then old(air) else old(air) + [Signaled(t[0])]
    {
      var t := Triggers(regs[..], reg, value);
      if t != [] {
        air := air + [Signaled(t[0])];
      }
      regs[reg] := value;
    }

    method SetPolarity(line: int)
      requires Valid()
      modifies regs, this`log, this`polarity
      ensures View() == Fusb302Registers.SetPolarity(old(View()), line)
    {
      var reg := regs[SWITCHES0];
      reg := Without(reg, VCONN_CC1 | VCONN_CC2 | MEAS_CC1 | MEAS_CC2);
      if vconn {
        reg := With(reg, if line != 0 then VCONN_CC1 else VCONN_CC2);
      }
      reg := With(reg, if line != 0 then MEAS_CC2 else MEAS_CC1);
      WriteReg(SWITCHES0, reg);
      reg := regs[SWITCHES1];
      reg := Without(reg, TXCC1 | TXCC2);
      reg := With(reg, if line != 0 then TXCC2 else TXCC1);
      WriteReg(SWITCHES1, reg);
      polarity := line;
    }

    method SetVconn(on: bool)
      requires Valid()
      modifies regs, this`log, this`polarity, this`vconn
      ensures View() == Fusb302Registers.SetVconn(old(View()), on)
    {
      vconn := on;
      if on {
        SetPolarity(polarity);
      } else {
        WriteReg(SWITCHES0, Without(regs[SWITCHES0], VCONN_CC1 | VCONN_CC2));
      }
    }

    method SetMsgHeader(role: Role, dataRole: DataRole)
      requires Valid()
      modifies regs, this`log
      ensures View() == Fusb302Registers.SetMsgHeader(old(View()), role, dataRole)
    {
      var reg := Without(regs[SWITCHES1], POWERROLE | DATAROLE);
      if role.Source? {
        reg := With(reg, POWERROLE);
      }
      if dataRole.Dfp? {
        reg := With(reg, DATAROLE);
      }
      WriteReg(SWITCHES1, reg);
    }

    /** False: the pull is not supported. */
    method SetCc(pull: CcPull) returns (ok: bool)
      requires Valid()
      modifies regs, this`log, this`pullUp
      ensures View() == Fusb302Registers.SetCc(old(View()), pull) && ok == !pull.PullRa?
    {
      match pull
      case PullRp =>
        var reg := Without(regs[SWITCHES0], CC1_PU | CC2_PU | CC1_PD | CC2_PD | VCONN_CC1 | VCONN_CC2);
        reg := With(reg, CC1_PU | CC2_PU);
        if vconn {
          reg := With(reg, if polarity != 0 then VCONN_CC1 else VCONN_CC2);
        }
        WriteReg(SWITCHES0, reg);
        pullUp := true;
        ok := true;
      case PullRd =>
        WriteReg(CONTROL2, Without(regs[CONTROL2], TOGGLE));
        WriteReg(SWITCHES0, With(Without(regs[SWITCHES0], CC1_PU | CC2_PU), CC1_PD | CC2_PD));
        pullUp := false;
        ok := true;
      case PullOpen =>
        WriteReg(CONTROL2, Without(regs[CONTROL2], TOGGLE));
        WriteReg(SWITCHES0, Without(regs[SWITCHES0], CC1_PU | CC2_PU | CC1_PD | CC2_PD));
        pullUp := false;
        ok := true;
      case PullRa =>
        ok := false;
    }

    method AutoGoodCrcEnable(on: bool)
      requires Valid()
      modifies regs, this`log
      ensures View() == AutoGoodCrc(old(View()), on)
    {
      var reg := regs[SWITCHES1];
      reg := if on then With(reg, AUTO_GCRC) else Without(reg, AUTO_GCRC);
      WriteReg(SWITCHES1, reg);
    }

    /** Enabling flushes the receive FIFO. */
    method SetRxEnable(on: bool) returns (ok: bool)
      requires Valid()
      modifies regs, this`log, this`rx, this`fifo
      ensures (View(), ok) == Fusb302Registers.SetRxEnable(old(View()), on)
      ensures fifo == if on && ok then [] else old(fifo)
    {
      rx := on;
      var reg := Without(regs[SWITCHES0], MEAS_CC1 | MEAS_CC2);
      if on {
        if polarity == 0 {
          reg := With(reg, MEAS_CC1);
        } else if polarity == 1 {
          reg := With(reg, MEAS_CC2);
        } else {
          return false;
        }
        WriteReg(SWITCHES0, reg);
        WriteReg(MASK, With(regs[MASK], BC_LVL));
        WriteReg(CONTROL1, RX_FLUSH);
        fifo := [];
      } else {
        WriteReg(SWITCHES0, reg);
        WriteReg(MASK, Without(regs[MASK], BC_LVL));
      }
      AutoGoodCrcEnable(on);
      ok := true;
    }

    method SelectRpValue(rp: RpValue)
      requires Valid() && Idle(View())
      modifies regs, this`log, this`thresholds
      ensures View() == SelectRp(old(View()), rp)
    {
      var reg := With(Without(regs[CONTROL0], HOST_CUR), HostCurrent(rp));
      thresholds := ThresholdsOf(rp);
      WriteReg(CONTROL0, reg);
    }

    method ConfigureInterrupts()
      requires Valid() && Idle(View()) && !Has(regs[CONTROL3], SEND_HARDRESET)
      modifies regs, this`log
      ensures View() == Configure(old(View()))
    {
      WriteReg(CONTROL3, With(regs[CONTROL3], AUTO_RETRY | RETRIES));
      WriteReg(MASK, MASK_BITS);
      WriteReg(MASKA, MASKA_BITS);
      WriteReg(MASKB, MASKB_BITS);
      WriteReg(CONTROL0, Without(regs[CONTROL0], INT_MASK));
    }

    /** The software reset, which leaves the registers as `boot`. */
    method Restart(boot: Registers)
      requires Valid()
      modifies this`polarity, this`thresholds, regs
      ensures View() == old(View()).(polarity := -1, thresholds := ThresholdsOf(RpUsb), regs := boot)
    {
      polarity := -1;
      thresholds := ThresholdsOf(RpUsb);
      forall i | 0 <= i < REGISTERS {
        regs[i] := boot[i];
      }
      assert regs[..] == boot;
    }

    /** A software reset leaves BIST mode and the hard reset bit off. */
    method Init(boot: Registers)
      requires Valid() && boot[CONTROL1] == 0 && !Has(boot[CONTROL3], SEND_HARDRESET)
      modifies this`polarity, this`vconn, this`thresholds, this`log, regs
      ensures View() == Fusb302Registers.Init(old(View()), boot)
    {
      Restart(boot);
      ConfigureInterrupts();
      SetPolarity(0);
      SetVconn(false);
      AutoGoodCrcEnable(false);
      WriteReg(POWER, POWER_ALL);
    }

    /** The comparator bit of STATUS0, for lines of the given voltages. */
    method ReadComparator(v: Volts) returns (above: bool)
      requires Valid()
      ensures above <==> Comparator(regs[..], v)
    {
      above := Sensed(regs[SWITCHES0], v) > Threshold(regs[MEASURE]);
    }

    /** The level bits of STATUS0. */
    method ReadLevel(v: Volts) returns (level: bv2)
      requires Valid()
      ensures level == BcLevel(regs[..], v)
    {
      var mv := Sensed(regs[SWITCHES0], v);
      level := if mv < 200 then 0 else if mv < 660 then 1 else if mv < 1230 then 2 else 3;
    }

    /** Connects one line for a measurement, with its pull-up. */
    method ConnectPin(meas: bv8)
      requires Valid() && (meas == MEAS_CC1 || meas == MEAS_CC2)
      modifies regs, this`log
      ensures var saved := old(regs[SWITCHES0]);
              var up := if meas == MEAS_CC1 then CC1_PU else CC2_PU;
              View() == Write(old(View()), SWITCHES0,
                              With(With(Without(saved, MEAS_CC1 | MEAS_CC2), up), meas))
      ensures Has(regs[SWITCHES0], MEAS_CC1) <==> meas == MEAS_CC1
    {
      var reg := regs[SWITCHES0];
      reg := Without(reg, MEAS_CC1 | MEAS_CC2);
      reg := With(reg, if meas == MEAS_CC1 then CC1_PU else CC2_PU);
      reg := With(reg, meas);
      WriteReg(SWITCHES0, reg);
    }

    method MeasurePinSource(meas: bv8, v: Volts) returns (level: Cc)
      requires Valid() && (meas == MEAS_CC1 || meas == MEAS_CC2)
      modifies regs, this`log
      ensures var mv := if meas == MEAS_CC1 then v.cc1 else v.cc2;
              && View() == MeasureSource(old(View()), meas, mv > Threshold(thresholds.vnc))
              && SourceReads(thresholds, mv, level)
    {
      var saved := regs[SWITCHES0];
      ConnectPin(meas);
      WriteReg(MEASURE, thresholds.vnc);
      var above := ReadComparator(v);
      level := Open;
      if !above {
        WriteReg(MEASURE, thresholds.rd);
        above := ReadComparator(v);
        level := if above then RdPulled else Ra;
      }
      WriteReg(SWITCHES0, saved);
    }

    method DetectPinSink(v: Volts) returns (cc1: Cc, cc2: Cc)
      requires Valid()
      modifies regs, this`log
      ensures View() == MeasureSink(old(View())) && SinkReads(v.cc1, cc1) && SinkReads(v.cc2, cc2)
    {
      var reg := regs[SWITCHES0];
      var one, two := Has(reg, MEAS_CC1), Has(reg, MEAS_CC2);
      WriteReg(SWITCHES0, With(Without(reg, MEAS_CC2), MEAS_CC1));
      var level := ReadLevel(v);
      SinkLevelReads(regs[..], v);
      cc1 := SinkLevel(level);
      WriteReg(SWITCHES0, With(Without(regs[SWITCHES0], MEAS_CC1), MEAS_CC2));
      level := ReadLevel(v);
      SinkLevelReads(regs[..], v);
      cc2 := SinkLevel(level);
      reg := regs[SWITCHES0];
      reg := if one then With(reg, MEAS_CC1) else Without(reg, MEAS_CC1);
      reg := if two then With(reg, MEAS_CC2) else Without(reg, MEAS_CC2);
      WriteReg(SWITCHES0, reg);
    }

    method MeasureBothPins(v: Volts) returns (cc1: Cc, cc2: Cc)
      requires Valid() && pullUp && !vconn
      modifies regs, this`log
      ensures View() == Measured(old(View()), v)
      ensures SourceReads(thresholds, v.cc1, cc1) && SourceReads(thresholds, v.cc2, cc2)
    {
      ghost var before := View();
      cc1 := MeasurePinSource(MEAS_CC1, v);
      assert View() == MeasureSource(before, MEAS_CC1, v.cc1 > Threshold(thresholds.vnc));
      cc2 := MeasurePinSource(MEAS_CC2, v);
    }

    method DetectPinSource(v: Volts, old1: Cc, old2: Cc) returns (cc1: Cc, cc2: Cc)
      requires Valid() && pullUp
      modifies regs, this`log
      ensures View() == Measured(old(View()), v) && ReadsLines(old(View()), v, old1, old2, cc1, cc2)
    {
      cc1, cc2 := old1, old2;
      if !vconn {
        cc1, cc2 := MeasureBothPins(v);
      } else if polarity != 0 {
        cc2 := MeasurePinSource(MEAS_CC2, v);
      } else {
        cc1 := MeasurePinSource(MEAS_CC1, v);
      }
    }

    /** `old1` and `old2` are what the caller's variables held. */
    method GetCc(v: Volts, old1: Cc, old2: Cc) returns (cc1: Cc, cc2: Cc)
      requires Valid()
      modifies regs, this`log
      ensures View() == Measured(old(View()), v) && ReadsLines(old(View()), v, old1, old2, cc1, cc2)
    {
      if pullUp {
        cc1, cc2 := DetectPinSource(v, old1, old2);
      } else {
        cc1, cc2 := DetectPinSink(v);
      }
    }

    /** The receiving half of tcpc_xfer: reads the front of the FIFO into the buffer. */
    method ReadFifo(buf: array<Byte>, n: nat)
      requires n <= buf.Length
      modifies buf, this`fifo
      ensures buf[..n] == Burst(old(fifo), n) && fifo == Remaining(old(fifo), n)
    {
      var i := 0;
      while i < n
        invariant 0 <= i <= n
        invariant buf[..i] == Burst(old(fifo), i) && fifo == Remaining(old(fifo), i)
      {
        if fifo == [] {
          buf[i] := 0;
        } else {
          buf[i] := fifo[0];
          fifo := fifo[1..];
        }
        i := i + 1;
      }
    }

    /** One round of the loop of get_message. The buffer of 32 bytes is large enough for
        whatever header turns up. */
    method ReadPacket(buf: array<Byte>) returns (head: Half, len: nat)
      requires buf.Length == 32
      modifies buf, this`fifo
      ensures len <= 28
      ensures (head, buf[..len], fifo) == NextPacket(old(fifo))
    {
      ReadFifo(buf, 3);
      assert buf[1] == buf[..3][1] && buf[2] == buf[..3][2];
      head := HeaderAt(buf[1], buf[2]);
      len := Length(head) - 2;
      ReadFifo(buf, len + CRC_BYTES);
      assert buf[..len] == buf[..len + CRC_BYTES][..len];
    }

    /** Drains the FIFO up to and including the first packet that is not a GoodCRC. */
    method GetMessage() returns (r: Option<Message>)
      requires Valid()
      modifies this`fifo
      ensures (r, fifo) == Fusb302Fifo.GetMessage(old(fifo))
    {
      if fifo == [] {
        return None;
      }
      var buf := new Byte[32];
      var head, len := ReadPacket(buf);
      while IsGoodCrc(head) && fifo != []
        invariant len <= 28
        invariant Fusb302Fifo.GetMessage(old(fifo)) ==
                  if IsGoodCrc(head) then Fusb302Fifo.GetMessage(fifo)
                  else (Some(Message(head, Words(buf[..len]))), fifo)
        decreases |fifo|
      {
        head, len := ReadPacket(buf);
      }
      r := if IsGoodCrc(head) then None else Some(Message(head, Words(buf[..len])));
    }

    /** memcpy of the words into the buffer. */
    static method CopyPayload(buf: array<Byte>, start: nat, words: seq<Word>)
      requires start + 4 * |words| <= buf.Length
      modifies buf
      ensures buf[..start + 4 * |words|] == old(buf[..start]) + Payload(words)
    {
      var i := 0;
      while i < 4 * |words|
        invariant 0 <= i <= 4 * |words|
        invariant buf[..start + i] == old(buf[..start]) + Payload(words)[..i]
      {
        buf[start + i] := ByteOf(words, i);
        i := i + 1;
      }
    }

    /** fusb302_tcpm_send_message: completes the frame in the buffer and hands it over. */
    method SendMessage(m: Message, buf: array<Byte>, start: nat)
      requires Valid() && m.Valid() && start + 7 + 4 * HeaderCnt(m.header) <= buf.Length
      modifies buf, this`air
      ensures air == old(air) + [Sent(old(buf[..start]) + FrameBytes(m)[5..])]
    {
      var pos := start;
      var len := Length(m.header);
      buf[pos], buf[pos + 1], buf[pos + 2] := PACKSYM + len % 0x20, m.header % 0x100, m.header / 0x100;
      pos := pos + 3;
      len := len - 2;
      ghost var front := buf[..pos];
      assert front == old(buf[..start]) + [PACKSYM + Length(m.header) % 0x20, m.header % 0x100, m.header / 0x100];
      CopyPayload(buf, pos, m.data);
      pos := pos + len;
      ghost var body := buf[..pos];
      buf[pos], buf[pos + 1], buf[pos + 2], buf[pos + 3] := JAMCRC, EOP, TXOFF, TXON;
      pos := pos + 4;
      assert buf[..pos] == body + [JAMCRC, EOP, TXOFF, TXON];
      FrameTail(m, old(buf[..start]), front);
      air := air + [Sent(buf[..pos])];
    }

    /** fusb302_tcpm_transmit of a message. */
    method TransmitSop(m: Message)
      requires Valid() && m.Valid() && Idle(View())
      modifies regs, this`log, this`air
      ensures View() == Transmit(old(View()), TxSop) && air == old(air) + [Sent(FrameBytes(m))]
    {
      var buf := new Byte[40];
      WriteReg(CONTROL0, With(regs[CONTROL0], TX_FLUSH));
      buf[0], buf[1], buf[2], buf[3], buf[4] := FIFOS, SYNC1, SYNC1, SYNC1, SYNC2;
      assert buf[..5] == FrameBytes(m)[..5];
      assert FrameBytes(m)[..5] + FrameBytes(m)[5..] == FrameBytes(m);
      SendMessage(m, buf, 5);
    }

    /** fusb302_tcpm_transmit of a signal: exactly this one goes out. */
    method TransmitSignal(kind: TxKind)
      requires Valid() && !kind.TxSop? && Idle(View())
      modifies regs, this`log, this`air
      ensures View() == Transmit(old(View()), kind) && air == old(air) + [Signaled(kind)]
    {
      WriteReg(CONTROL0, With(regs[CONTROL0], TX_FLUSH));
      if kind.TxHardReset? {
        WriteCommand(CONTROL3, With(regs[CONTROL3], SEND_HARDRESET));
      } else {
        WriteReg(CONTROL1, With(regs[CONTROL1], BIST_MODE2));
        WriteCommand(CONTROL0, With(regs[CONTROL0], TX_START));
        WriteReg(CONTROL1, Without(regs[CONTROL1], BIST_MODE2));
      }
    }
  }
}
