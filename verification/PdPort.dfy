/** The port as usb_pd_protocol.cpp keeps it: one object whose state every handler changes
    step by step, together with the chip and the stored capabilities. Each method is
    proved to do exactly what the corresponding function of PortMachine does to the state,
    and to keep the chip coherent with it. */
module PdPortObject {
  import opened PdWords
  import opened PowerPolicy
  import opened PortState
  import opened PortMachine
  import opened PortRuns
  import opened PortSafety
  import opened PortPower
  import opened PortGuarantees
  import opened PortAnswers
  import opened PortAttach
  import opened Fusb302Registers
  import Fusb302Fifo
  import opened Fusb302Chip

  /** What carries a frame: the bytes of an encoded message, or a signal. */
  function Carried(f: Frame): Transmission {
    match f
    case Sop(k) => Sent(Fusb302Fifo.FrameBytes(k.Encode()))
    case HardResetSignal => Signaled(TxHardReset)
    case BistCarrier => Signaled(TxBistMode2)
  }

  /** All frames of a pass, as they go out, oldest first. */
  function OnAir(f: Frames): seq<Transmission> {
    if f.NoFrames? then [] else OnAir(f.earlier) + [Carried(f.latest)]
  }

  /** The step from `p` to `q` keeps the invariant of all runs, and keeps the rules of the
      power path exactly if it is harmless. */
  predicate Kept(p: Port, q: Port, harmless: bool) {
    (Safe(p) ==> Safe(q)) && (Ruled(p) ==> (Ruled(q) <==> harmless))
  }

  lemma AlertKeepsBoth(p: Port, n: Interrupts, t: nat)
    ensures Kept(p, Alerted(p, n, t), true)
  {
    if Safe(p) {
      AlertKeeps(p, n, t);
    }
    if Ruled(p) {
      AlertRules(p, n, t);
    }
  }

  lemma CallKeeps(p: Port, e: Event)
    requires Legible(e) && !e.Poll? && !e.HardResetReceived?
    ensures Kept(p, After(p, e), !Harmful(p, e))
  {
    if Safe(p) {
      AfterKeeps(p, e);
    }
    if Ruled(p) {
      CallRules(p, e);
    }
  }

  lemma SwapCallsKept(p: Port)
    ensures Kept(p, RequestPowerSwap(p), true) && Kept(p, RequestDataSwap(p), true)
  {
    CallKeeps(p, AskPowerSwap);
    CallKeeps(p, AskDataSwap);
  }

  lemma SoftResetKept(p: Port)
    ensures Kept(p, RequestSoftReset(p), !SwapWindow(p))
  {
    CallKeeps(p, AskSoftReset);
  }

  lemma VoltageKept(p: Port)
    ensures Kept(p, RequestNewPower(p), true) && Kept(p, RequestSourceVoltage(p), !Harmful(p, AskSourceVoltage))
  {
    CallKeeps(p, AskNewPower);
    CallKeeps(p, AskSourceVoltage);
  }

  lemma ContractUpdateKept(p: Port)
    ensures Kept(p, UpdateContract(p), true)
  {
    CallKeeps(p, AskContractUpdate);
  }

  lemma PingKept(p: Port, on: bool)
    ensures Kept(p, EnablePing(p, on), true)
  {
    CallKeeps(p, AskPing(on));
  }

  lemma VdmKept(p: Port, vid: nat, cmd: nat, data: seq<Word>)
    ensures Kept(p, SendVdm(p, vid, cmd, data), true)
  {
    CallKeeps(p, AskVdm(vid, cmd, data));
  }

  /** What a pass with input `i` keeps. */
  predicate PassKept(p: Port, q: Port, i: Input)
    requires Readable(i)
  {
    Safe(p) && Timely(p.history.now, i.clock) ==> Safe(q) && (Ruled(p) && !Harmful(p, Poll(i)) ==> Ruled(q))
  }

  lemma PassKeepsBoth(p: Port, i: Input)
    requires Readable(i)
    ensures PassKept(p, Pass(p, i), i)
  {
    if Safe(p) && Timely(p.history.now, i.clock) {
      PassKeeps(p, i);
      if Ruled(p) && !Harmful(p, Poll(i)) {
        PassRules(p, i);
      }
    }
  }

  /** The step ends a debounce: the receiver is switched on. */
  predicate Attaching(p: Port, q: Port) {
    || (p.state == SrcDisconnectedDebounce && q.state == SrcStartup)
    || (p.state == SnkDisconnectedDebounce && q.state == SnkDiscovery)
  }

  class PdPort {
    const chip: Fusb302
    const policy: Policy
    /** The entry of the array of struct pd_protocol, with the file-level statics. */
    var pd: Port
    /** What the chip had transmitted when the pass began, and what it has received that has
        not been read. */
    ghost var earlier: seq<Transmission>
    ghost var waiting: Fusb302Fifo.Bytes

    /** The chip drives and receives what the port believes it does, on the line it believes
        in and with the roles it was given last; what the chip has transmitted in this pass
        is the frames the pass has sent, and only the methods that say so read or drop what it
        has received; and the port's copy of the partner's capabilities is the policy's
        table. */
    ghost predicate Valid()
      reads this, chip, chip.regs, policy, policy.caps
    {
      && chip.Ready() && policy.Valid() && pd.caps == policy.Table()
      && chip.rx == pd.outputs.rx && !chip.vconn && Presents(chip.View(), pd.outputs.pull.Rp?)
      && chip.polarity == (if pd.polarity then 1 else 0)
      && Tuned(chip.View(), pd.outputs.headRole, pd.outputs.headDataRole)
      && chip.air == earlier + OnAir(pd.sent) && chip.fifo == waiting
    }

    /** Valid, in a state that satisfies the invariant of all runs. */
    ghost predicate Sound()
      reads this, chip, chip.regs, policy, policy.caps
    {
      Valid() && Safe(pd)
    }

    /** pd_init, with a chip fresh from power-on that a software reset sets to `boot`. */
    constructor (powerOn: Registers, boot: Registers, srcPdos: Objects, snkPdos: Objects)
      requires SoftwareReset(boot)
      ensures Valid() && fresh(chip) && fresh(chip.regs) && fresh(policy) && fresh(policy.caps)
      ensures Initial(pd) && Sound() && Ruled(pd) && pd.srcPdos == srcPdos && pd.snkPdos == snkPdos
    {
      chip := new Fusb302(powerOn);
      policy := new Policy();
      pd := Port(Sink, Ufp, 0, false, Disabled, Disabled, NO_TIMER, NO_FLAGS, 0, CcTrack(CcNone, 0), TxSuccess, 0,
                 SinkRequest(Power(0, 0), false, 0), Vdm(VdmDone, 0, [0], 0),
                 Counters(0, 0, false, 0, T_DRP_SNK, false), [0, 0, 0, 0, 0, 0, 0], srcPdos, snkPdos,
                 Outputs(Rd, false, false, 0, Power(0, 0), Sink, Ufp), NoFrames,
                 History(0, 0, 0, Switch(0, 0, 0), 0, Steady(CcNone, 0)));
      earlier, waiting := [], [];
      new;
      assert !Has(boot[SWITCHES0], CC1_PU | CC2_PU);
      InitKeeps(chip.View(), boot);
      InitTunes(chip.View(), boot);
      chip.Init(boot);
      DisableRx();
      SetState(SnkDisconnected);
      SelectRpKeeps(chip.View(), RpUsb);
      SelectRpStaysTuned(chip.View(), RpUsb, pd.outputs.headRole, pd.outputs.headDataRole);
      chip.SelectRpValue(RpUsb);
      SetCc(Rd);
      InitialIsSafe(pd);
      InitialIsRuled(pd);
    }

    // ---- Elementary operations ----

    method SetStateTimeout(at: nat, next: State)
      requires Valid()
      modifies `pd
      ensures Valid() && pd == SetTimer(old(pd), at, next)
    {
      pd := pd.(timer := Timer(at, next));
    }

    method SetCc(pull: Pull)
      requires Valid()
      modifies `pd, chip, chip.regs
      ensures Valid() && pd == SetPull(old(pd), pull) && chip.fifo == old(chip.fifo)
    {
      SetCcKeeps(chip.View(), if pull.Rp? then PullRp else PullRd);
      SetCcStaysTuned(chip.View(), if pull.Rp? then PullRp else PullRd, pd.outputs.headRole, pd.outputs.headDataRole);
      var _ := chip.SetCc(if pull.Rp? then PullRp else PullRd);
      pd := pd.(outputs := pd.outputs.(pull := pull));
    }

    method DisableRx()
      requires Valid()
      modifies `pd, chip, chip.regs
      ensures Valid() && pd == SetRx(old(pd), false) && chip.fifo == old(chip.fifo)
    {
      SetRxEnableKeeps(chip.View(), false);
      SetRxEnableStaysTuned(chip.View(), false, pd.outputs.headRole, pd.outputs.headDataRole);
      var _ := chip.SetRxEnable(false);
      pd := pd.(outputs := pd.outputs.(rx := false));
    }

    /** Enabling drops what was received before. */
    method EnableRx()
      requires Valid()
      modifies `pd, `waiting, chip, chip.regs
      ensures Valid() && pd == SetRx(old(pd), true) && waiting == []
    {
      SetRxEnableKeeps(chip.View(), true);
      SetRxEnableStaysTuned(chip.View(), true, pd.outputs.headRole, pd.outputs.headDataRole);
      var _ := chip.SetRxEnable(true);
      waiting := [];
      pd := pd.(outputs := pd.outputs.(rx := true));
    }

    method PowerSupplyReset()
      requires Valid()
      modifies `pd
      ensures Valid() && pd == SupplyOff(old(pd))
    {
      pd := pd.(outputs := pd.outputs.(vbusOn := false));
    }

    method PowerSupplyReady()
      requires Valid()
      modifies `pd
      ensures Valid() && pd == SupplyOn(old(pd))
    {
      pd := pd.(outputs := pd.outputs.(vbusOn := true));
    }

    method SetInputCurrentLimit(power: Power)
      requires Valid()
      modifies `pd
      ensures Valid() && pd == SetLimit(old(pd), power)
    {
      pd := pd.(outputs := pd.outputs.(limit := power));
    }

    method SetState(next: State)
      requires Valid()
      modifies `pd, chip, chip.regs
      ensures Valid() && pd == PortState.SetState(old(pd), next) && chip.fifo == old(chip.fifo)
    {
      var lastState := pd.state;
      SetStateTimeout(0, Disabled);
      pd := pd.(state := next);
      if lastState == next {
        return;
      }
      if (lastState == SnkDisconnected && next == SrcDisconnected)
         || (lastState == SrcDisconnected && next == SnkDisconnected)
      {
        return;
      }
      if next == SrcDisconnected || next == SnkDisconnected {
        SetInputCurrentLimit(Power(0, 0));
        if pd.role.Source? {
          PowerSupplyReset();
        }
        DisableRx();
      }
    }

    /** The CC line in use, for port and chip. */
    method SetPolarity(second: bool)
      requires Valid()
      modifies `pd, chip, chip.regs
      ensures Valid() && pd == old(pd).(polarity := second) && chip.fifo == old(chip.fifo)
    {
      pd := pd.(polarity := second);
      var line := if pd.polarity then 1 else 0;
      SetPolarityKeeps(chip.View(), line);
      SetPolarityStaysTuned(chip.View(), line, pd.outputs.headRole, pd.outputs.headDataRole);
      chip.SetPolarity(line);
    }

    /** The chip receives and transmits on the second line, or on the first. */
    ghost predicate ListensTo(second: bool)
      reads chip, chip.regs
      requires chip.Valid()
    {
      && (Has(chip.regs[SWITCHES0], MEAS_CC1) <==> !second) && (Has(chip.regs[SWITCHES0], MEAS_CC2) <==> second)
      && (Has(chip.regs[SWITCHES1], TXCC1) <==> !second) && (Has(chip.regs[SWITCHES1], TXCC2) <==> second)
    }

    /** pd_update_roles. */
    method UpdateRoles()
      requires Valid()
      modifies `pd, chip, chip.regs
      ensures Valid() && pd == PortState.UpdateRoles(old(pd)) && chip.fifo == old(chip.fifo)
    {
      SetMsgHeaderKeeps(chip.View(), pd.role, pd.dataRole);
      SetMsgHeaderTunes(chip.View(), pd.role, pd.dataRole);
      chip.SetMsgHeader(pd.role, pd.dataRole);
      pd := pd.(outputs := pd.outputs.(headRole := pd.role, headDataRole := pd.dataRole));
    }

    method SetDataRole(to: DataRole)
      requires Valid()
      modifies `pd, chip, chip.regs
      ensures Valid() && pd == PortState.SetDataRole(old(pd), to) && chip.fifo == old(chip.fifo)
    {
      pd := pd.(dataRole := to);
      UpdateRoles();
    }

    // ---- Transmission ----

    /** The message last sent, roles, counter, objects and all, is the one thing that was
        transmitted after `before`. */
    ghost predicate Wrote(before: seq<Transmission>)
      reads this, chip
    {
      && pd.sent.Add? && pd.sent.latest.Sop?
      && chip.air == before + [Sent(Fusb302Fifo.FrameBytes(pd.sent.latest.packet.Encode()))]
    }

    /** pd_transmit of a message: the result is the status the last alert stored. */
    method TransmitPacket(k: Packet) returns (ok: bool)
      requires Valid()
      modifies `pd, chip, chip.regs
      ensures Valid() && pd == Send(old(pd), Sop(k)) && ok == TxOk(pd) && chip.fifo == old(chip.fifo)
      ensures chip.air == old(chip.air) + [Sent(Fusb302Fifo.FrameBytes(k.Encode()))]
    {
      TransmitKeeps(chip.View(), TxSop);
      TransmitStaysTuned(chip.View(), TxSop, pd.outputs.headRole, pd.outputs.headDataRole);
      chip.TransmitSop(k.Encode());
      pd := pd.(sent := Add(pd.sent, Sop(k)));
      ok := pd.tx.TxSuccess?;
    }

    method TransmitSignal(f: Frame) returns (ok: bool)
      requires Valid() && !f.Sop?
      modifies `pd, chip, chip.regs
      ensures Valid() && pd == Send(old(pd), f) && ok == TxOk(pd) && chip.fifo == old(chip.fifo)
      ensures chip.air == old(chip.air) + [Carried(f)]
    {
      var kind := if f.HardResetSignal? then TxHardReset else TxBistMode2;
      TransmitKeeps(chip.View(), kind);
      TransmitStaysTuned(chip.View(), kind, pd.outputs.headRole, pd.outputs.headDataRole);
      chip.TransmitSignal(kind);
      pd := pd.(sent := Add(pd.sent, f));
      ok := pd.tx.TxSuccess?;
    }

    method SendControl(kind: Kind) returns (ok: bool)
      requires Valid() && (kind == SOFT_RESET ==> pd.msgId == 0)
      modifies `pd, chip, chip.regs
      ensures Valid() && pd == PortState.SendControl(old(pd), kind) && ok == TxOk(pd) && chip.fifo == old(chip.fifo)
      ensures Wrote(old(chip.air))
    {
      ok := TransmitPacket(RawPacket.Packet(kind, pd.role, pd.dataRole, pd.msgId, []));
    }

    method SendData(kind: Kind, data: Objects) returns (ok: bool)
      requires Valid() && data != [] && kind != SOFT_RESET
      modifies `pd, chip, chip.regs
      ensures Valid() && pd == PortState.SendData(old(pd), kind, data) && ok == TxOk(pd) && chip.fifo == old(chip.fifo)
      ensures Wrote(old(chip.air))
    {
      ok := TransmitPacket(RawPacket.Packet(kind, pd.role, pd.dataRole, pd.msgId, data));
    }

    method SendSourceCap() returns (ok: bool)
      requires Valid()
      modifies `pd, chip, chip.regs
      ensures Valid() && pd == PortState.SendSourceCap(old(pd)) && ok == TxOk(pd)
      ensures Wrote(old(chip.air))
    {
      if |pd.srcPdos| == 0 {
        ok := SendControl(REJECT);
      } else {
        ok := SendData(SOURCE_CAP, pd.srcPdos);
      }
    }

    method SendSinkCap() returns (ok: bool)
      requires Valid()
      modifies `pd, chip, chip.regs
      ensures Valid() && pd == PortState.SendSinkCap(old(pd)) && ok == TxOk(pd)
      ensures Wrote(old(chip.air))
    {
      if |pd.snkPdos| == 0 {
        ok := SendControl(SINK_CAP);
      } else {
        ok := SendData(SINK_CAP, pd.snkPdos);
      }
    }

    // ---- Alerts and resets ----

    /** pd_transmit_complete. */
    method TransmitComplete(status: TxStatus)
      requires Valid()
      modifies `pd
      ensures Valid() && pd == PortMachine.TransmitComplete(old(pd), status)
    {
      if status.TxSuccess? {
        pd := pd.(msgId := (pd.msgId + 1) % 8);
      }
      pd := pd.(tx := status);
    }

    /** A reset takes back what the end of a swap has already switched. */
    method LeaveSwap()
      requires Valid()
      modifies `pd, chip, chip.regs
      ensures Valid() && chip.fifo == old(chip.fifo)
      ensures pd == if old(pd).state == SnkSwapStandby || old(pd).state == SnkSwapComplete then
                      SupplyOff(SetPull(old(pd), Rd)) else old(pd)
    {
      if pd.state == SnkSwapStandby || pd.state == SnkSwapComplete {
        SetCc(Rd);
        PowerSupplyReset();
      }
    }

    /** pd_execute_hard_reset. */
    method ExecuteHardReset(t: nat)
      requires Valid()
      modifies `pd, chip, chip.regs
      ensures Valid() && pd == PortMachine.ExecuteHardReset(old(pd), t) && chip.fifo == old(chip.fifo)
    {
      pd := pd.(msgId := 0, last := HardResetExecute);
      LeaveSwap();
      if pd.role.Sink? {
        SetInputCurrentLimit(Power(0, 0));
        SetState(SnkHardResetRecover);
        return;
      }
      PowerSupplyReset();
      pd := pd.(srcRecover := t + T_SRC_RECOVER);
      SetState(SrcHardResetRecover);
    }

    method ExecuteSoftReset()
      requires Valid()
      modifies `pd, chip, chip.regs
      ensures Valid() && pd == PortMachine.ExecuteSoftReset(old(pd))
    {
      pd := pd.(msgId := 0);
      SetState(if pd.role.Sink? then SnkDiscovery else SrcDiscovery);
    }

    // ---- Requests of the application ----

    method StartPowerSwap()
      requires Valid()
      modifies `pd, chip, chip.regs
      ensures Valid() && pd == PortMachine.RequestPowerSwap(old(pd)) && pd.flags == old(pd).flags
    {
      if pd.state == SrcReady {
        SetState(SrcSwapInit);
      } else if pd.state == SnkReady {
        SetState(SnkSwapInit);
      }
    }

    method StartDataSwap()
      requires Valid()
      modifies `pd, chip, chip.regs
      ensures Valid() && pd == PortMachine.RequestDataSwap(old(pd))
    {
      if pd.state == ReadyState(pd) {
        SetState(DrSwap);
      }
    }

    /** pd_request_power_swap. */
    method RequestPowerSwap()
      requires Valid()
      modifies `pd, chip, chip.regs
      ensures Valid() && pd == PortMachine.RequestPowerSwap(old(pd)) && Kept(old(pd), pd, true)
    {
      SwapCallsKept(pd);
      StartPowerSwap();
    }

    /** pd_request_data_swap. */
    method RequestDataSwap()
      requires Valid()
      modifies `pd, chip, chip.regs
      ensures Valid() && pd == PortMachine.RequestDataSwap(old(pd)) && Kept(old(pd), pd, true)
    {
      SwapCallsKept(pd);
      StartDataSwap();
    }

    /** pd_soft_reset. */
    method RequestSoftReset()
      requires Valid()
      modifies `pd, chip, chip.regs
      ensures Valid() && pd == PortMachine.RequestSoftReset(old(pd))
      ensures Kept(old(pd), pd, !old(SwapWindow(pd)))
    {
      SoftResetKept(pd);
      if Connected(pd) {
        SetState(SoftReset);
      }
    }

    method BecomeSink()
      requires Valid()
      modifies `pd, chip, chip.regs
      ensures Valid() && pd == PortState.SetState(SetPull(old(pd).(role := Sink), Rd), SnkDisconnected)
    {
      pd := pd.(role := Sink);
      SetCc(Rd);
      SetState(SnkDisconnected);
    }

    method RequestSourceVoltage(mv: nat)
      requires Valid()
      modifies `pd, chip, chip.regs, policy
      ensures Valid() && pd == PortMachine.RequestSourceVoltage(old(pd)) && policy.maxRequestMv == mv
      ensures Kept(old(pd), pd, !Harmful(old(pd), AskSourceVoltage))
    {
      VoltageKept(pd);
      policy.SetMaxVoltage(mv);
      if pd.state == SnkReady || pd.state == SnkTransition {
        pd := pd.(request := pd.request.(pending := true));
      } else {
        BecomeSink();
      }
    }

    /** pd_set_new_power_request. */
    method RequestNewPower()
      requires Valid()
      modifies `pd
      ensures Valid() && pd == PortMachine.RequestNewPower(old(pd))
      ensures Kept(old(pd), pd, true)
    {
      VoltageKept(pd);
      pd := pd.(request := pd.request.(pending := true));
    }

    /** pd_ping_enable. */
    method EnablePing(on: bool)
      requires Valid()
      modifies `pd
      ensures Valid() && pd == PortMachine.EnablePing(old(pd), on)
      ensures Kept(old(pd), pd, true)
    {
      PingKept(pd, on);
      pd := pd.(flags := pd.flags.(pingEnabled := on));
    }

    method UpdateContract()
      requires Valid()
      modifies `pd
      ensures Valid() && pd == PortMachine.UpdateContract(old(pd)) && Kept(old(pd), pd, true)
    {
      ContractUpdateKept(pd);
      if SrcNegociate <= pd.state <= SrcGetSinkCap {
        pd := pd.(flags := pd.flags.(updateSrcCaps := true));
      }
    }

    // ---- Vendor-defined messages ----

    method SendVdm(vid: nat, cmd: nat, data: seq<Word>)
      requires Valid()
      modifies `pd
      ensures Valid() && pd == PortMachine.SendVdm(old(pd), vid, cmd, data)
      ensures Kept(old(pd), pd, true)
    {
      VdmKept(pd, vid, cmd, data);
      if |data| > 6 {
        return;
      }
      pd := pd.(vdm := pd.vdm.(data := [VdmHeader(vid, cmd)] + data));
      pd := pd.(vdm := pd.vdm.(state := VdmReady));
    }

    method HandleVdmRequest(w: Word, t: nat)
      requires Valid()
      modifies `pd
      ensures Valid() && pd == HandleVdm(old(pd), w, t)
    {
      if pd.vdm.state.VdmBusy? {
        if VdoCommandType(w) == 3 {
          pd := pd.(vdm := pd.vdm.(state := VdmWaitRspBusy, timeout := t + T_VDM_BUSY));
          pd := pd.(vdm := pd.vdm.(retry := w - VdoCommandType(w) * 0x40));
        } else {
          pd := pd.(vdm := pd.vdm.(state := VdmDone));
        }
      }
    }

    /** Hands the queued message over; the port is ready and connected. */
    method TransmitVdm(t: nat)
      requires Valid() && pd.vdm.state.VdmReady? && Connected(pd) && (pd.state == SrcReady || pd.state == SnkReady)
      modifies `pd, chip, chip.regs
      ensures Valid() && pd == VdmPhase(old(pd), t) && chip.fifo == old(chip.fifo)
    {
      var ok := SendData(VENDOR_DEF, pd.vdm.data);
      if ok {
        pd := pd.(vdm := pd.vdm.(state := VdmBusy, timeout := t + VdmReadyTimeout(pd.vdm.data[0])));
      } else {
        pd := pd.(vdm := pd.vdm.(state := VdmErrSend));
      }
    }

    /** The part of the VDM state machine for a queued message. */
    method SendQueuedVdm(t: nat)
      requires Valid() && pd.vdm.state.VdmReady?
      modifies `pd, chip, chip.regs
      ensures Valid() && pd == VdmPhase(old(pd), t) && chip.fifo == old(chip.fifo)
    {
      if !Connected(pd) {
        pd := pd.(vdm := pd.vdm.(state := VdmErrBusy));
      } else if pd.state == SrcReady || pd.state == SnkReady {
        TransmitVdm(t);
      }
    }

    method VdmSendStateMachine(t: nat)
      requires Valid()
      modifies `pd, chip, chip.regs
      ensures Valid() && pd == VdmPhase(old(pd), t) && chip.fifo == old(chip.fifo)
    {
      if pd.vdm.state.VdmReady? {
        SendQueuedVdm(t);
      } else if pd.vdm.state.VdmWaitRspBusy? {
        if t > pd.vdm.timeout {
          pd := pd.(vdm := pd.vdm.(state := VdmReady, data := [pd.vdm.retry]));
        }
      } else if pd.vdm.state.VdmBusy? {
        if pd.vdm.timeout != 0 && t > pd.vdm.timeout {
          pd := pd.(vdm := pd.vdm.(state := VdmErrTimeout));
        }
      }
    }

    // ---- Received data messages ----

    /** pd_send_request_msg. */
    method SendRequest(always: bool, index: nat) returns (ok: bool)
      requires Valid() && index < MAX_OBJECTS
      modifies `pd, chip, chip.regs
      ensures Valid() && (pd, ok) == PortMachine.SendRequest(old(pd), always, index)
    {
      var (rdo, power) := BuildRequest(pd.caps, index);
      pd := pd.(request := pd.request.(pending := false));
      if !always && pd.request.previousMv == power.mv {
        return true;
      }
      pd := pd.(request := pd.request.(limit := power));
      pd := pd.(request := pd.request.(previousMv := power.mv));
      pd := pd.(history := pd.history.(requestedPos := RdoPos(rdo)));
      ok := SendData(REQUEST, [rdo]);
      if ok {
        SetState(SnkRequested);
      }
    }

    method UpdatePdoFlags(pdo: Word)
      requires Valid()
      modifies `pd
      ensures Valid() && pd == PortMachine.UpdatePdoFlags(old(pd), pdo)
    {
      if !PdoIsFixed(pdo) {
        return;
      }
      var flags := pd.flags.(partnerDrPower := PdoDualRole(pdo));
      flags := flags.(partnerExtPower := PdoExternal(pdo));
      flags := flags.(partnerUsbComm := PdoCommCap(pdo));
      pd := pd.(flags := flags.(partnerDrData := PdoDataSwap(pdo)));
    }

    method ProcessSourceCap(objects: Objects, index: nat)
      requires Valid() && index < MAX_OBJECTS
      modifies `pd, policy, policy.caps
      ensures Valid() && pd == StoreCaps(old(pd), objects, index)
    {
      var power := policy.ProcessSourceCap(objects, index);
      pd := pd.(caps := policy.caps[..]);
      SetInputCurrentLimit(power);
    }

    method HandleSourceCap(objects: Objects, index: nat)
      requires Valid() && |objects| > 0 && index < MAX_OBJECTS
      modifies `pd, chip, chip.regs, policy, policy.caps
      ensures Valid() && pd == OnSourceCap(old(pd), objects, index)
    {
      if pd.state == SnkDiscovery || pd.state == SnkTransition || pd.state == SnkReady {
        pd := pd.(flags := pd.flags.(previousPdConn := true));
        UpdatePdoFlags(objects[0]);
        ProcessSourceCap(objects, index);
        var _ := SendRequest(true, index);
      }
    }

    method HandlePowerRequest(objects: Objects, t: nat)
      requires Valid() && |objects| > 0
      modifies `pd, chip, chip.regs
      ensures Valid() && pd == OnRequest(old(pd), objects, t)
    {
      if pd.role.Source? && |objects| == 1 && RequestGranted(objects[0], pd.srcPdos) {
        var ok := SendControl(ACCEPT);
        if ok {
          pd := pd.(flags := pd.flags.(explicitContract := true));
          pd := pd.(requestedIdx := RdoPos(objects[0]));
          pd := pd.(history := pd.history.(acceptedAt := t, acceptedPos := RdoPos(objects[0])));
          SetState(SrcAccepted);
        }
        return;
      }
      var _ := SendControl(REJECT);
      SetState(SrcReady);
    }

    method HandleBist(w: Word)
      requires Valid()
      modifies `pd, chip, chip.regs
      ensures Valid() && pd == OnBist(old(pd), w)
    {
      if pd.state == ReadyState(pd) && w / 0x1000_0000 == 5 {
        var _ := TransmitSignal(BistCarrier);
        SetState(if pd.role.Sink? then SnkDisconnected else SrcDisconnected);
      }
    }

    method HandleSinkCap(w: Word)
      requires Valid()
      modifies `pd, chip, chip.regs
      ensures Valid() && pd == OnSinkCap(old(pd), w)
    {
      pd := pd.(flags := pd.flags.(snkCapRecvd := true));
      UpdatePdoFlags(w);
      if pd.state == SrcGetSinkCap {
        SetState(SrcReady);
      }
    }

    method HandleDataRequest(kind: nat, objects: Objects, i: Input)
      requires Valid() && |objects| > 0 && Readable(i)
      modifies `pd, chip, chip.regs, policy, policy.caps
      ensures Valid() && pd == HandleData(old(pd), kind, objects, i)
    {
      if kind == SOURCE_CAP {
        HandleSourceCap(objects, i.capIndex);
      } else if kind == REQUEST {
        HandlePowerRequest(objects, i.clock.run);
      } else if kind == BIST {
        HandleBist(objects[0]);
      } else if kind == SINK_CAP {
        HandleSinkCap(objects[0]);
      } else if kind == VENDOR_DEF {
        HandleVdmRequest(objects[0], i.clock.msg);
      }
    }

    // ---- Received control messages ----

    method HandleGetSourceCap()
      requires Valid()
      modifies `pd, chip, chip.regs
      ensures Valid() && pd == OnGetSourceCap(old(pd))
    {
      var ok := SendSourceCap();
      if ok && pd.state == SrcDiscovery {
        SetState(SrcNegociate);
      }
    }

    method HandlePsRdy()
      requires Valid()
      modifies `pd, chip, chip.regs
      ensures Valid() && pd == OnPsRdy(old(pd))
    {
      if pd.state == SnkSwapSrcDisable {
        SetState(SnkSwapStandby);
      } else if pd.state == SrcSwapStandby {
        pd := pd.(msgId := 0);
        pd := pd.(role := Sink);
        UpdateRoles();
        SetState(SnkDiscovery);
      } else if pd.state == SnkDiscovery {
        SetState(HardResetSend);
      } else if pd.state != SnkSwapStandby && pd.role.Sink? {
        SetState(SnkReady);
        SetInputCurrentLimit(pd.request.limit);
      }
    }

    /** Reject or Wait. */
    method HandleRefusal(wait: bool, t: nat)
      requires Valid()
      modifies `pd, chip, chip.regs
      ensures Valid() && pd == OnRefusal(old(pd), wait, t)
    {
      if pd.state == DrSwap {
        SetState(ReadyState(pd));
      } else if pd.state == SrcSwapInit {
        SetState(SrcReady);
      } else if pd.state == SnkSwapInit {
        SetState(SnkReady);
      } else if pd.state == SnkRequested {
        if !pd.flags.explicitContract {
          SetState(SnkDiscovery);
        } else if wait {
          pd := pd.(request := pd.request.(pending := true));
          pd := pd.(request := pd.request.(previousMv := 0));
          SetStateTimeout(t + T_SINK_REQUEST, SnkReady);
        } else {
          SetState(SnkReady);
        }
      }
    }

    /** pd_dr_swap. */
    method SwapDataRole()
      requires Valid()
      modifies `pd, chip, chip.regs
      ensures Valid() && pd == SwapData(old(pd))
    {
      SetDataRole(if pd.dataRole.Dfp? then Ufp else Dfp);
      pd := pd.(flags := pd.flags.(checkIdentity := true));
    }

    method HandleAccept()
      requires Valid()
      modifies `pd, chip, chip.regs
      ensures Valid() && pd == OnAccept(old(pd))
    {
      if pd.state == SoftReset {
        ExecuteSoftReset();
      } else if pd.state == DrSwap {
        SwapDataRole();
        SetState(ReadyState(pd));
      } else if pd.state == SrcSwapInit {
        pd := pd.(flags := pd.flags.(explicitContract := false));
        SetState(SrcSwapSnkDisable);
      } else if pd.state == SnkSwapInit {
        pd := pd.(flags := pd.flags.(explicitContract := false));
        SetState(SnkSwapSnkDisable);
      } else if pd.state == SnkRequested {
        pd := pd.(flags := pd.flags.(explicitContract := true));
        SetState(SnkTransition);
      }
    }

    method HandlePrSwap(allowed: bool)
      requires Valid()
      modifies `pd, chip, chip.regs
      ensures Valid() && pd == OnPrSwap(old(pd), allowed)
    {
      if !allowed {
        var _ := SendControl(REJECT);
        return;
      }
      var _ := SendControl(ACCEPT);
      pd := pd.(flags := pd.flags.(checkPrRole := false));
      SetState(if pd.role.Sink? then SnkSwapSnkDisable else SrcSwapSnkDisable);
    }

    method HandleDrSwap(allowed: bool)
      requires Valid()
      modifies `pd, chip, chip.regs
      ensures Valid() && pd == OnDrSwap(old(pd), allowed)
    {
      if !allowed {
        var _ := SendControl(REJECT);
        return;
      }
      pd := pd.(flags := pd.flags.(checkDrRole := false));
      var ok := SendControl(ACCEPT);
      if ok {
        SwapDataRole();
      }
    }

    method HandleSoftReset()
      requires Valid()
      modifies `pd, chip, chip.regs
      ensures Valid() && pd == PortState.SendControl(PortMachine.ExecuteSoftReset(old(pd)), ACCEPT)
    {
      ExecuteSoftReset();
      var _ := SendControl(ACCEPT);
    }

    method HandleCtrlRequest(kind: nat, i: Input)
      requires Valid()
      modifies `pd, chip, chip.regs
      ensures Valid() && pd == HandleControl(old(pd), kind, i)
    {
      if kind == GET_SOURCE_CAP {
        HandleGetSourceCap();
      } else if kind == GET_SINK_CAP {
        var _ := SendSinkCap();
      } else if kind == PS_RDY {
        HandlePsRdy();
      } else if kind == REJECT || kind == WAIT {
        HandleRefusal(kind == WAIT, i.clock.msg);
      } else if kind == ACCEPT {
        HandleAccept();
      } else if kind == SOFT_RESET {
        HandleSoftReset();
      } else if kind == PR_SWAP {
        HandlePrSwap(i.allowPowerSwap);
      } else if kind == DR_SWAP {
        HandleDrSwap(i.allowDataSwap);
      } else if kind == VCONN_SWAP {
        var _ := SendControl(REJECT);
      }
    }

    /** `i` is the pass's input with the received message in place. */
    method HandleRequest(m: Option<Message>, i: Input)
      requires Valid() && Readable(i) && m == i.msg
      modifies `pd, chip, chip.regs, policy, policy.caps
      ensures Valid() && pd == MessagePhase(old(pd), i)
    {
      if m.None? || !Connected(pd) {
        return;
      }
      var kind := HeaderKind(m.value.header);
      if HeaderCnt(m.value.header) > 0 {
        HandleDataRequest(kind, m.value.data, i);
      } else {
        HandleCtrlRequest(kind, i);
      }
    }

    // ---- The cases of the switch: source ----

    method ToggleToSink(i: Input)
      requires Valid()
      requires !SeesSink(i) && !i.drp.ForceSource? && !i.drp.Freeze? && i.clock.run >= pd.counters.nextRoleSwap
      modifies `pd, chip, chip.regs
      ensures Valid() && pd == RunSrcDisconnected(old(pd), i)
    {
      pd := pd.(role := Sink);
      SetState(SnkDisconnected);
      SetCc(Rd);
      pd := pd.(counters := pd.counters.(nextRoleSwap := i.clock.run2 + T_DRP_SNK));
    }

    method SrcDisconnectedCase(i: Input)
      requires Valid()
      modifies `pd, chip, chip.regs
      ensures Valid() && pd == RunSrcDisconnected(old(pd), i)
    {
      if SeesSink(i) {
        pd := pd.(cc := pd.cc.(state := CcNone));
        SetState(SrcDisconnectedDebounce);
      } else if !i.drp.ForceSource? && !i.drp.Freeze? && i.clock.run >= pd.counters.nextRoleSwap {
        ToggleToSink(i);
      }
    }

    method OrientSource(c: CcState, i: Input)
      requires Valid()
      modifies `pd, chip, chip.regs
      ensures Valid()
      ensures pd == PortState.SetDataRole(old(pd).(polarity := !i.cc1.RdPulled?,
                      flags := old(pd).flags.(tsDtsPartner := old(pd).flags.tsDtsPartner || c.DebugAcc?)), Dfp)
    {
      SetPolarity(!i.cc1.RdPulled?);
      SetDataRole(Dfp);
      pd := pd.(flags := pd.flags.(tsDtsPartner := pd.flags.tsDtsPartner || c.DebugAcc?));
    }

    /** The end of a source's debounce. */
    method AttachSink(c: CcState, i: Input)
      requires Valid() && pd.state == SrcDisconnectedDebounce
      requires c == ClassifySource(i.cc1, i.cc2) == pd.cc.state && i.clock.run >= pd.cc.debounce
      requires c.UfpAttached? || c.DebugAcc?
      modifies `pd, `waiting, chip, chip.regs
      ensures Valid() && pd == RunSrcDebounce(old(pd), i)
      ensures waiting == if Attaching(old(pd), pd) then [] else old(waiting)
    {
      OrientSource(c, i);
      if !i.supplyOk {
        return;
      }
      PowerSupplyReady();
      EnableRx();
      pd := pd.(flags := pd.flags.(checkPrRole := true, checkDrRole := true),
                counters := pd.counters.(hardReset := 0));
      SetState(SrcStartup);
    }

    /** On attaching, the chip listens to the line that shows the sink. */
    method SrcDebounceCase(i: Input)
      requires Valid() && pd.state == SrcDisconnectedDebounce
      modifies `pd, `waiting, chip, chip.regs
      ensures Valid() && pd == RunSrcDebounce(old(pd), i)
      ensures pd.state == SrcStartup ==>
                ListensTo(pd.polarity) && Line(pd.polarity, i.cc1, i.cc2).RdPulled?
      ensures waiting == if Attaching(old(pd), pd) then [] else old(waiting)
    {
      SourceDebounceChooses(pd, i);
      DebounceSource(i);
      if pd.outputs.rx {
        ListensOnItsLine(this);
      }
    }

    method DebounceSource(i: Input)
      requires Valid() && pd.state == SrcDisconnectedDebounce
      modifies `pd, `waiting, chip, chip.regs
      ensures Valid() && pd == RunSrcDebounce(old(pd), i)
      ensures waiting == if Attaching(old(pd), pd) then [] else old(waiting)
    {
      var c := ClassifySource(i.cc1, i.cc2);
      if c.CcNone? {
        SetState(SrcDisconnected);
        return;
      }
      if c != pd.cc.state {
        pd := pd.(cc := pd.cc.(debounce := i.clock.run + T_CC_DEBOUNCE));
        pd := pd.(cc := pd.cc.(state := c));
        return;
      }
      if i.clock.run < pd.cc.debounce {
        return;
      }
      if c.UfpAttached? || c.DebugAcc? {
        AttachSink(c, i);
      }
    }

    method SrcHardResetRecoverCase(i: Input)
      requires Valid()
      modifies `pd, chip, chip.regs
      ensures Valid() && pd == RunSrcHardResetRecover(old(pd), i)
    {
      if i.clock.run < pd.srcRecover {
        return;
      }
      if !i.supplyOk {
        SetState(SrcDisconnected);
        return;
      }
      PowerSupplyReady();
      SetState(SrcStartup);
    }

    method SrcStartupCase(i: Input)
      requires Valid()
      modifies `pd
      ensures Valid() && pd == RunSrcStartup(old(pd), i)
    {
      if Entered(pd) {
        pd := pd.(flags := pd.flags.(checkIdentity := true));
        pd := pd.(counters := pd.counters.(caps := 0, snkCap := 0));
        pd := pd.(msgId := 0);
        SetStateTimeout(i.clock.run + SUPPLY_TURN_ON, SrcDiscovery);
      }
    }

    method ArmNoResponseTimer(i: Input)
      requires Valid()
      modifies `pd
      ensures Valid() && pd == ArmNoResponse(old(pd), i)
    {
      if Entered(pd) && pd.flags.previousPdConn {
        SetStateTimeout(i.clock.run + T_NO_RESPONSE,
                        if pd.counters.hardReset < HARD_RESET_COUNT then HardResetSend else SrcDisconnected);
      }
    }

    /** The offer was acknowledged. */
    method AwaitRequest()
      requires Valid()
      modifies `pd, chip, chip.regs
      ensures Valid()
      ensures pd == PortState.SetState(old(pd).(counters := old(pd).counters.(hardReset := 0, caps := 0),
                                                flags := old(pd).flags.(previousPdConn := true)), SrcNegociate)
    {
      pd := pd.(counters := pd.counters.(hardReset := 0, caps := 0), flags := pd.flags.(previousPdConn := true));
      SetState(SrcNegociate);
    }

    method AdvertiseCaps()
      requires Valid()
      modifies `pd, chip, chip.regs
      ensures Valid() && pd == Advertise(old(pd))
    {
      if pd.counters.caps >= CAPS_COUNT {
        return;
      }
      var ok := SendSourceCap();
      if ok {
        AwaitRequest();
      } else {
        pd := pd.(counters := pd.counters.(caps := pd.counters.caps + 1));
      }
    }

    method SrcDiscoveryCase(i: Input)
      requires Valid()
      modifies `pd, chip, chip.regs
      ensures Valid() && pd == RunSrcDiscovery(old(pd), i)
    {
      ArmNoResponseTimer(i);
      AdvertiseCaps();
    }

    method SrcNegociateCase(i: Input)
      requires Valid()
      modifies `pd
      ensures Valid() && pd == RunSrcNegociate(old(pd), i)
    {
      if Entered(pd) {
        SetStateTimeout(i.clock.run + T_SENDER_RESPONSE, HardResetSend);
      }
    }

    method SrcAcceptedCase(i: Input)
      requires Valid()
      modifies `pd
      ensures Valid() && pd == RunSrcAccepted(old(pd), i)
    {
      if Entered(pd) {
        SetStateTimeout(i.clock.run + T_SINK_TRANSITION, SrcPowered);
      }
    }

    method TransitionVoltage(idx: nat, t: nat)
      requires Valid()
      modifies `pd
      ensures Valid() && pd == old(pd).(outputs := old(pd).outputs.(supplied := idx),
                           history := old(pd).history.(switched := Switch(old(pd).history.acceptedPos,
                                                                          old(pd).history.acceptedAt, t)))
    {
      pd := pd.(outputs := pd.outputs.(supplied := idx));
      pd := pd.(history := pd.history.(switched := Switch(pd.history.acceptedPos, pd.history.acceptedAt, t)));
    }

    method SrcPoweredCase(i: Input)
      requires Valid()
      modifies `pd
      ensures Valid() && pd == RunSrcPowered(old(pd), i)
    {
      if Entered(pd) {
        TransitionVoltage(pd.requestedIdx, i.clock.run);
        SetStateTimeout(i.clock.run + SUPPLY_TURN_ON, SrcTransition);
      }
    }

    method SrcTransitionCase(i: Input)
      requires Valid()
      modifies `pd, chip, chip.regs
      ensures Valid() && pd == RunSrcTransition(old(pd))
    {
      var ok := SendControl(PS_RDY);
      SetState(if ok then SrcReady else SrcDisconnected);
    }

    method ClearPrCheck()
      requires Valid()
      modifies `pd
      ensures Valid() && pd == old(pd).(flags := old(pd).flags.(checkPrRole := false))
    {
      pd := pd.(flags := pd.flags.(checkPrRole := false));
    }

    method ClearDrCheck()
      requires Valid()
      modifies `pd
      ensures Valid() && pd == old(pd).(flags := old(pd).flags.(checkDrRole := false))
    {
      pd := pd.(flags := pd.flags.(checkDrRole := false));
    }

    method CheckPrRole(want: bool)
      requires Valid()
      modifies `pd, chip, chip.regs
      ensures Valid()
      ensures pd == (if want then PortMachine.RequestPowerSwap(old(pd)) else old(pd)).(
                      flags := old(pd).flags.(checkPrRole := false))
    {
      if want {
        StartPowerSwap();
      }
      ClearPrCheck();
    }

    method CheckDrRole(want: bool)
      requires Valid()
      modifies `pd, chip, chip.regs
      ensures Valid()
      ensures pd == (if want then PortMachine.RequestDataSwap(old(pd)) else old(pd)).(
                      flags := old(pd).flags.(checkDrRole := false))
    {
      if want {
        StartDataSwap();
      }
      ClearDrCheck();
    }

    /** One due item of a ready state. */
    method RunPolicyCase(i: Input)
      requires Valid() && PolicyDue(pd)
      modifies `pd, chip, chip.regs
      ensures Valid() && pd == RunPolicy(old(pd), i)
    {
      if pd.flags.checkPrRole {
        CheckPrRole(i.wantPowerSwap);
      } else if pd.flags.checkDrRole {
        CheckDrRole(i.wantDataSwap);
      } else {
        SendVdm(SID_PD, CMD_DISCOVER_IDENT, []);
        pd := pd.(flags := pd.flags.(checkIdentity := false));
      }
    }

    method TendSinkCase(i: Input)
      requires Valid()
      modifies `pd, chip, chip.regs
      ensures Valid() && pd == TendSink(old(pd), i)
    {
      if !pd.flags.snkCapRecvd && pd.counters.snkCap <= SNK_CAP_RETRIES {
        var _ := SendControl(GET_SINK_CAP);
        SetState(SrcGetSinkCap);
      } else if PolicyDue(pd) {
        RunPolicyCase(i);
      } else if pd.flags.pingEnabled {
        var ok := SendControl(PING);
        if !ok {
          SetState(SoftReset);
        }
      }
    }

    method SendUpdatedCaps()
      requires Valid()
      modifies `pd, chip, chip.regs
      ensures Valid() && pd == Readvertise(old(pd))
    {
      var ok := SendSourceCap();
      if ok {
        SetState(SrcNegociate);
        pd := pd.(flags := pd.flags.(updateSrcCaps := false));
      }
    }

    method SrcReadyCase(i: Input)
      requires Valid()
      modifies `pd, chip, chip.regs
      ensures Valid() && pd == RunSrcReady(old(pd), i)
    {
      if pd.vdm.state.VdmBusy? {
        return;
      }
      if pd.flags.updateSrcCaps {
        SendUpdatedCaps();
        return;
      }
      if !pd.flags.snkCapRecvd {
        pd := pd.(counters := pd.counters.(snkCap := pd.counters.snkCap + 1));
      }
      TendSinkCase(i);
    }

    method SrcGetSinkCapCase(i: Input)
      requires Valid()
      modifies `pd
      ensures Valid() && pd == RunSrcGetSinkCap(old(pd), i)
    {
      if Entered(pd) {
        SetStateTimeout(i.clock.run + T_SENDER_RESPONSE, SrcReady);
      }
    }

    /** The cases DR_SWAP, SRC_SWAP_INIT and SNK_SWAP_INIT. */
    method SendSwapRequest(kind: Kind, back: State, i: Input)
      requires Valid() && (kind == PR_SWAP || kind == DR_SWAP)
      modifies `pd, chip, chip.regs
      ensures Valid() && pd == SendSwap(old(pd), kind, back, i)
    {
      if Entered(pd) {
        var ok := SendControl(kind);
        if !ok {
          SetState(SoftReset);
          return;
        }
        SetStateTimeout(i.clock.run + T_SENDER_RESPONSE, back);
      }
    }

    method SrcSwapSnkDisableCase(i: Input)
      requires Valid()
      modifies `pd
      ensures Valid() && pd == RunSrcSwapSnkDisable(old(pd), i)
    {
      if Entered(pd) {
        SetStateTimeout(i.clock.run + T_SINK_TRANSITION, SrcSwapSrcDisable);
      }
    }

    method SrcSwapSrcDisableCase(i: Input)
      requires Valid()
      modifies `pd
      ensures Valid() && pd == RunSrcSwapSrcDisable(old(pd), i)
    {
      if Entered(pd) {
        PowerSupplyReset();
        SetStateTimeout(i.clock.run + SUPPLY_TURN_OFF, SrcSwapStandby);
      }
    }

    method SrcSwapStandbyCase(i: Input)
      requires Valid()
      modifies `pd, chip, chip.regs
      ensures Valid() && pd == RunSrcSwapStandby(old(pd), i)
    {
      if Entered(pd) {
        var ok := SendControl(PS_RDY);
        if !ok {
          SetState(SrcDisconnected);
          return;
        }
        SetCc(Rd);
        pd := pd.(role := Sink);
        SetStateTimeout(i.clock.run + T_PS_SOURCE_ON, SnkDisconnected);
      }
    }

    // ---- The cases of the switch: sink ----

    method ToggleToSource(i: Input)
      requires Valid()
      requires i.cc1.Open? && i.cc2.Open? && i.drp.ToggleOn? && i.clock.run >= pd.counters.nextRoleSwap
      modifies `pd, chip, chip.regs
      ensures Valid() && pd == RunSnkDisconnected(old(pd), i)
    {
      pd := pd.(role := Source);
      SetState(SrcDisconnected);
      SetCc(Rp);
      pd := pd.(counters := pd.counters.(nextRoleSwap := i.clock.run2 + T_DRP_SRC));
    }

    method SnkDisconnectedCase(i: Input)
      requires Valid()
      modifies `pd, chip, chip.regs
      ensures Valid() && pd == RunSnkDisconnected(old(pd), i)
    {
      if !i.cc1.Open? || !i.cc2.Open? {
        pd := pd.(cc := pd.cc.(state := CcNone));
        pd := pd.(counters := pd.counters.(hardReset := 0));
        pd := pd.(cc := pd.cc.(debounce := i.clock.run + T_CC_DEBOUNCE));
        SetState(SnkDisconnectedDebounce);
      } else if i.drp.ToggleOn? && i.clock.run >= pd.counters.nextRoleSwap {
        ToggleToSource(i);
      }
    }

    method OrientSink(i: Input)
      requires Valid()
      modifies `pd, `waiting, chip, chip.regs
      ensures Valid()
      ensures pd == SetRx(PortState.SetDataRole(old(pd).(msgId := 0).(polarity := CcValue(i.cc2) > CcValue(i.cc1)),
                                                Ufp), true)
      ensures waiting == []
    {
      SetPolarity(CcValue(i.cc2) > CcValue(i.cc1));
      pd := pd.(msgId := 0);
      SetDataRole(Ufp);
      EnableRx();
    }

    /** The end of a sink's debounce. */
    method AttachSource(c: CcState, i: Input)
      requires Valid() && pd.state == SnkDisconnectedDebounce
      requires c == ClassifySink(i.cc1, i.cc2) == pd.cc.state && i.clock.run >= pd.cc.debounce
      requires !c.CcNone? && i.vbus1
      modifies `pd, `waiting, chip, chip.regs
      ensures Valid() && pd == RunSnkDebounce(old(pd), i)
      ensures waiting == []
    {
      OrientSink(i);
      pd := pd.(flags := pd.flags.(checkPrRole := true, checkDrRole := true, checkIdentity := true,
                                   tsDtsPartner := pd.flags.tsDtsPartner || c.DebugAcc?));
      var _ := SendControl(GET_SOURCE_CAP);
      SetState(SnkDiscovery);
    }

    /** On attaching, the chip listens to the best of the lines that show a source. */
    method SnkDebounceCase(i: Input)
      requires Valid() && pd.state == SnkDisconnectedDebounce
      modifies `pd, `waiting, chip, chip.regs
      ensures Valid() && pd == RunSnkDebounce(old(pd), i)
      ensures pd.state == SnkDiscovery ==>
                ListensTo(pd.polarity) && BestForSink(pd.polarity, i.cc1, i.cc2)
      ensures waiting == if Attaching(old(pd), pd) then [] else old(waiting)
    {
      SinkDebounceChooses(pd, i);
      DebounceSink(i);
      if pd.outputs.rx {
        ListensOnItsLine(this);
      }
    }

    method DebounceSink(i: Input)
      requires Valid() && pd.state == SnkDisconnectedDebounce
      modifies `pd, `waiting, chip, chip.regs
      ensures Valid() && pd == RunSnkDebounce(old(pd), i)
      ensures waiting == if Attaching(old(pd), pd) then [] else old(waiting)
    {
      var c := ClassifySink(i.cc1, i.cc2);
      if c.CcNone? {
        SetState(SnkDisconnected);
        return;
      }
      if c != pd.cc.state {
        pd := pd.(cc := pd.cc.(debounce := i.clock.run + T_CC_DEBOUNCE));
        pd := pd.(cc := pd.cc.(state := c));
        return;
      }
      if i.clock.run < pd.cc.debounce || !i.vbus1 {
        return;
      }
      AttachSource(c, i);
    }

    method StartRecovery(i: Input)
      requires Valid()
      modifies `pd
      ensures Valid() && pd == StartSinkRecovery(old(pd), i)
    {
      if Entered(pd) {
        pd := pd.(flags := pd.flags.(checkIdentity := true),
                  counters := pd.counters.(vbusWentOff := false));
        SetStateTimeout(i.clock.run + T_SAFE_0V,
                        if pd.counters.hardReset < HARD_RESET_COUNT then HardResetSend else SnkDiscovery);
      }
    }

    method SnkHardResetRecoverCase(i: Input)
      requires Valid()
      modifies `pd, chip, chip.regs
      ensures Valid() && pd == RunSnkHardResetRecover(old(pd), i)
    {
      StartRecovery(i);
      if !i.vbus1 && !pd.counters.vbusWentOff {
        pd := pd.(counters := pd.counters.(vbusWentOff := true));
        SetStateTimeout(i.clock.run2 + T_SRC_RECOVER_MAX + T_SRC_TURN_ON, SnkDisconnected);
      }
      if i.vbus2 && pd.counters.vbusWentOff {
        SetState(SnkDiscovery);
      }
    }

    method SnkDiscoveryCase(i: Input)
      requires Valid()
      modifies `pd
      ensures Valid() && pd == RunSnkDiscovery(old(pd), i)
    {
      if Entered(pd) {
        if pd.counters.hardReset < HARD_RESET_COUNT {
          SetStateTimeout(i.clock.run + T_SINK_WAIT_CAP, HardResetSend);
        } else if pd.flags.previousPdConn {
          SetStateTimeout(i.clock.run + T_NO_RESPONSE, SnkDisconnected);
        }
      }
    }

    method SnkRequestedCase(i: Input)
      requires Valid()
      modifies `pd
      ensures Valid() && pd == RunSnkRequested(old(pd), i)
    {
      if Entered(pd) {
        pd := pd.(counters := pd.counters.(hardReset := 0));
        SetStateTimeout(i.clock.run + T_SENDER_RESPONSE, HardResetSend);
      }
    }

    method SnkTransitionCase(i: Input)
      requires Valid()
      modifies `pd
      ensures Valid() && pd == RunSnkTransition(old(pd), i)
    {
      if Entered(pd) {
        SetStateTimeout(i.clock.run + T_PS_TRANSITION, HardResetSend);
      }
    }

    method SnkReadyCase(i: Input)
      requires Valid() && Readable(i)
      modifies `pd, chip, chip.regs
      ensures Valid() && pd == RunSnkReady(old(pd), i)
    {
      if pd.vdm.state.VdmBusy? {
        return;
      }
      if pd.request.pending {
        var ok := SendRequest(false, i.capIndex);
        if !ok {
          SetState(SoftReset);
        }
        return;
      }
      if PolicyDue(pd) {
        RunPolicyCase(i);
      }
    }

    method SnkSwapSnkDisableCase(i: Input)
      requires Valid()
      modifies `pd, chip, chip.regs
      ensures Valid() && pd == RunSnkSwapSnkDisable(old(pd))
    {
      SetInputCurrentLimit(Power(0, 0));
      SetState(SnkSwapSrcDisable);
    }

    method SnkSwapSrcDisableCase(i: Input)
      requires Valid()
      modifies `pd
      ensures Valid() && pd == RunSnkSwapSrcDisable(old(pd), i)
    {
      if Entered(pd) {
        SetStateTimeout(i.clock.run + T_PS_SOURCE_OFF, HardResetSend);
      }
    }

    method SnkSwapStandbyCase(i: Input)
      requires Valid()
      modifies `pd, chip, chip.regs
      ensures Valid() && pd == RunSnkSwapStandby(old(pd), i)
    {
      if Entered(pd) {
        SetCc(Rp);
        if !i.supplyOk {
          SetCc(Rd);
          SetState(SnkDisconnected);
          return;
        }
        PowerSupplyReady();
        SetStateTimeout(i.clock.run + SUPPLY_TURN_ON, SnkSwapComplete);
      }
    }

    method SnkSwapCompleteCase(i: Input)
      requires Valid()
      modifies `pd, chip, chip.regs
      ensures Valid() && pd == RunSnkSwapComplete(old(pd))
    {
      var ok := SendControl(PS_RDY);
      if !ok {
        SetCc(Rd);
        PowerSupplyReset();
        SetState(SnkDisconnected);
        return;
      }
      pd := pd.(counters := pd.counters.(snkCap := SNK_CAP_RETRIES + 1, caps := 0));
      pd := pd.(msgId := 0);
      pd := pd.(role := Source);
      UpdateRoles();
      SetState(SrcDiscovery);
    }

    // ---- The cases of the switch: either role ----

    method SoftResetCase(i: Input)
      requires Valid()
      modifies `pd, chip, chip.regs
      ensures Valid() && pd == RunSoftReset(old(pd), i)
    {
      if Entered(pd) {
        pd := pd.(msgId := 0);
        var ok := SendControl(SOFT_RESET);
        if !ok {
          SetState(HardResetSend);
          return;
        }
        SetStateTimeout(i.clock.run + T_SENDER_RESPONSE, HardResetSend);
      }
    }

    method SendHardReset(i: Input)
      requires Valid()
      modifies `pd, chip, chip.regs
      ensures Valid() && pd == TrySendingReset(old(pd), i)
    {
      var ok := TransmitSignal(HardResetSignal);
      if !ok {
        return;
      }
      pd := pd.(counters := pd.counters.(hardResetSent := true));
      if pd.role.Source? {
        SetStateTimeout(i.clock.run + T_PS_HARD_RESET, HardResetExecute);
      } else {
        SetState(HardResetExecute);
      }
    }

    method CountHardReset()
      requires Valid()
      modifies `pd
      ensures Valid() && pd == CountReset(old(pd))
    {
      var counters := pd.counters.(hardReset := pd.counters.hardReset + 1);
      if Entered(pd) {
        counters := counters.(hardResetSent := false);
      }
      pd := pd.(counters := counters);
    }

    method HardResetSendCase(i: Input)
      requires Valid()
      modifies `pd, chip, chip.regs
      ensures Valid() && pd == RunHardResetSend(old(pd), i)
    {
      CountHardReset();
      if !pd.counters.hardResetSent {
        SendHardReset(i);
      }
    }

    method HardResetExecuteCase(i: Input)
      requires Valid()
      modifies `pd, chip, chip.regs
      ensures Valid() && pd == RunHardResetExecute(old(pd), i)
    {
      if pd.last == SnkSwapStandby {
        SetCc(Rd);
      }
      ExecuteHardReset(i.clock.run);
    }

    // ---- The switch ----

    method SourceAttachSwitch(i: Input)
      requires Valid()
      modifies `pd, `waiting, chip, chip.regs
      ensures Valid() && pd == RunSourceAttach(old(pd), i)
      ensures waiting == if Attaching(old(pd), pd) then [] else old(waiting)
    {
      if pd.state == SrcDisconnected {
        SrcDisconnectedCase(i);
      } else if pd.state == SrcDisconnectedDebounce {
        SrcDebounceCase(i);
      } else if pd.state == SrcHardResetRecover {
        SrcHardResetRecoverCase(i);
      } else {
        SrcStartupCase(i);
      }
    }

    method SourceContractSwitch(i: Input)
      requires Valid()
      modifies `pd, chip, chip.regs
      ensures Valid() && pd == RunSourceContract(old(pd), i)
    {
      if pd.state == SrcDiscovery {
        SrcDiscoveryCase(i);
      } else if pd.state == SrcNegociate {
        SrcNegociateCase(i);
      } else if pd.state == SrcAccepted {
        SrcAcceptedCase(i);
      } else if pd.state == SrcPowered {
        SrcPoweredCase(i);
      } else {
        SrcTransitionCase(i);
      }
    }

    method SourceReadySwitch(i: Input)
      requires Valid()
      modifies `pd, chip, chip.regs
      ensures Valid() && pd == RunSourceReady(old(pd), i)
    {
      if pd.state == SrcReady {
        SrcReadyCase(i);
      } else if pd.state == SrcGetSinkCap {
        SrcGetSinkCapCase(i);
      } else if pd.state == SrcSwapInit {
        SendSwapRequest(PR_SWAP, SrcReady, i);
      } else if pd.state == SrcSwapSnkDisable {
        SrcSwapSnkDisableCase(i);
      } else if pd.state == SrcSwapSrcDisable {
        SrcSwapSrcDisableCase(i);
      } else {
        SrcSwapStandbyCase(i);
      }
    }

    method SinkAttachSwitch(i: Input)
      requires Valid()
      modifies `pd, `waiting, chip, chip.regs
      ensures Valid() && pd == RunSinkAttach(old(pd), i)
      ensures waiting == if Attaching(old(pd), pd) then [] else old(waiting)
    {
      if pd.state == SnkDisconnected {
        SnkDisconnectedCase(i);
      } else if pd.state == SnkDisconnectedDebounce {
        SnkDebounceCase(i);
      } else if pd.state == SnkHardResetRecover {
        SnkHardResetRecoverCase(i);
      } else {
        SnkDiscoveryCase(i);
      }
    }

    method SinkContractSwitch(i: Input)
      requires Valid() && Readable(i)
      modifies `pd, chip, chip.regs
      ensures Valid() && pd == RunSinkContract(old(pd), i)
    {
      if pd.state == SnkRequested {
        SnkRequestedCase(i);
      } else if pd.state == SnkTransition {
        SnkTransitionCase(i);
      } else if pd.state == SnkReady {
        SnkReadyCase(i);
      } else if pd.state == SnkSwapInit {
        SendSwapRequest(PR_SWAP, SnkReady, i);
      } else if pd.state == SnkSwapSnkDisable {
        SnkSwapSnkDisableCase(i);
      } else if pd.state == SnkSwapSrcDisable {
        SnkSwapSrcDisableCase(i);
      } else if pd.state == SnkSwapStandby {
        SnkSwapStandbyCase(i);
      } else {
        SnkSwapCompleteCase(i);
      }
    }

    method SharedSwitch(i: Input)
      requires Valid()
      modifies `pd, chip, chip.regs
      ensures Valid() && pd == RunShared(old(pd), i)
    {
      if pd.state == Suspended {
        SetState(SnkDisconnected);
      } else if pd.state == DrSwap {
        SendSwapRequest(DR_SWAP, ReadyState(pd), i);
      } else if pd.state == SoftReset {
        SoftResetCase(i);
      } else if pd.state == HardResetSend {
        HardResetSendCase(i);
      } else if pd.state == HardResetExecute {
        HardResetExecuteCase(i);
      }
    }

    method HandleState(i: Input)
      requires Valid() && Readable(i)
      modifies `pd, `waiting, chip, chip.regs
      ensures Valid() && pd == Handle(old(pd), i)
      ensures waiting == if Attaching(old(pd), pd) then [] else old(waiting)
    {
      if SrcDisconnected <= pd.state <= SrcStartup {
        SourceAttachSwitch(i);
      } else if SrcDiscovery <= pd.state <= SrcTransition {
        SourceContractSwitch(i);
      } else if SourceState(pd.state) {
        SourceReadySwitch(i);
      } else if SnkDisconnected <= pd.state <= SnkDiscovery {
        SinkAttachSwitch(i);
      } else if SinkState(pd.state) {
        SinkContractSwitch(i);
      } else {
        SharedSwitch(i);
      }
    }

    // ---- One pass ----

    method CheckTimeout(end: nat)
      requires Valid()
      modifies `pd, chip, chip.regs
      ensures Valid() && pd == TimerPhase(old(pd), end)
    {
      pd := pd.(history := pd.history.(now := end));
      if pd.timer.at != 0 && end >= pd.timer.at {
        SetState(pd.timer.next);
      }
    }

    method CheckDisconnect(i: Input)
      requires Valid()
      modifies `pd, chip, chip.regs
      ensures Valid() && pd == DetachPhase(old(pd), i)
    {
      if !Connected(pd) || PowerSwapping(pd.state) {
        return;
      }
      if pd.role.Source? {
        if (if pd.polarity then i.ccEnd2 else i.ccEnd1).Open? {
          SetState(SrcDisconnected);
        }
      } else if !i.vbusEnd && pd.state != SnkHardResetRecover && pd.state != HardResetExecute {
        SetState(SnkDisconnected);
      }
    }

    method CheckBoard(ok: bool, t: nat)
      requires Valid()
      modifies `pd, chip, chip.regs
      ensures Valid() && pd == BoardPhase(old(pd), ok, t) && chip.fifo == old(chip.fifo)
    {
      if !ok {
        ExecuteHardReset(t);
        var _ := TransmitSignal(HardResetSignal);
      }
    }

    method PressButton(reset: bool)
      requires Valid()
      modifies `pd, `earlier
      ensures Valid() && pd == ButtonPhase(old(pd).(sent := NoFrames), reset) && earlier == chip.air
    {
      earlier := chip.air;
      pd := pd.(sent := NoFrames);
      if reset {
        pd := pd.(state := SoftReset);
      }
    }

    method TakeMessage() returns (m: Option<Message>)
      requires Valid()
      modifies `waiting, chip
      ensures Valid() && m == Fusb302Fifo.GetMessage(old(chip.fifo)).0
      ensures waiting == Fusb302Fifo.GetMessage(old(chip.fifo)).1
    {
      ghost var d := chip.View();
      m := chip.GetMessage();
      waiting := chip.fifo;
      assert chip.View() == d;
    }

    /** Everything before the switch; takes the received message from the chip. */
    method BeforeSwitch(i: Input) returns (j: Input)
      requires Valid() && Readable(i)
      modifies `pd, `earlier, `waiting, chip, chip.regs, policy, policy.caps
      ensures Valid() && Readable(j) && j == i.(msg := Fusb302Fifo.GetMessage(old(chip.fifo)).0)
      ensures pd == BeforeHandler(old(pd), j) && earlier == old(chip.air)
      ensures waiting == Fusb302Fifo.GetMessage(old(chip.fifo)).1
    {
      PressButton(i.reset);
      VdmSendStateMachine(i.clock.vdm);
      CheckBoard(i.boardOk, i.clock.board);
      var m := TakeMessage();
      j := i.(msg := m);
      HandleRequest(m, j);
    }

    method RunSwitch(j: Input)
      requires Valid() && Readable(j)
      modifies `pd, `waiting, chip, chip.regs, policy, policy.caps
      ensures Valid() && pd == HandlerPhase(old(pd), j)
      ensures old(AtSwitch(pd, j)) ==> Handled(pd, j)
      ensures waiting == if Attaching(old(pd), pd) then [] else old(waiting)
    {
      if AtSwitch(pd, j) {
        HandlerKeeps(pd, j);
      }
      var thisState, steady := pd.state, Observe(pd, j);
      HandleState(j);
      pd := pd.(last := thisState, history := pd.history.(steady := steady));
    }

    /** pd_run_state_machine. The message is taken from the chip; everything else the
        pass reads is in `i`. */
    method RunStateMachine(i: Input)
      requires Valid() && Readable(i)
      modifies `pd, `earlier, `waiting, chip, chip.regs, policy, policy.caps
      ensures Valid()
      ensures pd == Pass(old(pd), i.(msg := Fusb302Fifo.GetMessage(old(chip.fifo)).0))
      ensures chip.air == old(chip.air) + OnAir(pd.sent)
      ensures PassKept(old(pd), pd, i.(msg := Fusb302Fifo.GetMessage(old(chip.fifo)).0))
      ensures var (m, rest) := Fusb302Fifo.GetMessage(old(chip.fifo));
              var b := BeforeHandler(old(pd), i.(msg := m));
              chip.fifo == if Attaching(b, HandlerPhase(b, i.(msg := m))) then [] else rest
    {
      ghost var p := pd;
      var j := BeforeSwitch(i);
      RunSwitch(j);
      CheckTimeout(j.clock.end);
      CheckDisconnect(j);
      PassKeepsBoth(p, j);
    }

    // ---- The chip alert ----

    method Notify(on: bool, status: TxStatus)
      requires Valid()
      modifies `pd
      ensures Valid() && pd == if on then PortMachine.TransmitComplete(old(pd), status) else old(pd)
    {
      if on {
        TransmitComplete(status);
      }
    }

    /** Empties the receive FIFO. */
    method FlushRx()
      requires Valid()
      modifies `waiting, chip
      ensures Valid() && chip.fifo == []
    {
      ghost var d := chip.View();
      chip.fifo := [];
      waiting := [];
      assert chip.View() == d;
    }

    method HandleInterrupts(n: Interrupts, t: nat)
      requires Valid()
      modifies `pd, `waiting, chip, chip.regs
      ensures Valid() && pd == Alerted(old(pd), n, t)
      ensures chip.fifo == if n.hardReset || n.hardSent then [] else old(chip.fifo)
    {
      Notify(n.collision, TxFailed);
      Notify(n.txSuccess, TxSuccess);
      Notify(n.retryFail, TxFailed);
      if n.hardSent {
        FlushRx();
      }
      Notify(n.hardSent, TxSuccess);
      if n.hardReset {
        FlushRx();
        ExecuteHardReset(t);
      }
    }

    /** fusb302_tcpc_alert; a reset of the PD logic flushes the FIFO, and so does a packet
        that arrives while the receiver is disabled. */
    method Alert(n: Interrupts, t: nat)
      requires Valid()
      modifies `pd, `waiting, chip, chip.regs
      ensures Valid() && pd == Alerted(old(pd), n, t) && Kept(old(pd), pd, true)
      ensures chip.fifo == if n.hardReset || n.hardSent || (n.gcrcSent && !pd.outputs.rx) then [] else old(chip.fifo)
      ensures pd.tx.TxSuccess? <==> CountsDelivered(n, old(pd.tx.TxSuccess?))
      ensures pd.msgId == if n.hardReset then 0 else (old(pd.msgId) + One(n.txSuccess) + One(n.hardSent)) % 8
    {
      AlertKeepsBoth(pd, n, t);
      AlertIsReported(pd, n, t);
      HandleInterrupts(n, t);
      if n.gcrcSent && !chip.rx {
        FlushRx();
      }
    }
  }

  // ---- Both layers together ----

  /** A port that receives listens and transmits on the line it has chosen, and acknowledges
      with the roles last set. */
  lemma ListensOnItsLine(d: PdPort)
    requires d.Valid() && d.pd.outputs.rx
    ensures d.ListensTo(d.pd.polarity)
    ensures Has(d.chip.regs[SWITCHES1], POWERROLE) <==> d.pd.outputs.headRole.Source?
    ensures Has(d.chip.regs[SWITCHES1], DATAROLE) <==> d.pd.outputs.headDataRole.Dfp?
  {}

  /** While the port is detached the chip neither acknowledges nor listens. The constructor
      makes a port sound, and every method that the outside calls keeps it so. */
  lemma SilentChip(d: PdPort)
    requires d.Sound() && Detached(d.pd.state)
    ensures !Has(d.chip.regs[SWITCHES1], AUTO_GCRC) && !d.chip.rx
  {}

  /** The chip's pulls are those of the port's role, and VCONN is never on. */
  lemma ChipPresentsRole(d: PdPort)
    requires d.Valid() && Ruled(d.pd)
    ensures d.pd.role.Source? ==> Pulls(d.chip.View()) == CC1_PU | CC2_PU
    ensures d.pd.role.Sink? && !SwapWindow(d.pd) ==>
              Pulls(d.chip.View()) == CC1_PD | CC2_PD && !d.pd.outputs.vbusOn
    ensures !Has(d.chip.regs[SWITCHES0], VCONN_CC1 | VCONN_CC2)
  {}
}
