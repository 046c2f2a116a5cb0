/** One pass of the port state machine and the other entry points of
    usb_pd_protocol.cpp, as functions from the old port state to the new one. */
module PortMachine {
  import opened PdWords
  import opened PowerPolicy
  import opened PortState

  // ---- Notifications from the chip alert ----

  /** pd_transmit_complete. */
  function TransmitComplete(p: Port, status: TxStatus): Port {
    p.(msgId := if status.TxSuccess? then (p.msgId + 1) % 8 else p.msgId, tx := status)
  }

  /** pd_execute_hard_reset at clock value `t`. */
  function ExecuteHardReset(p: Port, t: nat): Port {
    var q := p.(msgId := 0).(last := HardResetExecute);
    var r := if p.state == SnkSwapStandby || p.state == SnkSwapComplete then SupplyOff(SetPull(q, Rd)) else q;
    if p.role.Sink? then SetState(SetLimit(r, Power(0, 0)), SnkHardResetRecover)
    else SetState(SupplyOff(r).(srcRecover := t + T_SRC_RECOVER), SrcHardResetRecover)
  }

  function ExecuteSoftReset(p: Port): Port {
    SetState(p.(msgId := 0), if p.role.Sink? then SnkDiscovery else SrcDiscovery)
  }

  // ---- Requests of the application ----

  function RequestPowerSwap(p: Port): Port {
    if p.state == SrcReady then SetState(p, SrcSwapInit)
    else if p.state == SnkReady then SetState(p, SnkSwapInit)
    else p
  }

  function RequestDataSwap(p: Port): Port {
    if p.state == ReadyState(p) then SetState(p, DrSwap) else p
  }

  function RequestSoftReset(p: Port): Port {
    if Connected(p) then SetState(p, SoftReset) else p
  }

  function RequestNewPower(p: Port): Port {
    p.(request := p.request.(pending := true))
  }

  /** pd_request_source_voltage, except that the voltage ceiling it stores is not read. */
  function RequestSourceVoltage(p: Port): Port {
    if p.state == SnkReady || p.state == SnkTransition then RequestNewPower(p)
    else SetState(SetPull(p.(role := Sink), Rd), SnkDisconnected)
  }

  function UpdateContract(p: Port): Port {
    if SrcNegociate <= p.state <= SrcGetSinkCap then p.(flags := p.flags.(updateSrcCaps := true))
    else p
  }

  function EnablePing(p: Port, on: bool): Port {
    p.(flags := p.flags.(pingEnabled := on))
  }

  // ---- Vendor-defined messages ----

  predicate VdoStructured(w: Word) { (w / 0x8000) % 2 == 1 }

  function VdoCommand(w: nat): (c: nat) { w % 0x20 }

  function VdoCommandType(w: Word): (c: nat) { (w / 0x40) % 4 }

  const CMD_DISCOVER_IDENT: nat := 1
  const CMD_ENTER_MODE: nat := 4
  const CMD_EXIT_MODE: nat := 5
  const CMD_ATTENTION: nat := 6
  const SID_PD: nat := 0xFF00

  function VdmHeader(vid: nat, cmd: nat): Word {
    var structured := vid / 0x100 % 0x100 == 0xFF || VdoCommand(cmd) <= CMD_ATTENTION;
    vid % 0x1_0000 * 0x1_0000 + (if structured then 0x8000 else 0) + cmd % 0x8000
  }

  /** pd_send_vdm: queues the message; more than six objects are refused. */
  function SendVdm(p: Port, vid: nat, cmd: nat, data: seq<Word>): (q: Port)
    ensures q == p.(vdm := q.vdm)
  {
    if |data| > 6 then p
    else p.(vdm := p.vdm.(state := VdmReady, data := [VdmHeader(vid, cmd)] + data))
  }

  function VdmReadyTimeout(w: Word): nat {
    if !VdoStructured(w) then T_UNSTRUCTURED_VDM
    else
      var modal := VdoCommand(w) == CMD_ENTER_MODE || VdoCommand(w) == CMD_EXIT_MODE;
      if VdoCommandType(w) == 0 then if modal then T_VDM_WAIT_MODE_E else T_VDM_SNDR_RSP
      else if modal then T_VDM_E_MODE else T_VDM_RCVR_RSP
  }

  /** handle_vdm_request; neither handler of structured or vendor commands replies in
      this build. */
  function HandleVdm(p: Port, w: Word, t: nat): (q: Port)
    ensures q == p.(vdm := q.vdm)
  {
    if !p.vdm.state.VdmBusy? then p
    else if VdoCommandType(w) == 3 then
      p.(vdm := p.vdm.(state := VdmWaitRspBusy, timeout := t + T_VDM_BUSY,
                       retry := w - VdoCommandType(w) * 0x40))
    else p.(vdm := p.vdm.(state := VdmDone))
  }

  /** pd_vdm_send_state_machine. */
  function VdmPhase(p: Port, t: nat): (q: Port)
    ensures q == p.(vdm := q.vdm, sent := q.sent)
  {
    match p.vdm.state
    case VdmReady =>
      if !Connected(p) then p.(vdm := p.vdm.(state := VdmErrBusy))
      else if p.state != SrcReady && p.state != SnkReady then p
      else
        var q := SendData(p, VENDOR_DEF, p.vdm.data);
        if TxOk(q) then
          q.(vdm := q.vdm.(state := VdmBusy, timeout := t + VdmReadyTimeout(q.vdm.data[0])))
        else q.(vdm := q.vdm.(state := VdmErrSend))
    case VdmWaitRspBusy =>
      if t > p.vdm.timeout then p.(vdm := p.vdm.(state := VdmReady, data := [p.vdm.retry])) else p
    case VdmBusy =>
      if p.vdm.timeout != 0 && t > p.vdm.timeout then p.(vdm := p.vdm.(state := VdmErrTimeout)) else p
    case _ => p
  }

  // ---- Board checks ----

  /** A failed board check resets the port and signals a hard reset. */
  function BoardPhase(p: Port, ok: bool, t: nat): Port {
    if ok then p else Send(ExecuteHardReset(p, t), HardResetSignal)
  }

  // ---- Received messages ----

  /** pd_send_request_msg for an already built request. Sending fails exactly when the
      last transmission did. */
  function SendBuilt(p: Port, always: bool, rdo: Word, power: Power): (r: (Port, bool)) {
    var q := p.(request := p.request.(pending := false));
    if !always && q.request.previousMv == power.mv then (q, true)
    else
      var s := SendData(q.(request := q.request.(limit := power, previousMv := power.mv),
                           history := q.history.(requestedPos := RdoPos(rdo))), REQUEST, [rdo]);
      if TxOk(s) then (SetState(s, SnkRequested), true) else (s, false)
  }

  /** pd_send_request_msg: the new port and whether the request went out (or was not
      needed). */
  function SendRequest(p: Port, always: bool, index: nat): (r: (Port, bool))
    requires index < MAX_OBJECTS
  {
    var (rdo, power) := BuildRequest(p.caps, index);
    SendBuilt(p, always, rdo, power)
  }

  function UpdatePdoFlags(p: Port, pdo: Word): (q: Port)
    ensures q == p.(flags := q.flags)
    ensures q.flags == p.flags.(partnerDrPower := q.flags.partnerDrPower, partnerDrData := q.flags.partnerDrData,
                                partnerExtPower := q.flags.partnerExtPower,
                                partnerUsbComm := q.flags.partnerUsbComm)
  {
    if !PdoIsFixed(pdo) then p
    else p.(flags := p.flags.(partnerDrPower := PdoDualRole(pdo), partnerExtPower := PdoExternal(pdo),
                              partnerUsbComm := PdoCommCap(pdo), partnerDrData := PdoDataSwap(pdo)))
  }

  /** pd_process_source_cap: stores the objects and applies the selected one as limit. */
  function StoreCaps(p: Port, objects: Objects, index: nat): Port
    requires index < MAX_OBJECTS
  {
    var caps := Stored(p.caps, objects);
    SetLimit(p.(caps := caps), ExtractPower(caps[index]))
  }

  /** The answer to Source_Capabilities, given the table it leaves, the limit applied at
      once, and the request built from the table. */
  function AnswerWith(p: Port, first: Word, caps: CapTable, limit: Power, rdo: Word, power: Power): Port {
    var q := UpdatePdoFlags(p.(flags := p.flags.(previousPdConn := true)), first);
    SendBuilt(SetLimit(q.(caps := caps), limit), true, rdo, power).0
  }

  /** Source_Capabilities, where the port waits for or keeps a contract: remembered and
      answered with a request. */
  function AnswerSourceCap(p: Port, objects: Objects, index: nat): Port
    requires |objects| > 0 && index < MAX_OBJECTS
  {
    var caps := Stored(p.caps, objects);
    var (rdo, power) := BuildRequest(caps, index);
    AnswerWith(p, objects[0], caps, ExtractPower(caps[index]), rdo, power)
  }

  function OnSourceCap(p: Port, objects: Objects, index: nat): Port
    requires |objects| > 0 && index < MAX_OBJECTS
  {
    if p.state == SnkDiscovery || p.state == SnkTransition || p.state == SnkReady then
      AnswerSourceCap(p, objects, index)
    else p
  }

  /** The parts of an answer. */
  lemma AnswerShape(p: Port, objects: Objects, index: nat)
    returns (caps: CapTable, limit: Power, rdo: Word, power: Power)
    requires |objects| > 0 && index < MAX_OBJECTS
    ensures caps == Stored(p.caps, objects) && (rdo, power) == BuildRequest(caps, index)
    ensures AnswerSourceCap(p, objects, index) == AnswerWith(p, objects[0], caps, limit, rdo, power)
  {
    caps := Stored(p.caps, objects);
    limit := ExtractPower(caps[index]);
    var r := BuildRequest(caps, index);
    rdo, power := r.0, r.1;
  }

  /** A Request; one that is not for a source, or not granted, is rejected and still
      leads to SrcReady. `t` is the first clock reading after the answer. */
  function OnRequest(p: Port, objects: Objects, t: nat): Port
    requires |objects| > 0
  {
    if p.role.Source? && |objects| == 1 && RequestGranted(objects[0], p.srcPdos) then
      var q := SendControl(p, ACCEPT);
      if !TxOk(q) then q
      else
        var pos := RdoPos(objects[0]);
        SetState(q.(flags := q.flags.(explicitContract := true), requestedIdx := pos,
                    history := q.history.(acceptedAt := t, acceptedPos := pos)), SrcAccepted)
    else SetState(SendControl(p, REJECT), SrcReady)
  }

  function OnBist(p: Port, w: Word): Port {
    if p.state == ReadyState(p) && w / 0x1000_0000 == 5 then
      SetState(Send(p, BistCarrier), if p.role.Sink? then SnkDisconnected else SrcDisconnected)
    else p
  }

  function OnSinkCap(p: Port, w: Word): Port {
    var q := UpdatePdoFlags(p.(flags := p.flags.(snkCapRecvd := true)), w);
    if q.state == SrcGetSinkCap then SetState(q, SrcReady) else q
  }

  function HandleData(p: Port, kind: nat, objects: Objects, i: Input): Port
    requires |objects| > 0 && Readable(i)
  {
    if kind == SOURCE_CAP then OnSourceCap(p, objects, i.capIndex)
    else if kind == REQUEST then OnRequest(p, objects, i.clock.run)
    else if kind == BIST then OnBist(p, objects[0])
    else if kind == SINK_CAP then OnSinkCap(p, objects[0])
    else if kind == VENDOR_DEF then HandleVdm(p, objects[0], i.clock.msg)
    else p
  }

  function OnGetSourceCap(p: Port): Port {
    var q := SendSourceCap(p);
    if TxOk(q) && q.state == SrcDiscovery then SetState(q, SrcNegociate) else q
  }

  function OnPsRdy(p: Port): Port {
    if p.state == SnkSwapSrcDisable then SetState(p, SnkSwapStandby)
    else if p.state == SrcSwapStandby then SetState(UpdateRoles(p.(msgId := 0).(role := Sink)), SnkDiscovery)
    else if p.state == SnkDiscovery then SetState(p, HardResetSend)
    else if p.state == SnkSwapStandby then p
    else if p.role.Sink? then SetLimit(SetState(p, SnkReady), p.request.limit) else p
  }

  /** Reject (`wait` false) or Wait. */
  function OnRefusal(p: Port, wait: bool, t: nat): Port {
    if p.state == DrSwap then SetState(p, ReadyState(p))
    else if p.state == SrcSwapInit then SetState(p, SrcReady)
    else if p.state == SnkSwapInit then SetState(p, SnkReady)
    else if p.state == SnkRequested then
      if !p.flags.explicitContract then SetState(p, SnkDiscovery)
      else if wait then
        SetTimer(p.(request := p.request.(pending := true, previousMv := 0)), t + T_SINK_REQUEST, SnkReady)
      else SetState(p, SnkReady)
    else p
  }

  /** pd_dr_swap. */
  function SwapData(p: Port): Port {
    SetDataRole(p.(flags := p.flags.(checkIdentity := true)), if p.dataRole.Dfp? then Ufp else Dfp)
  }

  function OnAccept(p: Port): Port {
    if p.state == SoftReset then ExecuteSoftReset(p)
    else if p.state == DrSwap then SetState(SwapData(p), ReadyState(p))
    else if p.state == SrcSwapInit then
      SetState(p.(flags := p.flags.(explicitContract := false)), SrcSwapSnkDisable)
    else if p.state == SnkSwapInit then
      SetState(p.(flags := p.flags.(explicitContract := false)), SnkSwapSnkDisable)
    else if p.state == SnkRequested then
      SetState(p.(flags := p.flags.(explicitContract := true)), SnkTransition)
    else p
  }

  function OnPrSwap(p: Port, allowed: bool): Port {
    if allowed then
      var q := SendControl(p, ACCEPT);
      SetState(q.(flags := q.flags.(checkPrRole := false)),
               if q.role.Sink? then SnkSwapSnkDisable else SrcSwapSnkDisable)
    else SendControl(p, REJECT)
  }

  function OnDrSwap(p: Port, allowed: bool): Port {
    if allowed then
      var q := SendControl(p.(flags := p.flags.(checkDrRole := false)), ACCEPT);
      if TxOk(q) then SwapData(q) else q
    else SendControl(p, REJECT)
  }

  function HandleControl(p: Port, kind: nat, i: Input): Port {
    if kind == GET_SOURCE_CAP then OnGetSourceCap(p)
    else if kind == GET_SINK_CAP then SendSinkCap(p)
    else if kind == PS_RDY then OnPsRdy(p)
    else if kind == REJECT || kind == WAIT then OnRefusal(p, kind == WAIT, i.clock.msg)
    else if kind == ACCEPT then OnAccept(p)
    else if kind == SOFT_RESET then SendControl(ExecuteSoftReset(p), ACCEPT)
    else if kind == PR_SWAP then OnPrSwap(p, i.allowPowerSwap)
    else if kind == DR_SWAP then OnDrSwap(p, i.allowDataSwap)
    else if kind == VCONN_SWAP then SendControl(p, REJECT)
    else p
  }

  /** handle_request: ignored while not connected. */
  function MessagePhase(p: Port, i: Input): Port
    requires Readable(i)
  {
    if i.msg.None? || !Connected(p) then p
    else
      var m := i.msg.value;
      if HeaderCnt(m.header) > 0 then HandleData(p, HeaderKind(m.header), m.data, i)
      else HandleControl(p, HeaderKind(m.header), i)
  }

  // ---- State handlers ----

  predicate Entered(p: Port) { p.last != p.state }

  predicate SeesSink(i: Input) {
    i.cc1.RdPulled? || i.cc2.RdPulled? || (i.cc1.Ra? && i.cc2.Ra?)
  }

  function RunSrcDisconnected(p: Port, i: Input): Port {
    if SeesSink(i) then SetState(p.(cc := p.cc.(state := CcNone)), SrcDisconnectedDebounce)
    else if !i.drp.ForceSource? && !i.drp.Freeze? && i.clock.run >= p.counters.nextRoleSwap then
      var q := SetPull(SetState(p.(role := Sink), SnkDisconnected), Rd);
      q.(counters := q.counters.(nextRoleSwap := i.clock.run2 + T_DRP_SNK))
    else p
  }

  function ClassifySource(cc1: Cc, cc2: Cc): CcState {
    if cc1.RdPulled? && cc2.RdPulled? then DebugAcc
    else if cc1.RdPulled? || cc2.RdPulled? then UfpAttached
    else if cc1.Ra? && cc2.Ra? then AudioAcc
    else CcNone
  }

  function RunSrcDebounce(p: Port, i: Input): Port {
    var c := ClassifySource(i.cc1, i.cc2);
    if c.CcNone? then SetState(p, SrcDisconnected)
    else if c != p.cc.state then p.(cc := CcTrack(c, i.clock.run + T_CC_DEBOUNCE))
    else if i.clock.run < p.cc.debounce || c.AudioAcc? then p
    else
      var q := SetDataRole(p.(polarity := !i.cc1.RdPulled?,
                              flags := p.flags.(tsDtsPartner := p.flags.tsDtsPartner || c.DebugAcc?)), Dfp);
      if !i.supplyOk then q
      else
        var r := SetRx(SupplyOn(q), true);
        SetState(r.(flags := r.flags.(checkPrRole := true, checkDrRole := true),
                    counters := r.counters.(hardReset := 0)), SrcStartup)
  }

  function RunSrcHardResetRecover(p: Port, i: Input): Port {
    if i.clock.run < p.srcRecover then p
    else if !i.supplyOk then SetState(p, SrcDisconnected)
    else SetState(SupplyOn(p), SrcStartup)
  }

  function RunSrcStartup(p: Port, i: Input): Port {
    if !Entered(p) then p
    else
      SetTimer(p.(msgId := 0).(flags := p.flags.(checkIdentity := true),
                  counters := p.counters.(caps := 0, snkCap := 0)),
               i.clock.run + SUPPLY_TURN_ON, SrcDiscovery)
  }

  /** The NoResponseTimer, once a partner was known to speak PD. */
  function ArmNoResponse(p: Port, i: Input): Port {
    if Entered(p) && p.flags.previousPdConn then
      SetTimer(p, i.clock.run + T_NO_RESPONSE,
               if p.counters.hardReset < HARD_RESET_COUNT then HardResetSend else SrcDisconnected)
    else p
  }

  /** Sends the source capabilities, a limited number of times. */
  function Advertise(p: Port): Port {
    if p.counters.caps >= CAPS_COUNT then p
    else
      var q := SendSourceCap(p);
      if TxOk(q) then
        SetState(q.(counters := q.counters.(hardReset := 0, caps := 0),
                    flags := q.flags.(previousPdConn := true)), SrcNegociate)
      else q.(counters := q.counters.(caps := q.counters.caps + 1))
  }

  function RunSrcDiscovery(p: Port, i: Input): Port {
    Advertise(ArmNoResponse(p, i))
  }

  function RunSrcNegociate(p: Port, i: Input): Port {
    if Entered(p) then SetTimer(p, i.clock.run + T_SENDER_RESPONSE, HardResetSend) else p
  }

  function RunSrcAccepted(p: Port, i: Input): Port {
    if Entered(p) then SetTimer(p, i.clock.run + T_SINK_TRANSITION, SrcPowered) else p
  }

  /** Entering SrcPowered calls pd_transition_voltage. */
  function RunSrcPowered(p: Port, i: Input): Port {
    if !Entered(p) then p
    else
      SetTimer(p.(outputs := p.outputs.(supplied := p.requestedIdx),
                  history := p.history.(switched := Switch(p.history.acceptedPos, p.history.acceptedAt,
                                                           i.clock.run))),
               i.clock.run + SUPPLY_TURN_ON, SrcTransition)
  }

  function RunSrcTransition(p: Port): Port {
    var q := SendControl(p, PS_RDY);
    SetState(q, if TxOk(q) then SrcReady else SrcDisconnected)
  }

  /** The role policies and the identity query still to be done in a ready state. */
  predicate PolicyDue(p: Port) {
    p.flags.checkPrRole || p.flags.checkDrRole || (p.dataRole.Dfp? && p.flags.checkIdentity)
  }

  /** One due item: a policy hook may ask for a swap; the query is queued. */
  function RunPolicy(p: Port, i: Input): Port
    requires PolicyDue(p)
  {
    if p.flags.checkPrRole then
      (if i.wantPowerSwap then RequestPowerSwap(p) else p).(flags := p.flags.(checkPrRole := false))
    else if p.flags.checkDrRole then
      (if i.wantDataSwap then RequestDataSwap(p) else p).(flags := p.flags.(checkDrRole := false))
    else SendVdm(p, SID_PD, CMD_DISCOVER_IDENT, []).(flags := p.flags.(checkIdentity := false))
  }

  /** Counts an attempt to learn the sink's capabilities, if they are unknown. */
  function CountSinkCap(p: Port): (q: Port)
    ensures q == p.(counters := q.counters) && q.counters.hardReset == p.counters.hardReset
  {
    if p.flags.snkCapRecvd then p
    else p.(counters := p.counters.(snkCap := p.counters.snkCap + 1))
  }

  /** Sends the changed source capabilities. */
  function Readvertise(p: Port): Port {
    var q := SendSourceCap(p);
    if TxOk(q) then SetState(q.(flags := q.flags.(updateSrcCaps := false)), SrcNegociate) else q
  }

  function PingSink(p: Port): Port {
    if !p.flags.pingEnabled then p
    else
      var q := SendControl(p, PING);
      if TxOk(q) then q else SetState(q, SoftReset)
  }

  /** The rest of the SrcReady handler, after the attempt has been counted. */
  function TendSink(p: Port, i: Input): Port {
    if !p.flags.snkCapRecvd && p.counters.snkCap <= SNK_CAP_RETRIES then
      SetState(SendControl(p, GET_SINK_CAP), SrcGetSinkCap)
    else if PolicyDue(p) then RunPolicy(p, i)
    else PingSink(p)
  }

  function RunSrcReady(p: Port, i: Input): Port {
    if p.vdm.state.VdmBusy? then p
    else if p.flags.updateSrcCaps then Readvertise(p)
    else TendSink(CountSinkCap(p), i)
  }

  function RunSrcGetSinkCap(p: Port, i: Input): Port {
    if Entered(p) then SetTimer(p, i.clock.run + T_SENDER_RESPONSE, SrcReady) else p
  }

  /** The common shape of the three swap requests: send once on entry, give up through a
      soft reset when the message was not acknowledged. */
  function SendSwap(p: Port, kind: Kind, back: State, i: Input): Port
    requires kind == PR_SWAP || kind == DR_SWAP
  {
    if !Entered(p) then p
    else
      var q := SendControl(p, kind);
      if TxOk(q) then SetTimer(q, i.clock.run + T_SENDER_RESPONSE, back) else SetState(q, SoftReset)
  }

  function RunSrcSwapSnkDisable(p: Port, i: Input): Port {
    if Entered(p) then SetTimer(p, i.clock.run + T_SINK_TRANSITION, SrcSwapSrcDisable) else p
  }

  function RunSrcSwapSrcDisable(p: Port, i: Input): Port {
    if Entered(p) then SetTimer(SupplyOff(p), i.clock.run + SUPPLY_TURN_OFF, SrcSwapStandby) else p
  }

  function RunSrcSwapStandby(p: Port, i: Input): Port {
    if !Entered(p) then p
    else
      var q := SendControl(p, PS_RDY);
      if !TxOk(q) then SetState(q, SrcDisconnected)
      else SetTimer(SetPull(q, Rd).(role := Sink), i.clock.run + T_PS_SOURCE_ON, SnkDisconnected)
  }

  function RunSnkDisconnected(p: Port, i: Input): Port {
    if !i.cc1.Open? || !i.cc2.Open? then
      SetState(p.(cc := CcTrack(CcNone, i.clock.run + T_CC_DEBOUNCE),
                  counters := p.counters.(hardReset := 0)), SnkDisconnectedDebounce)
    else if i.drp.ToggleOn? && i.clock.run >= p.counters.nextRoleSwap then
      var q := SetPull(SetState(p.(role := Source), SrcDisconnected), Rp);
      q.(counters := q.counters.(nextRoleSwap := i.clock.run2 + T_DRP_SRC))
    else p
  }

  predicate IsRp(c: Cc) { c.SnkDef? || c.Snk1A5? || c.Snk3A0? }

  function ClassifySink(cc1: Cc, cc2: Cc): CcState {
    if IsRp(cc1) && IsRp(cc2) then DebugAcc
    else if IsRp(cc1) || IsRp(cc2) then DfpAttached
    else CcNone
  }

  /** The numeric values of the voltage classes, which get_snk_polarity compares. */
  function CcValue(c: Cc): nat {
    match c
    case Open => 0
    case Ra => 1
    case RdPulled => 2
    case SnkDef => 5
    case Snk1A5 => 6
    case Snk3A0 => 7
  }

  function RunSnkDebounce(p: Port, i: Input): Port {
    var c := ClassifySink(i.cc1, i.cc2);
    if c.CcNone? then SetState(p, SnkDisconnected)
    else if c != p.cc.state then p.(cc := CcTrack(c, i.clock.run + T_CC_DEBOUNCE))
    else if i.clock.run < p.cc.debounce || !i.vbus1 then p
    else
      var q := SetRx(SetDataRole(p.(msgId := 0).(polarity := CcValue(i.cc2) > CcValue(i.cc1)), Ufp), true);
      var r := q.(flags := q.flags.(checkPrRole := true, checkDrRole := true, checkIdentity := true,
                                    tsDtsPartner := q.flags.tsDtsPartner || c.DebugAcc?));
      SetState(SendControl(r, GET_SOURCE_CAP), SnkDiscovery)
  }

  function StartSinkRecovery(p: Port, i: Input): Port {
    if !Entered(p) then p
    else
      SetTimer(p.(flags := p.flags.(checkIdentity := true), counters := p.counters.(vbusWentOff := false)),
               i.clock.run + T_SAFE_0V,
               if p.counters.hardReset < HARD_RESET_COUNT then HardResetSend else SnkDiscovery)
  }

  /** Waits for VBUS to go low and then high again. */
  function RunSnkHardResetRecover(p: Port, i: Input): Port {
    var q := StartSinkRecovery(p, i);
    var r := if i.vbus1 || q.counters.vbusWentOff then q
             else SetTimer(q.(counters := q.counters.(vbusWentOff := true)),
                           i.clock.run2 + T_SRC_RECOVER_MAX + T_SRC_TURN_ON, SnkDisconnected);
    if i.vbus2 && r.counters.vbusWentOff then SetState(r, SnkDiscovery) else r
  }

  function RunSnkDiscovery(p: Port, i: Input): Port {
    if !Entered(p) then p
    else if p.counters.hardReset < HARD_RESET_COUNT then SetTimer(p, i.clock.run + T_SINK_WAIT_CAP, HardResetSend)
    else if p.flags.previousPdConn then SetTimer(p, i.clock.run + T_NO_RESPONSE, SnkDisconnected)
    else p
  }

  function RunSnkRequested(p: Port, i: Input): Port {
    if Entered(p) then
      SetTimer(p.(counters := p.counters.(hardReset := 0)), i.clock.run + T_SENDER_RESPONSE, HardResetSend)
    else p
  }

  function RunSnkTransition(p: Port, i: Input): Port {
    if Entered(p) then SetTimer(p, i.clock.run + T_PS_TRANSITION, HardResetSend) else p
  }

  /** The ready sink, given the request that a renewal would send. */
  function ActReady(p: Port, i: Input, rdo: Word, power: Power): Port {
    if p.vdm.state.VdmBusy? then p
    else if p.request.pending then
      var (q, ok) := SendBuilt(p, false, rdo, power);
      if ok then q else SetState(q, SoftReset)
    else if PolicyDue(p) then RunPolicy(p, i)
    else p
  }

  function RunSnkReady(p: Port, i: Input): Port
    requires Readable(i)
  {
    var (rdo, power) := BuildRequest(p.caps, i.capIndex);
    ActReady(p, i, rdo, power)
  }

  function RunSnkSwapSnkDisable(p: Port): Port {
    SetState(SetLimit(p, Power(0, 0)), SnkSwapSrcDisable)
  }

  function RunSnkSwapSrcDisable(p: Port, i: Input): Port {
    if Entered(p) then SetTimer(p, i.clock.run + T_PS_SOURCE_OFF, HardResetSend) else p
  }

  function RunSnkSwapStandby(p: Port, i: Input): Port {
    if !Entered(p) then p
    else
      var q := SetPull(p, Rp);
      if !i.supplyOk then SetState(SetPull(q, Rd), SnkDisconnected)
      else SetTimer(SupplyOn(q), i.clock.run + SUPPLY_TURN_ON, SnkSwapComplete)
  }

  function RunSnkSwapComplete(p: Port): Port {
    var q := SendControl(p, PS_RDY);
    if !TxOk(q) then SetState(SupplyOff(SetPull(q, Rd)), SnkDisconnected)
    else SetState(UpdateRoles(q.(msgId := 0).(counters := q.counters.(snkCap := SNK_CAP_RETRIES + 1, caps := 0),
                                         role := Source)), SrcDiscovery)
  }

  function RunSoftReset(p: Port, i: Input): Port {
    if !Entered(p) then p
    else
      var q := SendControl(p.(msgId := 0), SOFT_RESET);
      if TxOk(q) then SetTimer(q, i.clock.run + T_SENDER_RESPONSE, HardResetSend)
      else SetState(q, HardResetSend)
  }

  function TrySendingReset(p: Port, i: Input): Port {
    var q := Send(p, HardResetSignal);
    if !TxOk(q) then q
    else
      var r := q.(counters := q.counters.(hardResetSent := true));
      if r.role.Source? then SetTimer(r, i.clock.run + T_PS_HARD_RESET, HardResetExecute)
      else SetState(r, HardResetExecute)
  }

  function CountReset(p: Port): Port {
    p.(counters := p.counters.(hardReset := p.counters.hardReset + 1,
                               hardResetSent := !Entered(p) && p.counters.hardResetSent))
  }

  /** Tries until the signal goes out; a source then waits before it cuts the power. */
  function RunHardResetSend(p: Port, i: Input): Port {
    var q := CountReset(p);
    if q.counters.hardResetSent then q else TrySendingReset(q, i)
  }

  function RunHardResetExecute(p: Port, i: Input): Port {
    ExecuteHardReset(if p.last == SnkSwapStandby then SetPull(p, Rd) else p, i.clock.run)
  }

  /** The handlers of the source states up to the first advertisement. */
  function RunSourceAttach(p: Port, i: Input): Port {
    if p.state == SrcDisconnected then RunSrcDisconnected(p, i)
    else if p.state == SrcDisconnectedDebounce then RunSrcDebounce(p, i)
    else if p.state == SrcHardResetRecover then RunSrcHardResetRecover(p, i)
    else RunSrcStartup(p, i)
  }

  /** The handlers of the source states from the advertisement to PS_RDY. */
  function RunSourceContract(p: Port, i: Input): Port {
    if p.state == SrcDiscovery then RunSrcDiscovery(p, i)
    else if p.state == SrcNegociate then RunSrcNegociate(p, i)
    else if p.state == SrcAccepted then RunSrcAccepted(p, i)
    else if p.state == SrcPowered then RunSrcPowered(p, i)
    else RunSrcTransition(p)
  }

  /** The handlers of the source states with a contract in place or being swapped away. */
  function RunSourceReady(p: Port, i: Input): Port {
    if p.state == SrcReady then RunSrcReady(p, i)
    else if p.state == SrcGetSinkCap then RunSrcGetSinkCap(p, i)
    else if p.state == SrcSwapInit then SendSwap(p, PR_SWAP, SrcReady, i)
    else if p.state == SrcSwapSnkDisable then RunSrcSwapSnkDisable(p, i)
    else if p.state == SrcSwapSrcDisable then RunSrcSwapSrcDisable(p, i)
    else RunSrcSwapStandby(p, i)
  }

  /** The handlers of the sink states before a request. */
  function RunSinkAttach(p: Port, i: Input): Port {
    if p.state == SnkDisconnected then RunSnkDisconnected(p, i)
    else if p.state == SnkDisconnectedDebounce then RunSnkDebounce(p, i)
    else if p.state == SnkHardResetRecover then RunSnkHardResetRecover(p, i)
    else RunSnkDiscovery(p, i)
  }

  /** The handlers of the sink states from the request on, and of the swap to source. */
  function RunSinkContract(p: Port, i: Input): Port
    requires Readable(i)
  {
    if p.state == SnkRequested then RunSnkRequested(p, i)
    else if p.state == SnkTransition then RunSnkTransition(p, i)
    else if p.state == SnkReady then RunSnkReady(p, i)
    else if p.state == SnkSwapInit then SendSwap(p, PR_SWAP, SnkReady, i)
    else if p.state == SnkSwapSnkDisable then RunSnkSwapSnkDisable(p)
    else if p.state == SnkSwapSrcDisable then RunSnkSwapSrcDisable(p, i)
    else if p.state == SnkSwapStandby then RunSnkSwapStandby(p, i)
    else RunSnkSwapComplete(p)
  }

  /** The handlers of the states that belong to neither role. */
  function RunShared(p: Port, i: Input): Port {
    if p.state == Suspended then SetState(p, SnkDisconnected)
    else if p.state == DrSwap then SendSwap(p, DR_SWAP, ReadyState(p), i)
    else if p.state == SoftReset then RunSoftReset(p, i)
    else if p.state == HardResetSend then RunHardResetSend(p, i)
    else if p.state == HardResetExecute then RunHardResetExecute(p, i)
    else p
  }

  predicate SourceState(s: State) {
    SrcDisconnected <= s <= SrcGetSinkCap || SrcSwapInit <= s <= SrcSwapStandby
  }

  predicate SinkState(s: State) { SnkDisconnected <= s <= SnkSwapComplete }

  /** The switch over the state. */
  function Handle(p: Port, i: Input): Port
    requires Readable(i)
  {
    if SrcDisconnected <= p.state <= SrcStartup then RunSourceAttach(p, i)
    else if SrcDiscovery <= p.state <= SrcTransition then RunSourceContract(p, i)
    else if SourceState(p.state) then RunSourceReady(p, i)
    else if SnkDisconnected <= p.state <= SnkDiscovery then RunSinkAttach(p, i)
    else if SinkState(p.state) then RunSinkContract(p, i)
    else RunShared(p, i)
  }

  /** After the switch, the state it was entered with is the last one. */
  function HandlerPhase(p: Port, i: Input): Port
    requires Readable(i)
  {
    Closed(Handle(p, i), p, i)
  }

  function Closed(q: Port, p: Port, i: Input): Port {
    q.(last := p.state, history := q.history.(steady := Observe(p, i)))
  }

  /** What this pass adds to the record of steady CC classifications. */
  function Observe(p: Port, i: Input): Steady {
    var c := if p.state == SrcDisconnectedDebounce then ClassifySource(i.cc1, i.cc2)
             else if p.state == SnkDisconnectedDebounce then ClassifySink(i.cc1, i.cc2)
             else CcNone;
    if Entered(p) || c != p.history.steady.state then Steady(c, i.clock.run) else p.history.steady
  }

  // ---- Timer and detach checks ----

  function TimerPhase(p: Port, end: nat): Port {
    var q := p.(history := p.history.(now := end));
    if q.timer.at != 0 && end >= q.timer.at then SetState(q, q.timer.next) else q
  }

  /** A source looks at its CC line, a sink at VBUS. */
  predicate StaysAttached(p: Port, i: Input) {
    if p.role.Source? then !(if p.polarity then i.ccEnd2 else i.ccEnd1).Open? else i.vbusEnd
  }

  function DetachPhase(p: Port, i: Input): Port {
    if !Connected(p) || PowerSwapping(p.state) || StaysAttached(p, i) then p
    else if p.role.Source? then SetState(p, SrcDisconnected)
    else if p.state != SnkHardResetRecover && p.state != HardResetExecute then SetState(p, SnkDisconnected)
    else p
  }

  // ---- One pass ----

  /** The button writes the state directly and leaves the timer alone. */
  function ButtonPhase(p: Port, reset: bool): Port {
    if reset then p.(state := SoftReset) else p
  }

  /** Everything before the received message is looked at. */
  function BeforeMessage(p: Port, i: Input): Port {
    BoardPhase(VdmPhase(ButtonPhase(p.(sent := NoFrames), i.reset), i.clock.vdm), i.boardOk, i.clock.board)
  }

  /** Everything before the switch. */
  function BeforeHandler(p: Port, i: Input): Port
    requires Readable(i)
  {
    MessagePhase(BeforeMessage(p, i), i)
  }

  /** The switch and the checks after it. */
  function FromSwitch(p: Port, i: Input): Port
    requires Readable(i)
  {
    DetachPhase(TimerPhase(HandlerPhase(p, i), i.clock.end), i)
  }

  /** pd_run_state_machine. The frames sent during the pass are left in `sent`. */
  function Pass(p: Port, i: Input): Port
    requires Readable(i)
  {
    FromSwitch(BeforeHandler(p, i), i)
  }

  // ---- Initial state ----

  /** pd_init with a working TCPC: a silent sink, supply off. */
  predicate Initial(p: Port) {
    && p.role.Sink? && p.state == SnkDisconnected && p.last == Disabled && p.timer == NO_TIMER
    && p.flags == NO_FLAGS && p.vdm.state.VdmDone?
    && p.outputs == Outputs(Rd, false, false, 0, Power(0, 0), Sink, Ufp)
    && p.msgId == 0 && p.tx.TxSuccess? && p.sent == NoFrames
    && p.cc == CcTrack(CcNone, 0) && p.request == SinkRequest(Power(0, 0), false, 0)
    && p.counters == Counters(0, 0, false, 0, T_DRP_SNK, false)
    && p.history == History(0, 0, 0, Switch(0, 0, 0), 0, Steady(CcNone, 0))
  }
}
