/** The state of one PD port, its inputs and its elementary operations
    (struct pd_protocol and the file-level statics of usb_pd_protocol.cpp). */
module PortState {
  import opened PdWords
  import opened PowerPolicy

  /** enum pd_states, in the order of the enumeration. */
  newtype State = s: int | 0 <= s < 33

  const Disabled: State := 0
  const Suspended: State := 1
  const SnkDisconnected: State := 2
  const SnkDisconnectedDebounce: State := 3
  const SnkHardResetRecover: State := 4
  const SnkDiscovery: State := 5
  const SnkRequested: State := 6
  const SnkTransition: State := 7
  const SnkReady: State := 8
  const SnkSwapInit: State := 9
  const SnkSwapSnkDisable: State := 10
  const SnkSwapSrcDisable: State := 11
  const SnkSwapStandby: State := 12
  const SnkSwapComplete: State := 13
  const SrcDisconnected: State := 14
  const SrcDisconnectedDebounce: State := 15
  const SrcHardResetRecover: State := 16
  const SrcStartup: State := 17
  const SrcDiscovery: State := 18
  const SrcNegociate: State := 19
  const SrcAccepted: State := 20
  const SrcPowered: State := 21
  const SrcTransition: State := 22
  const SrcReady: State := 23
  const SrcGetSinkCap: State := 24
  const DrSwap: State := 25
  const SrcSwapInit: State := 26
  const SrcSwapSnkDisable: State := 27
  const SrcSwapSrcDisable: State := 28
  const SrcSwapStandby: State := 29
  const SoftReset: State := 30
  const HardResetSend: State := 31
  const HardResetExecute: State := 32

  // Timer values in microseconds.
  const T_SINK_WAIT_CAP: nat := 600_000
  const T_SINK_TRANSITION: nat := 35_000
  const T_SENDER_RESPONSE: nat := 100_000
  const T_PS_TRANSITION: nat := 500_000
  const T_PS_SOURCE_ON: nat := 480_000
  const T_PS_SOURCE_OFF: nat := 920_000
  const T_PS_HARD_RESET: nat := 25_000
  const T_CC_DEBOUNCE: nat := 100_000
  const T_DRP_SNK: nat := 40_000
  const T_DRP_SRC: nat := 30_000
  const T_SRC_RECOVER: nat := 760_000
  const T_SRC_RECOVER_MAX: nat := 1_000_000
  const T_SRC_TURN_ON: nat := 275_000
  const T_SAFE_0V: nat := 650_000
  const T_NO_RESPONSE: nat := 5_500_000
  const T_SINK_REQUEST: nat := 100_000
  const T_VDM_BUSY: nat := 100_000
  const T_VDM_E_MODE: nat := 25_000
  const T_VDM_RCVR_RSP: nat := 15_000
  const T_VDM_SNDR_RSP: nat := 30_000
  const T_VDM_WAIT_MODE_E: nat := 100_000
  const T_UNSTRUCTURED_VDM: nat := 500_000
  const SUPPLY_TURN_ON: nat := 10_000
  const SUPPLY_TURN_OFF: nat := 20_000

  const HARD_RESET_COUNT: nat := 2
  const CAPS_COUNT: nat := 50
  const SNK_CAP_RETRIES: nat := 3

  /** A timeout of 0 means that no timer runs. */
  datatype Timer = Timer(at: nat, next: State)

  const NO_TIMER: Timer := Timer(0, Disabled)

  datatype Flags = Flags(
    pingEnabled: bool,
    partnerDrPower: bool,
    partnerDrData: bool,
    checkIdentity: bool,
    snkCapRecvd: bool,
    explicitContract: bool,
    previousPdConn: bool,
    checkPrRole: bool,
    checkDrRole: bool,
    partnerExtPower: bool,
    partnerUsbComm: bool,
    updateSrcCaps: bool,
    tsDtsPartner: bool)

  const NO_FLAGS := Flags(false, false, false, false, false, false, false, false, false,
                          false, false, false, false)

  /** What the two CC lines were last classified as. */
  datatype CcState = CcNone | AudioAcc | DebugAcc | UfpAttached | DfpAttached

  datatype CcTrack = CcTrack(state: CcState, debounce: nat)

  datatype TxStatus = TxSuccess | TxDiscarded | TxFailed

  /** The sink's view of its last request message. */
  datatype SinkRequest = SinkRequest(limit: Power, pending: bool, previousMv: nat)

  datatype VdmState = VdmErrBusy | VdmErrSend | VdmErrTimeout | VdmDone | VdmReady | VdmBusy | VdmWaitRspBusy

  /** The queued vendor-defined message: at most seven objects, at least one. */
  type VdoList = s: seq<Word> | 1 <= |s| <= 7 witness [0]

  datatype Vdm = Vdm(state: VdmState, timeout: nat, data: VdoList, retry: Word)

  datatype Counters = Counters(
    caps: nat,
    hardReset: nat,
    hardResetSent: bool,
    snkCap: nat,
    nextRoleSwap: nat,
    vbusWentOff: bool)

  datatype Pull = Rp | Rd

  /** What the port drives: the CC pull and the receiver of the TCPC, the supply switch,
      the position of the supplied object, the input limit, and the roles that the TCPC's
      automatic acknowledgement carries. */
  datatype Outputs = Outputs(pull: Pull, rx: bool, vbusOn: bool, supplied: nat, limit: Power,
                             headRole: Role, headDataRole: DataRole)

  type MsgId = n: nat | n < 8

  type Kind = k: nat | k < 16

  type Objects = s: seq<Word> | |s| <= MAX_OBJECTS witness []

  /** A message as the send functions describe it, before its header is packed. */
  datatype RawPacket = Packet(kind: Kind, role: Role, dataRole: DataRole, id: MsgId, data: Objects) {
    /** The header word and the objects handed to the driver; the header gives back every
        field. */
    function Encode(): (m: Message)
      ensures m.Valid() && m.data == data
      ensures HeaderKind(m.header) == kind && HeaderId(m.header) == id && HeaderRev(m.header) == REV20
      ensures HeaderRoleBit(m.header) == RoleBit(role) && HeaderDataRoleBit(m.header) == DataRoleBit(dataRole)
    {
      HeaderRoundTrip(kind, role, dataRole, id, |data|);
      Message(Header(kind, role, dataRole, id, |data|), data)
    }

    predicate IsControl(k: Kind) { kind == k && data == [] }

    predicate IsData(k: Kind) { kind == k && data != [] }
  }

  /** Whatever the port sends, a Soft_Reset carries message ID 0. */
  type Packet = k: RawPacket | k.kind == SOFT_RESET ==> k.id == 0
    witness RawPacket.Packet(PING, Sink, Ufp, 0, [])

  /** What is handed to the TCPC for transmission. */
  datatype Frame = Sop(packet: Packet) | HardResetSignal | BistCarrier

  /** The frames of one pass, latest last. */
  datatype Frames = NoFrames | Add(earlier: Frames, latest: Frame)

  /** When and for which granted request the voltage was last switched; position 0 means
      never. */
  datatype Switch = Switch(pos: nat, acceptedAt: nat, at: nat)

  /** The classification of CC shared by the last uninterrupted passes of a debounce
      state, and the clock value of the first of them. */
  datatype Steady = Steady(state: CcState, since: nat)

  /** Bookkeeping for stating properties; no branch depends on it. `now` is the last clock
      value read, `acceptedAt` (the first clock value read after the Accept went out) and
      `acceptedPos` belong to the last granted request,
      `requestedPos` to the last request sent. */
  datatype History = History(
    now: nat,
    acceptedAt: nat,
    acceptedPos: nat,
    switched: Switch,
    requestedPos: nat,
    steady: Steady)

  datatype Port = Port(
    role: Role,
    dataRole: DataRole,
    msgId: MsgId,
    polarity: bool,
    state: State,
    last: State,
    timer: Timer,
    flags: Flags,
    srcRecover: nat,
    cc: CcTrack,
    tx: TxStatus,
    requestedIdx: nat,
    request: SinkRequest,
    vdm: Vdm,
    counters: Counters,
    caps: CapTable,
    srcPdos: Objects,
    snkPdos: Objects,
    outputs: Outputs,
    sent: Frames,
    history: History)

  // ---- Inputs of one pass of pd_run_state_machine ----

  datatype Drp = ToggleOn | ToggleOff | Freeze | ForceSink | ForceSource

  /** The clock readings of one pass, in the order in which the phases take them. */
  datatype Clock = Clock(vdm: nat, board: nat, msg: nat, run: nat, run2: nat, end: nat)

  /** Everything one pass reads from outside: the button, the board hooks, at most one
      received message, CC and VBUS readings, and the clock. */
  datatype Input = Input(
    reset: bool,
    boardOk: bool,
    msg: Option<Message>,
    cc1: Cc,
    cc2: Cc,
    ccEnd1: Cc,
    ccEnd2: Cc,
    vbus1: bool,
    vbus2: bool,
    vbusEnd: bool,
    supplyOk: bool,
    allowPowerSwap: bool,
    allowDataSwap: bool,
    wantPowerSwap: bool,
    wantDataSwap: bool,
    drp: Drp,
    capIndex: nat,
    clock: Clock)

  /** Received messages carry as many objects as their header says, and the selected
      slot is one of the seven. */
  predicate Readable(i: Input) {
    && (i.msg.Some? ==> i.msg.value.Valid())
    && i.capIndex < MAX_OBJECTS
  }

  /** The clock is positive and does not run backwards within a pass. */
  predicate Ordered(c: Clock) {
    0 < c.vdm <= c.board <= c.msg <= c.run <= c.run2 <= c.end
  }

  /** Nor between passes. */
  predicate Timely(now: nat, c: Clock) { now <= c.vdm && Ordered(c) }

  // ---- Elementary operations ----

  function SetTimer(p: Port, at: nat, next: State): Port {
    p.(timer := Timer(at, next))
  }

  function SetLimit(p: Port, limit: Power): Port {
    p.(outputs := p.outputs.(limit := limit))
  }

  function SupplyOff(p: Port): Port {
    p.(outputs := p.outputs.(vbusOn := false))
  }

  function SupplyOn(p: Port): Port {
    p.(outputs := p.outputs.(vbusOn := true))
  }

  function SetPull(p: Port, pull: Pull): Port {
    p.(outputs := p.outputs.(pull := pull))
  }

  function SetRx(p: Port, on: bool): Port {
    p.(outputs := p.outputs.(rx := on))
  }

  /** pd_update_roles. */
  function UpdateRoles(p: Port): Port {
    p.(outputs := p.outputs.(headRole := p.role, headDataRole := p.dataRole))
  }

  function SetDataRole(p: Port, to: DataRole): Port {
    UpdateRoles(p.(dataRole := to))
  }

  /** set_state: always stops the timer; leaving for a disconnected state clears the input
      limit, cuts the supply of a source and silences the receiver, unless the port only
      toggles between the two disconnected states. */
  function SetState(p: Port, next: State): (q: Port)
    ensures q == p.(timer := NO_TIMER, state := next, outputs := q.outputs)
    ensures q.outputs.pull == p.outputs.pull && q.outputs.supplied == p.outputs.supplied
    ensures next != SrcDisconnected && next != SnkDisconnected ==> q.outputs == p.outputs
  {
    p.(timer := NO_TIMER, state := next,
       outputs := if Detaches(p.state, next) then
                    p.outputs.(limit := Power(0, 0), rx := false,
                               vbusOn := p.outputs.vbusOn && p.role.Sink?)
                  else p.outputs)
  }

  predicate Detaches(s: State, next: State) {
    && s != next
    && (next == SrcDisconnected || next == SnkDisconnected)
    && !(s == SnkDisconnected && next == SrcDisconnected)
    && !(s == SrcDisconnected && next == SnkDisconnected)
  }

  predicate Connected(p: Port) {
    && p.state != Disabled
    && if p.role.Sink? then p.state != SnkDisconnected && p.state != SnkDisconnectedDebounce
       else p.state != SrcDisconnected && p.state != SrcDisconnectedDebounce
  }

  predicate PowerSwapping(s: State) {
    SnkSwapSnkDisable <= s <= SnkSwapComplete || SrcSwapSnkDisable <= s <= SrcSwapStandby
  }

  function ReadyState(p: Port): State {
    if p.role.Sink? then SnkReady else SrcReady
  }

  // ---- Transmission ----

  /** pd_transmit does not wait: its result is the status the last alert left behind. */
  predicate TxOk(p: Port) { p.tx.TxSuccess? }

  function Send(p: Port, f: Frame): Port {
    p.(sent := Add(p.sent, f))
  }

  function SendControl(p: Port, kind: Kind): Port
    requires kind == SOFT_RESET ==> p.msgId == 0
  {
    Send(p, Sop(RawPacket.Packet(kind, p.role, p.dataRole, p.msgId, [])))
  }

  function SendData(p: Port, kind: Kind, data: Objects): Port
    requires data != [] && kind != SOFT_RESET
  {
    Send(p, Sop(RawPacket.Packet(kind, p.role, p.dataRole, p.msgId, data)))
  }

  /** With no source objects the port answers Reject. */
  function SendSourceCap(p: Port): Port {
    if |p.srcPdos| == 0 then SendControl(p, REJECT) else SendData(p, SOURCE_CAP, p.srcPdos)
  }

  /** With no sink objects the count is 0, which makes the message a control message. */
  function SendSinkCap(p: Port): Port {
    if |p.snkPdos| == 0 then SendControl(p, SINK_CAP) else SendData(p, SINK_CAP, p.snkPdos)
  }
}
