/** The register discipline of FUSB302.cpp: read-modify-write sequences on the chip's
    registers against the driver's shadow state, as functions on values. The register file
    returns what was last written; `log` records every value written to SWITCHES0, so that
    properties can speak of the switch matrix between the writes of one call. */
module Fusb302Registers {
  import opened PdWords

  // Register addresses.
  const SWITCHES0: nat := 0x02
  const SWITCHES1: nat := 0x03
  const MEASURE: nat := 0x04
  const CONTROL0: nat := 0x06
  const CONTROL1: nat := 0x07
  const CONTROL2: nat := 0x08
  const CONTROL3: nat := 0x09
  const MASK: nat := 0x0A
  const POWER: nat := 0x0B
  const MASKA: nat := 0x0E
  const MASKB: nat := 0x0F
  const REGISTERS: nat := 0x10

  // SWITCHES0.
  const CC2_PU: bv8 := 0x80
  const CC1_PU: bv8 := 0x40
  const VCONN_CC2: bv8 := 0x20
  const VCONN_CC1: bv8 := 0x10
  const MEAS_CC2: bv8 := 0x08
  const MEAS_CC1: bv8 := 0x04
  const CC2_PD: bv8 := 0x02
  const CC1_PD: bv8 := 0x01

  // SWITCHES1.
  const POWERROLE: bv8 := 0x80
  const DATAROLE: bv8 := 0x10
  const AUTO_GCRC: bv8 := 0x04
  const TXCC2: bv8 := 0x02
  const TXCC1: bv8 := 0x01

  // The other registers.
  const TX_FLUSH: bv8 := 0x40
  const INT_MASK: bv8 := 0x20
  const HOST_CUR: bv8 := 0x0C
  const TX_START: bv8 := 0x01
  const BIST_MODE2: bv8 := 0x10
  const RX_FLUSH: bv8 := 0x04
  const TOGGLE: bv8 := 0x01
  const SEND_HARDRESET: bv8 := 0x40
  const AUTO_RETRY: bv8 := 0x01
  const RETRIES: bv8 := 0x06
  const BC_LVL: bv8 := 0x01
  const MASK_BITS: bv8 := 0xE4
  const MASKA_BITS: bv8 := 0xE2
  const MASKB_BITS: bv8 := 0xFE
  const POWER_ALL: bv8 := 0x0F

  /** SWITCHES0 after a software reset: both pull-downs. */
  const RESET_SWITCHES0: bv8 := 0x03

  /** What a software reset leaves: both pull-downs, roles Sink and UFP, nothing to send. */
  predicate SoftwareReset(boot: Registers) {
    && boot[SWITCHES0] == RESET_SWITCHES0 && boot[SWITCHES1] & ROLES == 0
    && boot[CONTROL1] == 0 && !Has(boot[CONTROL3], SEND_HARDRESET)
  }

  type Registers = r: seq<bv8> | |r| == REGISTERS witness seq(REGISTERS, _ => 0)

  datatype CcPull = PullRa | PullRp | PullRd | PullOpen

  datatype RpValue = RpUsb | Rp1A5 | Rp3A0

  /** The comparator thresholds, in MEASURE steps of 42 mV. */
  datatype Thresholds = Thresholds(vnc: bv8, rd: bv8)

  /** The registers and struct fusb302_chip_state. A polarity of -1 is not known yet;
      otherwise 0 selects CC1 and anything else CC2. */
  datatype Driver = Driver(
    regs: Registers,
    polarity: int,
    vconn: bool,
    pullUp: bool,
    rx: bool,
    thresholds: Thresholds,
    log: seq<bv8>)

  predicate Has(reg: bv8, bits: bv8) { reg & bits != 0 }

  function With(reg: bv8, bits: bv8): bv8 { reg | bits }

  function Without(reg: bv8, bits: bv8): bv8 { reg & !bits }

  function Write(d: Driver, reg: nat, value: bv8): Driver
    requires reg < REGISTERS
  {
    d.(regs := d.regs[reg := value], log := if reg == SWITCHES0 then d.log + [value] else d.log)
  }

  datatype TxKind = TxSop | TxHardReset | TxBistMode2

  /** What a write makes the chip signal at once: a hard reset by its bit in CONTROL3, the
      BIST carrier by starting the transmitter in BIST mode. */
  function Triggers(regs: Registers, reg: nat, value: bv8): seq<TxKind> {
    if reg == CONTROL3 && Has(value, SEND_HARDRESET) then [TxHardReset]
    else if reg == CONTROL0 && Has(value, TX_START) && Has(regs[CONTROL1], BIST_MODE2) then [TxBistMode2]
    else []
  }

  // ---- set_polarity, set_vconn, set_msg_header ----

  function PolaritySwitches0(reg: bv8, polarity: int, vconn: bool): bv8 {
    var clear := Without(reg, VCONN_CC1 | VCONN_CC2 | MEAS_CC1 | MEAS_CC2);
    var powered := if !vconn then clear else With(clear, if polarity != 0 then VCONN_CC1 else VCONN_CC2);
    With(powered, if polarity != 0 then MEAS_CC2 else MEAS_CC1)
  }

  function PolaritySwitches1(reg: bv8, polarity: int): bv8 {
    With(Without(reg, TXCC1 | TXCC2), if polarity != 0 then TXCC2 else TXCC1)
  }

  function SetPolarity(d: Driver, polarity: int): Driver {
    var e := Write(d, SWITCHES0, PolaritySwitches0(d.regs[SWITCHES0], polarity, d.vconn));
    Write(e, SWITCHES1, PolaritySwitches1(e.regs[SWITCHES1], polarity)).(polarity := polarity)
  }

  function SetVconn(d: Driver, on: bool): Driver {
    var e := d.(vconn := on);
    if on then SetPolarity(e, e.polarity)
    else Write(e, SWITCHES0, Without(e.regs[SWITCHES0], VCONN_CC1 | VCONN_CC2))
  }

  function SetMsgHeader(d: Driver, role: Role, dataRole: DataRole): Driver {
    var clear := Without(d.regs[SWITCHES1], POWERROLE | DATAROLE);
    var power := if role.Source? then With(clear, POWERROLE) else clear;
    Write(d, SWITCHES1, if dataRole.Dfp? then With(power, DATAROLE) else power)
  }

  // ---- set_cc ----

  function PullUpSwitches(reg: bv8, polarity: int, vconn: bool): bv8 {
    var up := With(Without(reg, CC1_PU | CC2_PU | CC1_PD | CC2_PD | VCONN_CC1 | VCONN_CC2), CC1_PU | CC2_PU);
    if !vconn then up else With(up, if polarity != 0 then VCONN_CC1 else VCONN_CC2)
  }

  function StopToggling(d: Driver): Driver {
    Write(d, CONTROL2, Without(d.regs[CONTROL2], TOGGLE))
  }

  /** An unsupported pull changes nothing. */
  function SetCc(d: Driver, pull: CcPull): Driver {
    match pull
    case PullRp =>
      Write(d, SWITCHES0, PullUpSwitches(d.regs[SWITCHES0], d.polarity, d.vconn)).(pullUp := true)
    case PullRd =>
      var e := StopToggling(d);
      Write(e, SWITCHES0, With(Without(e.regs[SWITCHES0], CC1_PU | CC2_PU), CC1_PD | CC2_PD)).(pullUp := false)
    case PullOpen =>
      var e := StopToggling(d);
      Write(e, SWITCHES0, Without(e.regs[SWITCHES0], CC1_PU | CC2_PU | CC1_PD | CC2_PD)).(pullUp := false)
    case PullRa => d
  }

  // ---- set_rx_enable ----

  function AutoGoodCrc(d: Driver, on: bool): Driver {
    var reg := d.regs[SWITCHES1];
    Write(d, SWITCHES1, if on then With(reg, AUTO_GCRC) else Without(reg, AUTO_GCRC))
  }

  /** Fails, with only the shadow flag set, while the polarity is not 0 or 1. */
  function SetRxEnable(d: Driver, on: bool): (r: (Driver, bool)) {
    var e := d.(rx := on);
    var clear := Without(e.regs[SWITCHES0], MEAS_CC1 | MEAS_CC2);
    if on && e.polarity != 0 && e.polarity != 1 then (e, false)
    else
      var f := Write(e, SWITCHES0,
                     if !on then clear else With(clear, if e.polarity == 0 then MEAS_CC1 else MEAS_CC2));
      var mask := f.regs[MASK];
      var g := Write(f, MASK, if on then With(mask, BC_LVL) else Without(mask, BC_LVL));
      (AutoGoodCrc(if on then Write(g, CONTROL1, RX_FLUSH) else g, on), true)
  }

  // ---- select_rp_value ----

  function HostCurrent(rp: RpValue): bv8 {
    match rp
    case RpUsb => 0x04
    case Rp1A5 => 0x08
    case Rp3A0 => 0x0C
  }

  function ThresholdsOf(rp: RpValue): Thresholds {
    match rp
    case RpUsb => Thresholds(38, 4)
    case Rp1A5 => Thresholds(38, 9)
    case Rp3A0 => Thresholds(61, 19)
  }

  function SelectRp(d: Driver, rp: RpValue): Driver {
    Write(d.(thresholds := ThresholdsOf(rp)), CONTROL0,
          With(Without(d.regs[CONTROL0], HOST_CUR), HostCurrent(rp)))
  }

  // ---- get_cc ----

  /** The voltages of the two lines during one get_cc, in mV. */
  datatype Volts = Volts(cc1: nat, cc2: nat)

  /** The comparator's threshold for a value of MEASURE: six bits in steps of 42 mV. */
  function Threshold(measure: bv8): nat { 42 * ((measure & 0x3F) as nat) }

  /** The line that is connected to the measuring circuits. */
  function Sensed(switches0: bv8, v: Volts): nat { if Has(switches0, MEAS_CC1) then v.cc1 else v.cc2 }

  /** The comparator: whether the connected line is above the threshold set. */
  predicate Comparator(regs: Registers, v: Volts) {
    Sensed(regs[SWITCHES0], v) > Threshold(regs[MEASURE])
  }

  /** The two-bit level of the connected line, with the chip's limits of 200, 660 and
      1230 mV. */
  function BcLevel(regs: Registers, v: Volts): bv2 {
    var mv := Sensed(regs[SWITCHES0], v);
    if mv < 200 then 0 else if mv < 660 then 1 else if mv < 1230 then 2 else 3
  }

  /** fusb302_convert_bc_lvl as it is called: for a sink. */
  function SinkLevel(level: bv2): Cc {
    if level == 1 then SnkDef else if level == 2 then Snk1A5 else if level == 3 then Snk3A0 else Open
  }

  function MeasureSource(d: Driver, meas: bv8, aboveVnc: bool): Driver {
    var saved := d.regs[SWITCHES0];
    var reg := With(With(Without(saved, MEAS_CC1 | MEAS_CC2), if meas == MEAS_CC1 then CC1_PU else CC2_PU), meas);
    var e := Write(Write(d, SWITCHES0, reg), MEASURE, d.thresholds.vnc);
    var f := if aboveVnc then e else Write(e, MEASURE, d.thresholds.rd);
    Write(f, SWITCHES0, saved)
  }

  function MeasureSink(d: Driver): Driver {
    var saved := d.regs[SWITCHES0];
    var e := Write(d, SWITCHES0, With(Without(saved, MEAS_CC2), MEAS_CC1));
    var f := Write(e, SWITCHES0, With(Without(e.regs[SWITCHES0], MEAS_CC1), MEAS_CC2));
    var reg := f.regs[SWITCHES0];
    var one := if Has(saved, MEAS_CC1) then With(reg, MEAS_CC1) else Without(reg, MEAS_CC1);
    Write(f, SWITCHES0, if Has(saved, MEAS_CC2) then With(one, MEAS_CC2) else Without(one, MEAS_CC2))
  }

  /** The driver after get_cc. With VCONN on, a source measures only its CC line. */
  function Measured(d: Driver, v: Volts): Driver {
    var above1, above2 := v.cc1 > Threshold(d.thresholds.vnc), v.cc2 > Threshold(d.thresholds.vnc);
    if !d.pullUp then MeasureSink(d)
    else if !d.vconn then MeasureSource(MeasureSource(d, MEAS_CC1, above1), MEAS_CC2, above2)
    else if d.polarity != 0 then MeasureSource(d, MEAS_CC2, above2)
    else MeasureSource(d, MEAS_CC1, above1)
  }

  /** What a source must take a line of `mv` for: open above the first threshold, a sink
      above the second, and a powered cable or an accessory below. */
  predicate SourceReads(t: Thresholds, mv: nat, level: Cc) {
    && (level.Open? <==> mv > Threshold(t.vnc))
    && (level.RdPulled? <==> Threshold(t.rd) < mv <= Threshold(t.vnc))
    && (level.Ra? <==> mv <= Threshold(t.rd) && mv <= Threshold(t.vnc))
  }

  /** What a sink must take a line of `mv` for: the current the source advertises with it. */
  predicate SinkReads(mv: nat, level: Cc) {
    && (level.Open? <==> mv < 200) && (level.SnkDef? <==> 200 <= mv < 660)
    && (level.Snk1A5? <==> 660 <= mv < 1230) && (level.Snk3A0? <==> mv >= 1230)
  }

  /** The readings of get_cc. With VCONN on, a source reads only its CC line, and the caller
      keeps the other value it had. */
  predicate ReadsLines(d: Driver, v: Volts, old1: Cc, old2: Cc, cc1: Cc, cc2: Cc) {
    if !d.pullUp then SinkReads(v.cc1, cc1) && SinkReads(v.cc2, cc2)
    else
      && (if d.vconn && d.polarity != 0 then cc1 == old1 else SourceReads(d.thresholds, v.cc1, cc1))
      && (if d.vconn && d.polarity == 0 then cc2 == old2 else SourceReads(d.thresholds, v.cc2, cc2))
  }

  // ---- transmit, apart from the FIFO contents ----

  function Transmit(d: Driver, kind: TxKind): Driver {
    var e := Write(d, CONTROL0, With(d.regs[CONTROL0], TX_FLUSH));
    match kind
    case TxSop => e
    case TxHardReset => Write(e, CONTROL3, With(e.regs[CONTROL3], SEND_HARDRESET))
    case TxBistMode2 =>
      var f := Write(e, CONTROL1, With(e.regs[CONTROL1], BIST_MODE2));
      var g := Write(f, CONTROL0, With(f.regs[CONTROL0], TX_START));
      Write(g, CONTROL1, Without(g.regs[CONTROL1], BIST_MODE2))
  }

  // ---- init ----

  /** The driver's memory at power-on. */
  predicate Fresh(d: Driver) { !d.vconn && !d.pullUp && !d.rx && d.log == [] }

  /** Retries, interrupt masks, interrupt enable. */
  function Configure(d: Driver): Driver {
    var e := Write(d, CONTROL3, With(d.regs[CONTROL3], AUTO_RETRY | RETRIES));
    var f := Write(Write(Write(e, MASK, MASK_BITS), MASKA, MASKA_BITS), MASKB, MASKB_BITS);
    Write(f, CONTROL0, Without(f.regs[CONTROL0], INT_MASK))
  }

  /** fusb302_tcpm_init; `boot` is the register file a software reset leaves. */
  function Init(d: Driver, boot: Registers): Driver {
    var e := Configure(d.(polarity := -1, thresholds := ThresholdsOf(RpUsb), regs := boot));
    Write(AutoGoodCrc(SetVconn(SetPolarity(e, 0), false), false), POWER, POWER_ALL)
  }

  // ---- What every call keeps ----

  /** No line is pulled up and down at once, and at most one line gets VCONN. */
  predicate SwitchesSafe(reg: bv8) {
    && !(Has(reg, CC1_PU) && Has(reg, CC1_PD))
    && !(Has(reg, CC2_PU) && Has(reg, CC2_PD))
    && !(Has(reg, VCONN_CC1) && Has(reg, VCONN_CC2))
  }

  /** VCONN is on exactly the line that is not the CC line while it is enabled, and
      nowhere otherwise. */
  predicate VconnPlaced(d: Driver) {
    var reg := d.regs[SWITCHES0];
    (Has(reg, VCONN_CC1) <==> d.vconn && d.polarity == 1) && (Has(reg, VCONN_CC2) <==> d.vconn && d.polarity == 0)
  }

  /** A source presents Rp on both lines and no Rd; otherwise there is no Rp. */
  predicate PullsMatch(d: Driver) {
    var reg := d.regs[SWITCHES0];
    && (Has(reg, CC1_PU) <==> d.pullUp) && (Has(reg, CC2_PU) <==> d.pullUp)
    && (d.pullUp ==> !Has(reg, CC1_PD) && !Has(reg, CC2_PD))
  }

  /** The receiver listens on the CC line, acknowledges automatically and does not raise
      CC level interrupts exactly while it is enabled; the transmitter is always on the
      CC line. */
  predicate Receiving(d: Driver) {
    var reg := d.regs[SWITCHES0];
    && (d.rx ==> (Has(reg, MEAS_CC1) <==> d.polarity == 0) && (Has(reg, MEAS_CC2) <==> d.polarity == 1))
    && (Has(d.regs[SWITCHES1], TXCC1) <==> d.polarity == 0) && (Has(d.regs[SWITCHES1], TXCC2) <==> d.polarity == 1)
    && (Has(d.regs[SWITCHES1], AUTO_GCRC) <==> d.rx)
    && (Has(d.regs[MASK], BC_LVL) <==> d.rx)
  }

  predicate Coherent(d: Driver) {
    && (d.polarity == 0 || d.polarity == 1)
    && VconnPlaced(d) && PullsMatch(d) && Receiving(d)
  }

  const PULLS: bv8 := 0xC3

  /** The four pull bits. */
  function Pulls(d: Driver): bv8 { d.regs[SWITCHES0] & PULLS }

  /** Exactly Rp on both lines, or exactly Rd on both lines. */
  predicate Presents(d: Driver, up: bool) {
    Pulls(d) == if up then CC1_PU | CC2_PU else CC1_PD | CC2_PD
  }

  ghost predicate LogSafe(d: Driver) {
    forall k :: 0 <= k < |d.log| ==> SwitchesSafe(d.log[k])
  }

  /** BIST mode is off, so that nothing but the hard reset bit starts a signal. */
  predicate Idle(d: Driver) { !Has(d.regs[CONTROL1], BIST_MODE2) }

  /** The roles that the automatic GoodCRC carries. */
  predicate Heads(d: Driver, role: Role, dataRole: DataRole) {
    && (Has(d.regs[SWITCHES1], POWERROLE) <==> role.Source?)
    && (Has(d.regs[SWITCHES1], DATAROLE) <==> dataRole.Dfp?)
  }

  const ROLES: bv8 := 0x90

  /** The chip acknowledges with these roles and is not in BIST mode. */
  predicate Tuned(d: Driver, role: Role, dataRole: DataRole) { Heads(d, role, dataRole) && Idle(d) }

  lemma SameRolesTuned(d: Driver, e: Driver, role: Role, dataRole: DataRole)
    requires Tuned(d, role, dataRole) && Idle(e) && e.regs[SWITCHES1] & ROLES == d.regs[SWITCHES1] & ROLES
    ensures Tuned(e, role, dataRole)
  {
    assert e.regs[SWITCHES1] & POWERROLE == (e.regs[SWITCHES1] & ROLES) & POWERROLE;
    assert d.regs[SWITCHES1] & POWERROLE == (d.regs[SWITCHES1] & ROLES) & POWERROLE;
    assert e.regs[SWITCHES1] & DATAROLE == (e.regs[SWITCHES1] & ROLES) & DATAROLE;
    assert d.regs[SWITCHES1] & DATAROLE == (d.regs[SWITCHES1] & ROLES) & DATAROLE;
  }

  lemma SetPolarityStaysTuned(d: Driver, polarity: int, role: Role, dataRole: DataRole)
    requires Tuned(d, role, dataRole)
    ensures Tuned(SetPolarity(d, polarity), role, dataRole)
  {
    SameRolesTuned(d, SetPolarity(d, polarity), role, dataRole);
  }

  lemma SetCcStaysTuned(d: Driver, pull: CcPull, role: Role, dataRole: DataRole)
    requires Tuned(d, role, dataRole)
    ensures Tuned(SetCc(d, pull), role, dataRole)
  {
    SameRolesTuned(d, SetCc(d, pull), role, dataRole);
  }

  lemma SetRxEnableStaysTuned(d: Driver, on: bool, role: Role, dataRole: DataRole)
    requires Tuned(d, role, dataRole)
    ensures Tuned(SetRxEnable(d, on).0, role, dataRole)
  {
    SameRolesTuned(d, SetRxEnable(d, on).0, role, dataRole);
  }

  lemma SelectRpStaysTuned(d: Driver, rp: RpValue, role: Role, dataRole: DataRole)
    requires Tuned(d, role, dataRole)
    ensures Tuned(SelectRp(d, rp), role, dataRole)
  {
    SameRolesTuned(d, SelectRp(d, rp), role, dataRole);
  }

  lemma TransmitStaysTuned(d: Driver, kind: TxKind, role: Role, dataRole: DataRole)
    requires Tuned(d, role, dataRole)
    ensures Tuned(Transmit(d, kind), role, dataRole)
  {
    SameRolesTuned(d, Transmit(d, kind), role, dataRole);
  }

  /** set_msg_header makes the automatic GoodCRC carry the roles it is given. */
  lemma SetMsgHeaderTunes(d: Driver, role: Role, dataRole: DataRole)
    requires Idle(d)
    ensures Tuned(SetMsgHeader(d, role, dataRole), role, dataRole)
  {}

  lemma InitTunes(d: Driver, boot: Registers)
    requires boot[SWITCHES1] & ROLES == 0 && boot[CONTROL1] == 0
    ensures Tuned(Init(d, boot), Sink, Ufp)
  {}

  lemma SetPolarityKeeps(d: Driver, polarity: int)
    requires Coherent(d) && LogSafe(d) && (polarity == 0 || polarity == 1)
    ensures Coherent(SetPolarity(d, polarity)) && LogSafe(SetPolarity(d, polarity))
    ensures Pulls(SetPolarity(d, polarity)) == Pulls(d)
  {}

  lemma SetVconnKeeps(d: Driver, on: bool)
    requires Coherent(d) && LogSafe(d)
    ensures Coherent(SetVconn(d, on)) && LogSafe(SetVconn(d, on))
    ensures Pulls(SetVconn(d, on)) == Pulls(d)
  {}

  /** The automatic GoodCRC then carries the given roles. */
  lemma SetMsgHeaderKeeps(d: Driver, role: Role, dataRole: DataRole)
    requires Coherent(d) && LogSafe(d)
    ensures var e := SetMsgHeader(d, role, dataRole);
            && Coherent(e) && LogSafe(e) && Pulls(e) == Pulls(d)
            && (Has(e.regs[SWITCHES1], POWERROLE) <==> role.Source?)
            && (Has(e.regs[SWITCHES1], DATAROLE) <==> dataRole.Dfp?)
  {}

  lemma PullUpKeeps(d: Driver)
    requires Coherent(d) && LogSafe(d)
    ensures var e := SetCc(d, PullRp);
            Coherent(e) && LogSafe(e) && Presents(e, true)
  {}

  lemma PullDownKeeps(d: Driver)
    requires Coherent(d) && LogSafe(d)
    ensures var e := SetCc(d, PullRd);
            Coherent(e) && LogSafe(e) && Presents(e, false)
  {}

  lemma OpenKeeps(d: Driver)
    requires Coherent(d) && LogSafe(d)
    ensures var e := SetCc(d, PullOpen);
            Coherent(e) && LogSafe(e)
  {}

  lemma SetCcKeeps(d: Driver, pull: CcPull)
    requires Coherent(d) && LogSafe(d)
    ensures Coherent(SetCc(d, pull)) && LogSafe(SetCc(d, pull))
    ensures pull.PullRp? || pull.PullRd? ==> Presents(SetCc(d, pull), pull.PullRp?)
  {
    match pull
    case PullRp => PullUpKeeps(d);
    case PullRd => PullDownKeeps(d);
    case PullOpen => OpenKeeps(d);
    case PullRa =>
  }

  lemma SetRxEnableKeeps(d: Driver, on: bool)
    requires Coherent(d) && LogSafe(d)
    ensures var (e, ok) := SetRxEnable(d, on);
            ok && Coherent(e) && LogSafe(e) && e.rx == on && Pulls(e) == Pulls(d)
  {}

  lemma SelectRpKeeps(d: Driver, rp: RpValue)
    requires Coherent(d) && LogSafe(d)
    ensures Coherent(SelectRp(d, rp)) && LogSafe(SelectRp(d, rp))
    ensures Pulls(SelectRp(d, rp)) == Pulls(d)
  {}

  /** Nothing that coherence speaks of has changed. */
  predicate SameSwitches(d: Driver, e: Driver) {
    && e == d.(regs := e.regs) && e.regs[SWITCHES0] == d.regs[SWITCHES0]
    && e.regs[SWITCHES1] == d.regs[SWITCHES1] && e.regs[MASK] == d.regs[MASK]
  }

  lemma WriteElsewhere(d: Driver, reg: nat, value: bv8)
    requires reg < REGISTERS && reg != SWITCHES0 && reg != SWITCHES1 && reg != MASK
    ensures SameSwitches(d, Write(d, reg, value))
  {}

  lemma SopTouchesNoSwitch(d: Driver)
    ensures SameSwitches(d, Transmit(d, TxSop))
  {
    WriteElsewhere(d, CONTROL0, With(d.regs[CONTROL0], TX_FLUSH));
  }

  lemma HardResetTouchesNoSwitch(d: Driver)
    ensures SameSwitches(d, Transmit(d, TxHardReset))
  {
    SopTouchesNoSwitch(d);
    var e := Transmit(d, TxSop);
    WriteElsewhere(e, CONTROL3, With(e.regs[CONTROL3], SEND_HARDRESET));
  }

  lemma BistTouchesNoSwitch(d: Driver)
    ensures SameSwitches(d, Transmit(d, TxBistMode2))
  {
    SopTouchesNoSwitch(d);
    var e := Transmit(d, TxSop);
    var f := Write(e, CONTROL1, With(e.regs[CONTROL1], BIST_MODE2));
    WriteElsewhere(e, CONTROL1, With(e.regs[CONTROL1], BIST_MODE2));
    var g := Write(f, CONTROL0, With(f.regs[CONTROL0], TX_START));
    WriteElsewhere(f, CONTROL0, With(f.regs[CONTROL0], TX_START));
    WriteElsewhere(g, CONTROL1, Without(g.regs[CONTROL1], BIST_MODE2));
  }

  lemma SameSwitchesKeep(d: Driver, e: Driver)
    requires Coherent(d) && LogSafe(d) && SameSwitches(d, e)
    ensures Coherent(e) && LogSafe(e) && Pulls(e) == Pulls(d)
  {}

  lemma TransmitKeeps(d: Driver, kind: TxKind)
    requires Coherent(d) && LogSafe(d)
    ensures Coherent(Transmit(d, kind)) && LogSafe(Transmit(d, kind))
    ensures Pulls(Transmit(d, kind)) == Pulls(d)
  {
    match kind
    case TxSop => SopTouchesNoSwitch(d);
    case TxHardReset => HardResetTouchesNoSwitch(d);
    case TxBistMode2 => BistTouchesNoSwitch(d);
    SameSwitchesKeep(d, Transmit(d, kind));
  }

  /** A source connects exactly the line it measures, with its pull-up, and then restores
      the switches. */
  lemma SourceMeasuresOneLine(d: Driver, meas: bv8, aboveVnc: bool)
    requires meas == MEAS_CC1 || meas == MEAS_CC2
    ensures var e := MeasureSource(d, meas, aboveVnc);
            var saved := d.regs[SWITCHES0];
            var up := if meas == MEAS_CC1 then CC1_PU else CC2_PU;
            var during := With(With(Without(saved, MEAS_CC1 | MEAS_CC2), up), meas);
            && e == d.(regs := e.regs, log := d.log + [during, saved])
            && e.regs == d.regs[MEASURE := e.regs[MEASURE]]
            && (Has(during, MEAS_CC1) <==> meas == MEAS_CC1) && (Has(during, MEAS_CC2) <==> meas == MEAS_CC2)
  {}

  lemma SwitchesLine(saved: bv8)
    ensures With(Without(With(Without(saved, MEAS_CC2), MEAS_CC1), MEAS_CC1), MEAS_CC2) ==
            With(Without(saved, MEAS_CC1), MEAS_CC2)
  {}

  lemma RestoresLines(saved: bv8)
    ensures var reg := With(Without(saved, MEAS_CC1), MEAS_CC2);
            var one := if Has(saved, MEAS_CC1) then With(reg, MEAS_CC1) else Without(reg, MEAS_CC1);
            (if Has(saved, MEAS_CC2) then With(one, MEAS_CC2) else Without(one, MEAS_CC2)) == saved
  {}

  /** A sink measures one line after the other, and then restores the switches. */
  lemma SinkMeasuresBothLines(d: Driver)
    ensures var saved := d.regs[SWITCHES0];
            MeasureSink(d) == d.(log := d.log + [With(Without(saved, MEAS_CC2), MEAS_CC1),
                                                 With(Without(saved, MEAS_CC1), MEAS_CC2), saved])
  {
    SwitchesLine(d.regs[SWITCHES0]);
    RestoresLines(d.regs[SWITCHES0]);
  }

  /** Reading CC leaves the shadow state and every register but MEASURE as they were,
      whatever they held; a sink leaves MEASURE alone too. */
  lemma MeasuringIsTransparent(d: Driver, v: Volts)
    ensures var e := Measured(d, v);
            && e == d.(regs := e.regs, log := e.log)
            && e.regs == d.regs[MEASURE := e.regs[MEASURE]]
            && (!d.pullUp ==> e.regs == d.regs)
  {
    var above1, above2 := v.cc1 > Threshold(d.thresholds.vnc), v.cc2 > Threshold(d.thresholds.vnc);
    if !d.pullUp {
      SinkMeasuresBothLines(d);
    } else if d.vconn {
      SourceMeasuresOneLine(d, if d.polarity != 0 then MEAS_CC2 else MEAS_CC1,
                            if d.polarity != 0 then above2 else above1);
    } else {
      SourceMeasuresOneLine(d, MEAS_CC1, above1);
      SourceMeasuresOneLine(MeasureSource(d, MEAS_CC1, above1), MEAS_CC2, above2);
    }
  }

  lemma MeasureSourceKeeps(d: Driver, meas: bv8, aboveVnc: bool)
    requires Coherent(d) && LogSafe(d) && d.pullUp && (meas == MEAS_CC1 || meas == MEAS_CC2)
    ensures Coherent(MeasureSource(d, meas, aboveVnc)) && LogSafe(MeasureSource(d, meas, aboveVnc))
  {}

  lemma MeasuredKeeps(d: Driver, v: Volts)
    requires Coherent(d) && LogSafe(d)
    ensures Coherent(Measured(d, v)) && LogSafe(Measured(d, v))
  {
    var above1, above2 := v.cc1 > Threshold(d.thresholds.vnc), v.cc2 > Threshold(d.thresholds.vnc);
    if !d.pullUp {
      SinkMeasuresBothLines(d);
      MeasuringIsTransparent(d, v);
    } else if d.vconn {
      MeasureSourceKeeps(d, if d.polarity != 0 then MEAS_CC2 else MEAS_CC1,
                         if d.polarity != 0 then above2 else above1);
    } else {
      MeasureSourceKeeps(d, MEAS_CC1, above1);
      SourceMeasuresOneLine(d, MEAS_CC1, above1);
      MeasureSourceKeeps(MeasureSource(d, MEAS_CC1, above1), MEAS_CC2, above2);
    }
  }

  lemma InitKeeps(d: Driver, boot: Registers)
    requires Fresh(d) && !Has(boot[SWITCHES0], CC1_PU | CC2_PU)
    ensures Coherent(Init(d, boot)) && LogSafe(Init(d, boot)) && Pulls(Init(d, boot)) == boot[SWITCHES0] & PULLS
  {}

  // ---- Interrupts and retries ----

  const COLLISION: bv8 := 0x02
  const SENT_BITS: bv8 := 0x1D
  const GCRCSENT: bv8 := 0x01

  /** The chip raises every interrupt that the alert acts on (a collision; a message or hard
      reset sent, all retries failed or a hard reset received; a GoodCRC sent), repeats a
      message three times on its own, and is powered. */
  predicate Alerting(d: Driver) {
    && !Has(d.regs[CONTROL0], INT_MASK) && !Has(d.regs[MASK], COLLISION)
    && !Has(d.regs[MASKA], SENT_BITS) && !Has(d.regs[MASKB], GCRCSENT)
    && d.regs[CONTROL3] & 0x07 == 0x07 && d.regs[POWER] == 0x0F
  }

  predicate SameAlerting(d: Driver, e: Driver) {
    && e.regs[CONTROL0] & INT_MASK == d.regs[CONTROL0] & INT_MASK && e.regs[MASK] & !BC_LVL == d.regs[MASK] & !BC_LVL
    && e.regs[MASKA] == d.regs[MASKA] && e.regs[MASKB] == d.regs[MASKB]
    && e.regs[CONTROL3] & 0x07 == d.regs[CONTROL3] & 0x07 && e.regs[POWER] == d.regs[POWER]
  }

  lemma SameAlertingStays(d: Driver, e: Driver)
    requires Alerting(d) && SameAlerting(d, e)
    ensures Alerting(e)
  {
    assert e.regs[MASK] & COLLISION == (e.regs[MASK] & !BC_LVL) & COLLISION;
    assert d.regs[MASK] & COLLISION == (d.regs[MASK] & !BC_LVL) & COLLISION;
  }

  lemma FlushAlerts(d: Driver)
    ensures SameAlerting(d, Transmit(d, TxSop)) && Has(Transmit(d, TxSop).regs[CONTROL0], TX_FLUSH)
  {}

  lemma HardResetAlerts(d: Driver)
    ensures SameAlerting(d, Transmit(d, TxHardReset))
  {
    FlushAlerts(d);
  }

  lemma StartAlerts(d: Driver)
    ensures SameAlerting(d, Write(d, CONTROL0, With(d.regs[CONTROL0], TX_START)))
  {}

  lemma BistAlerts(d: Driver)
    ensures SameAlerting(d, Transmit(d, TxBistMode2))
  {
    FlushAlerts(d);
    var e := Transmit(d, TxSop);
    var f := Write(e, CONTROL1, With(e.regs[CONTROL1], BIST_MODE2));
    assert SameAlerting(e, f);
    StartAlerts(f);
  }

  /** The calls that only move switches write none of these registers. */
  predicate OnlySwitches(d: Driver, e: Driver) {
    forall k :: 0 <= k < REGISTERS && k != SWITCHES0 && k != SWITCHES1 && k != CONTROL2 ==> e.regs[k] == d.regs[k]
  }

  lemma PolarityAlerts(d: Driver, polarity: int)
    ensures OnlySwitches(d, SetPolarity(d, polarity))
  {}

  lemma VconnAlerts(d: Driver, on: bool)
    ensures OnlySwitches(d, SetVconn(d, on))
  {
    PolarityAlerts(d.(vconn := on), d.polarity);
  }

  lemma PullAlerts(d: Driver, pull: CcPull)
    ensures OnlySwitches(d, SetCc(d, pull))
  {}

  lemma HeaderAlerts(d: Driver, role: Role, dataRole: DataRole)
    ensures OnlySwitches(d, SetMsgHeader(d, role, dataRole))
  {}

  lemma SwitchesAlert(d: Driver, e: Driver)
    requires OnlySwitches(d, e)
    ensures SameAlerting(d, e)
  {}

  lemma ReceiverAlerts(d: Driver, on: bool)
    ensures SameAlerting(d, SetRxEnable(d, on).0)
  {}

  lemma RpAlerts(d: Driver, rp: RpValue)
    ensures SameAlerting(d, SelectRp(d, rp))
  {}

  lemma MeasuringAlerts(d: Driver, v: Volts)
    ensures SameAlerting(d, Measured(d, v))
  {
    MeasuringIsTransparent(d, v);
  }

  lemma TransmitAlerts(d: Driver, kind: TxKind)
    ensures SameAlerting(d, Transmit(d, kind))
  {
    match kind
    case TxSop => FlushAlerts(d);
    case TxHardReset => HardResetAlerts(d);
    case TxBistMode2 => BistAlerts(d);
  }

  lemma CallSame(d: Driver, c: Call)
    ensures SameAlerting(d, Do(d, c))
  {
    match c {
      case DoSetCc(pull) => PullAlerts(d, pull);
      case DoSetPolarity(polarity) => PolarityAlerts(d, polarity);
      case DoSetVconn(on) => VconnAlerts(d, on);
      case DoSetMsgHeader(role, dataRole) => HeaderAlerts(d, role, dataRole);
      case DoSetRxEnable(on) => ReceiverAlerts(d, on);
      case DoSelectRp(rp) => RpAlerts(d, rp);
      case DoGetCc(volts) => MeasuringAlerts(d, volts);
      case DoTransmit(kind) => TransmitAlerts(d, kind);
    }
    if c.DoSetCc? || c.DoSetPolarity? || c.DoSetVconn? || c.DoSetMsgHeader? {
      SwitchesAlert(d, Do(d, c));
    }
  }

  lemma CallAlerts(d: Driver, c: Call)
    requires Alerting(d)
    ensures Alerting(Do(d, c))
  {
    CallSame(d, c);
    SameAlertingStays(d, Do(d, c));
  }

  lemma {:induction false} CallsAlert(d: Driver, calls: seq<Call>)
    requires Alerting(d)
    ensures Alerting(DoAll(d, calls))
    decreases |calls|
  {
    if calls != [] {
      CallAlerts(d, calls[0]);
      CallsAlert(Do(d, calls[0]), calls[1..]);
    }
  }

  /** After init, and after any calls from there on, no interrupt that the alert waits for
      is masked. */
  lemma AlertsAreRaised(d: Driver, boot: Registers, calls: seq<Call>)
    ensures Alerting(DoAll(Init(d, boot), calls))
  {
    CallsAlert(Init(d, boot), calls);
  }

  // ---- Readings ----

  /** The voltages that a cable's Ra, a sink's Rd and an open line show at a source with the
      given Rp (section 4.11.3 of the USB Type-C specification), in mV. */
  datatype Bands = Bands(raMost: nat, rdLeast: nat, rdMost: nat, openLeast: nat)

  function BandsOf(rp: RpValue): Bands {
    match rp
    case RpUsb => Bands(150, 250, 1500, 1650)
    case Rp1A5 => Bands(350, 450, 1500, 1650)
    case Rp3A0 => Bands(750, 850, 2450, 2750)
  }

  lemma ThresholdValues()
    ensures Threshold(38) == 1596 && Threshold(61) == 2562
    ensures Threshold(4) == 168 && Threshold(9) == 378 && Threshold(19) == 798
  {}

  /** With the thresholds of the selected Rp, every voltage of the standard's bands reads as
      what it stands for. */
  lemma SourceReadsTheStandard(rp: RpValue, mv: nat, level: Cc)
    requires SourceReads(ThresholdsOf(rp), mv, level)
    ensures mv <= BandsOf(rp).raMost ==> level.Ra?
    ensures BandsOf(rp).rdLeast <= mv <= BandsOf(rp).rdMost ==> level.RdPulled?
    ensures mv >= BandsOf(rp).openLeast ==> level.Open?
  {
    ThresholdValues();
  }

  /** The same for a sink, at the voltages of the three currents. */
  lemma SinkReadsTheStandard(mv: nat, level: Cc)
    requires SinkReads(mv, level)
    ensures mv <= 150 ==> level.Open?
    ensures 250 <= mv <= 610 ==> level.SnkDef?
    ensures 700 <= mv <= 1160 ==> level.Snk1A5?
    ensures 1310 <= mv ==> level.Snk3A0?
  {}

  lemma SinkLevelReads(regs: Registers, v: Volts)
    ensures SinkReads(Sensed(regs[SWITCHES0], v), SinkLevel(BcLevel(regs, v)))
  {}

  /** The current source is the one whose thresholds are used. */
  lemma RpFitsThresholds(d: Driver, rp: RpValue)
    ensures var e := SelectRp(d, rp);
            && e.thresholds == ThresholdsOf(rp)
            && e.regs[CONTROL0] & HOST_CUR == (if rp.RpUsb? then 0x04 else if rp.Rp1A5? then 0x08 else 0x0C)
            && e.regs[CONTROL0] & !HOST_CUR == d.regs[CONTROL0] & !HOST_CUR
  {}

  // ---- Any sequence of calls ----

  datatype Call =
    | DoSetCc(pull: CcPull)
    | DoSetPolarity(polarity: int)
    | DoSetVconn(on: bool)
    | DoSetMsgHeader(role: Role, dataRole: DataRole)
    | DoSetRxEnable(on: bool)
    | DoSelectRp(rp: RpValue)
    | DoGetCc(volts: Volts)
    | DoTransmit(kind: TxKind)

  /** The port passes 0 or 1 as polarity. */
  predicate Proper(c: Call) { c.DoSetPolarity? ==> c.polarity == 0 || c.polarity == 1 }

  function Do(d: Driver, c: Call): Driver {
    match c
    case DoSetCc(pull) => SetCc(d, pull)
    case DoSetPolarity(polarity) => SetPolarity(d, polarity)
    case DoSetVconn(on) => SetVconn(d, on)
    case DoSetMsgHeader(role, dataRole) => SetMsgHeader(d, role, dataRole)
    case DoSetRxEnable(on) => SetRxEnable(d, on).0
    case DoSelectRp(rp) => SelectRp(d, rp)
    case DoGetCc(volts) => Measured(d, volts)
    case DoTransmit(kind) => Transmit(d, kind)
  }

  function DoAll(d: Driver, calls: seq<Call>): Driver
    decreases |calls|
  {
    if calls == [] then d else DoAll(Do(d, calls[0]), calls[1..])
  }

  lemma DoKeeps(d: Driver, c: Call)
    requires Coherent(d) && LogSafe(d) && Proper(c)
    ensures Coherent(Do(d, c)) && LogSafe(Do(d, c))
  {
    match c
    case DoSetCc(pull) => SetCcKeeps(d, pull);
    case DoSetPolarity(polarity) => SetPolarityKeeps(d, polarity);
    case DoSetVconn(on) => SetVconnKeeps(d, on);
    case DoSetMsgHeader(role, dataRole) => SetMsgHeaderKeeps(d, role, dataRole);
    case DoSetRxEnable(on) => SetRxEnableKeeps(d, on);
    case DoSelectRp(rp) => SelectRpKeeps(d, rp);
    case DoGetCc(volts) => MeasuredKeeps(d, volts);
    case DoTransmit(kind) => TransmitKeeps(d, kind);
  }

  lemma {:induction false} CallsKeep(d: Driver, calls: seq<Call>)
    requires Coherent(d) && LogSafe(d) && forall c :: c in calls ==> Proper(c)
    ensures Coherent(DoAll(d, calls)) && LogSafe(DoAll(d, calls))
    decreases |calls|
  {
    if calls != [] {
      DoKeeps(d, calls[0]);
      CallsKeep(Do(d, calls[0]), calls[1..]);
    }
  }

  /** From power-on: every single write of every call in every sequence leaves the switch
      matrix safe, and between calls VCONN, pulls and receiver are where the driver's own
      state says. */
  lemma SwitchMatrixIsSafe(d: Driver, boot: Registers, calls: seq<Call>)
    requires Fresh(d) && boot[SWITCHES0] == RESET_SWITCHES0 && forall c :: c in calls ==> Proper(c)
    ensures var e := DoAll(Init(d, boot), calls);
            Coherent(e) && forall k :: 0 <= k < |e.log| ==> SwitchesSafe(e.log[k])
  {
    assert !Has(RESET_SWITCHES0, CC1_PU | CC2_PU);
    InitKeeps(d, boot);
    CallsKeep(Init(d, boot), calls);
  }
}
