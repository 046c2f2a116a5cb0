/** What the invariants of PortSafety and PortPower mean for every run from the initial
    state, and where the code falls short. */
module PortGuarantees {
  import opened PdWords
  import opened PowerPolicy
  import opened PortState
  import opened PortMachine
  import opened PortRuns
  import opened PortSafety
  import opened PortPower
  import opened HardResetBound

  lemma ReachableIsSafe(start: Port, run: seq<Event>)
    requires Initial(start) && Valid(start, run)
    ensures Safe(End(start, run))
  {
    InitialIsSafe(start);
    RunKeeps(start, run);
  }

  // ---- Timers ----

  /** A timer that survives a pass lies in the future. */
  lemma TimersAhead(p: Port, i: Input)
    requires Readable(i)
    ensures var q := FromSwitch(p, i);
            q.timer.at != 0 ==> i.clock.end < q.timer.at
  {}

  /** Whatever the partner sends: at the end of every pass, a port still in one of the
      eleven states has a running timer that leads to a designated successor, and whose
      deadline the pass has not reached. */
  lemma NoLostTimers(start: Port, run: seq<Event>, i: Input)
    requires Initial(start) && Valid(start, run) && Readable(i) && Timely(End(start, run).history.now, i.clock)
    ensures var q := Pass(End(start, run), i);
            q.last == q.state && AlwaysTimed(q) ==>
              q.timer.at != 0 && Successor(q.state, q.timer.next) && i.clock.end < q.timer.at
  {
    ReachableIsSafe(start, run);
    PassKeeps(End(start, run), i);
    TimersAhead(BeforeHandler(End(start, run), i), i);
  }

  /** Bounds in microseconds. */
  datatype Bounds = Between(least: nat, most: nat) | AtLeast(least: nat)

  /** How long the timer of state `s` with successor `next` may run: the ranges of USB PD
      Revision 2.0 as they stand beside the constants in usb_pd.h. After a hard reset a sink
      waits at least as long as the source may take to remove VBUS, and then to bring it
      back. The other delays are the board's own. */
  function Standard(s: State, next: State): Option<Bounds> {
    if s == SnkDiscovery then
      if next == HardResetSend then Some(Between(310_000, 620_000)) else Some(Between(4_500_000, 5_500_000))
    else if s == SrcDiscovery then Some(Between(4_500_000, 5_500_000))
    else if s == SnkTransition then Some(Between(450_000, 550_000))
    else if s == SnkSwapSrcDisable then Some(Between(750_000, 920_000))
    else if s == SrcSwapStandby then Some(Between(390_000, 480_000))
    else if s == SrcAccepted || s == SrcSwapSnkDisable then Some(Between(20_000, 35_000))
    else if s == HardResetSend then Some(Between(25_000, 35_000))
    else if s == SnkHardResetRecover then
      Some(AtLeast(if next == SnkDisconnected then 1_000_000 + 275_000 else 650_000))
    else if AwaitsAnswer(s) then Some(Between(24_000, 30_000))
    else None
  }

  /** The states that wait for the partner's answer to a message. */
  predicate AwaitsAnswer(s: State) {
    || s == SnkRequested || s == SrcNegociate || s == SrcGetSinkCap || s == DrSwap || s == SrcSwapInit
    || s == SnkSwapInit || s == SoftReset
  }

  /** A timer of `d` microseconds keeps to the standard, unless it waits for an answer: then
      it runs longer than it should. */
  predicate OnTime(s: State, next: State, d: int) {
    var b := Standard(s, next);
    b.Some? ==> b.value.least <= d && (b.value.Between? ==> (d <= b.value.most <==> !AwaitsAnswer(s)))
  }

  /** The timer is the old one, none, or new: for a designated successor, and on time from a
      clock reading of this case. */
  predicate TimedBy(p: Port, q: Port, i: Input) {
    || q.timer == p.timer || q.timer.at == 0
    || (&& q.state == p.state && Successor(p.state, q.timer.next)
        && var start := if p.state == SnkHardResetRecover && q.timer.next == SnkDisconnected then i.clock.run2
                        else i.clock.run;
           OnTime(p.state, q.timer.next, q.timer.at - start))
  }

  lemma AttachTimers(p: Port, i: Input)
    ensures SrcDisconnected <= p.state <= SrcStartup ==> TimedBy(p, RunSourceAttach(p, i), i)
    ensures SnkDisconnected <= p.state <= SnkDiscovery ==> TimedBy(p, RunSinkAttach(p, i), i)
  {
    if p.state == SrcDisconnectedDebounce {
    } else if p.state == SnkDisconnectedDebounce {
    } else if p.state == SnkHardResetRecover {
    }
  }

  lemma SourceContractTimers(p: Port, i: Input)
    requires SrcDiscovery <= p.state <= SrcTransition
    ensures TimedBy(p, RunSourceContract(p, i), i)
  {
    if p.state == SrcDiscovery {
    }
  }

  lemma SrcReadyTimers(p: Port, i: Input)
    requires p.state == SrcReady
    ensures TimedBy(p, RunSrcReady(p, i), i)
  {
    if PolicyDue(CountSinkCap(p)) {
    }
  }

  lemma SourceReadyTimers(p: Port, i: Input)
    requires SourceState(p.state) && p.state > SrcTransition
    ensures TimedBy(p, RunSourceReady(p, i), i)
  {
    if p.state == SrcReady {
      SrcReadyTimers(p, i);
    } else if p.state == SrcSwapInit {
    } else if p.state == SrcSwapStandby {
    }
  }

  lemma SinkTimers(p: Port, i: Input)
    requires SnkRequested <= p.state <= SnkSwapComplete && Readable(i)
    ensures TimedBy(p, RunSinkContract(p, i), i)
  {
    if p.state == SnkReady {
      var (rdo, power) := BuildRequest(p.caps, i.capIndex);
      ActReadyTimers(p, i, rdo, power);
    }
  }

  lemma ActReadyTimers(p: Port, i: Input, rdo: Word, power: Power)
    ensures TimedBy(p, ActReady(p, i, rdo, power), i)
  {}

  lemma SharedTimers(p: Port, i: Input)
    requires !SourceState(p.state) && !SinkState(p.state)
    ensures TimedBy(p, RunShared(p, i), i)
  {
    if p.state == HardResetExecute {
    } else if p.state == HardResetSend {
    }
  }

  /** Every timer that a case of the switch arms runs for a time the standard allows, except
      exactly the timers that wait for an answer, which all run too long: the response timer
      is set to 100 ms. */
  lemma TimersKeepToStandard(p: Port, i: Input)
    requires Readable(i)
    ensures TimedBy(p, Handle(p, i), i)
  {
    if SrcDisconnected <= p.state <= SrcStartup {
      AttachTimers(p, i);
    } else if SrcDiscovery <= p.state <= SrcTransition {
      SourceContractTimers(p, i);
    } else if SourceState(p.state) {
      SourceReadyTimers(p, i);
    } else if SnkDisconnected <= p.state <= SnkDiscovery {
      AttachTimers(p, i);
    } else if SinkState(p.state) {
      SinkTimers(p, i);
    } else {
      SharedTimers(p, i);
    }
  }

  // ---- Offers ----

  /** The partner's four properties, as remembered. */
  predicate Remembers(p: Port, dualRole: bool, external: bool, commCap: bool, dataSwap: bool) {
    && p.flags.partnerDrPower == dualRole && p.flags.partnerExtPower == external
    && p.flags.partnerUsbComm == commCap && p.flags.partnerDrData == dataSwap
  }

  predicate SamePartner(p: Port, q: Port) {
    Remembers(q, p.flags.partnerDrPower, p.flags.partnerExtPower, p.flags.partnerUsbComm, p.flags.partnerDrData)
  }

  lemma AnswerRemembers(p: Port, first: Word, caps: CapTable, limit: Power, rdo: Word, power: Power)
    ensures var q := AnswerWith(p, first, caps, limit, rdo, power);
            if PdoIsFixed(first) then
              Remembers(q, PdoDualRole(first), PdoExternal(first), PdoCommCap(first), PdoDataSwap(first))
            else SamePartner(p, q)
  {}

  /** What a partner states in the first object of its offer, as the PDO_FIXED macro packs
      it, is what a waiting sink remembers of it; an offer that starts with another kind of
      object leaves the memory as it was. */
  lemma OfferIsRemembered(p: Port, objects: Objects, index: nat, mv: nat, ma: nat, dualRole: bool, external: bool,
                          commCap: bool, dataSwap: bool)
    requires |objects| > 0 && index < MAX_OBJECTS && mv / 50 < 0x400 && ma / 10 < 0x400
    requires p.state == SnkDiscovery || p.state == SnkTransition || p.state == SnkReady
    ensures var q := OnSourceCap(p, objects, index);
            && (objects[0] == PdoFixed(mv, ma, dualRole, external, commCap, dataSwap) ==>
                  Remembers(q, dualRole, external, commCap, dataSwap))
            && (!PdoIsFixed(objects[0]) ==> SamePartner(p, q))
  {
    PdoFixedRoundTrip(mv, ma, dualRole, external, commCap, dataSwap);
    var caps, limit, rdo, power := AnswerShape(p, objects, index);
    AnswerRemembers(p, objects[0], caps, limit, rdo, power);
  }

  /** The same for the first object of a sink's capabilities, in any state. */
  lemma SinkCapsAreRemembered(p: Port, mv: nat, ma: nat, dualRole: bool, external: bool, commCap: bool, dataSwap: bool)
    requires mv / 50 < 0x400 && ma / 10 < 0x400
    ensures var q := OnSinkCap(p, PdoFixed(mv, ma, dualRole, external, commCap, dataSwap));
            Remembers(q, dualRole, external, commCap, dataSwap) && q.flags.snkCapRecvd
  {
    PdoFixedRoundTrip(mv, ma, dualRole, external, commCap, dataSwap);
  }

  /** An updated offer goes out in the next undelayed pass of a ready source and is marked
      done only once it was acknowledged; until then it is tried again. Outside the states
      of a contract, the call changes nothing. */
  lemma UpdatedOfferIsSent(p: Port, i: Input)
    requires p.srcPdos != []
    ensures !(SrcNegociate <= p.state <= SrcGetSinkCap) ==> UpdateContract(p) == p
    ensures SrcNegociate <= p.state <= SrcGetSinkCap ==> UpdateContract(p).flags.updateSrcCaps
    ensures p.state == SrcReady && !p.vdm.state.VdmBusy? ==>
              var q := RunSrcReady(UpdateContract(p), i);
              && q.sent.Add? && q.sent.latest.Sop? && q.sent.latest.packet.IsData(SOURCE_CAP)
              && q.sent.latest.packet.data == p.srcPdos
              && (q.flags.updateSrcCaps <==> !TxOk(p)) && (q.state == if TxOk(p) then SrcNegociate else SrcReady)
  {}

  // ---- Contract and voltage ----

  /** The contract states are only ever occupied under an explicit contract. */
  lemma ContractsAreExplicit(start: Port, run: seq<Event>)
    requires Initial(start) && Valid(start, run)
    ensures var p := End(start, run);
            Contracted(p.state) ==> p.flags.explicitContract
  {
    ReachableIsSafe(start, run);
  }

  /** The record of the last granted request is untouched, and so is the supply. */
  predicate KeepsGrant(p: Port, q: Port) {
    q.history.acceptedAt == p.history.acceptedAt && q.history.acceptedPos == p.history.acceptedPos
  }

  predicate KeepsSupply(p: Port, q: Port) { KeepsGrant(p, q) && q.outputs.supplied == p.outputs.supplied }

  lemma SourceAttachSuppliesNothing(p: Port, i: Input)
    ensures KeepsSupply(p, RunSourceAttach(p, i))
  {
    if p.state == SrcDisconnected {
    } else if p.state == SrcDisconnectedDebounce {
    }
  }

  lemma SinkAttachSuppliesNothing(p: Port, i: Input)
    ensures KeepsSupply(p, RunSinkAttach(p, i))
  {
    if p.state == SnkDisconnected {
    } else if p.state == SnkDisconnectedDebounce {
    } else if p.state == SnkHardResetRecover {
    }
  }

  lemma ContractSuppliesNothing(p: Port, i: Input)
    requires SrcDiscovery <= p.state <= SrcTransition && !(p.state == SrcPowered && Entered(p))
    ensures KeepsSupply(p, RunSourceContract(p, i))
  {
    if p.state == SrcDiscovery {
    }
  }

  lemma ReadySuppliesNothing(p: Port, i: Input)
    ensures KeepsSupply(p, RunSourceReady(p, i))
  {
    if p.state == SrcReady && PolicyDue(CountSinkCap(p)) {
    }
  }

  lemma SinkSuppliesNothing(p: Port, i: Input)
    requires Readable(i)
    ensures KeepsSupply(p, RunSinkContract(p, i))
  {
    if p.state == SnkReady {
      var (rdo, power) := BuildRequest(p.caps, i.capIndex);
      ActReadySuppliesNothing(p, i, rdo, power);
    }
  }

  lemma ActReadySuppliesNothing(p: Port, i: Input, rdo: Word, power: Power)
    ensures KeepsSupply(p, ActReady(p, i, rdo, power))
  {
    if p.request.pending {
    } else if PolicyDue(p) {
    }
  }

  lemma SharedSuppliesNothing(p: Port, i: Input)
    ensures KeepsSupply(p, RunShared(p, i))
  {}

  /** The handler of SrcPowered, on entry, switches to the requested position; no other
      handler touches the supplied voltage. */
  lemma OnlyPoweredSwitches(p: Port, i: Input)
    requires Readable(i)
    ensures var q := Handle(p, i);
            && KeepsGrant(p, q)
            && q.outputs.supplied == if p.state == SrcPowered && Entered(p) then p.requestedIdx
                                     else p.outputs.supplied
  {
    if SrcDisconnected <= p.state <= SrcStartup {
      SourceAttachSuppliesNothing(p, i);
    } else if SrcDiscovery <= p.state <= SrcTransition {
      if p.state == SrcPowered && Entered(p) {
      } else {
        ContractSuppliesNothing(p, i);
      }
    } else if SourceState(p.state) {
      ReadySuppliesNothing(p, i);
    } else if SnkDisconnected <= p.state <= SnkDiscovery {
      SinkAttachSuppliesNothing(p, i);
    } else if SinkState(p.state) {
      SinkSuppliesNothing(p, i);
    } else {
      SharedSuppliesNothing(p, i);
    }
  }

  /** The pass receives a Request that the source grants. */
  predicate Grants(p: Port, i: Input) {
    && i.msg.Some? && Connected(p) && i.msg.value.IsData(REQUEST) && p.role.Source? && |i.msg.value.data| == 1
    && RequestGranted(i.msg.value.data[0], p.srcPdos) && TxOk(p)
  }

  lemma AnswerGrantsNothing(p: Port, first: Word, caps: CapTable, limit: Power, rdo: Word, power: Power)
    ensures KeepsGrant(p, AnswerWith(p, first, caps, limit, rdo, power))
  {}

  lemma ControlGrantsNothing(p: Port, kind: nat, i: Input)
    ensures KeepsGrant(p, HandleControl(p, kind, i))
  {
    if kind == GET_SOURCE_CAP {
    } else if kind == PS_RDY {
    } else if kind == REJECT || kind == WAIT {
    } else if kind == ACCEPT {
    } else if kind == SOFT_RESET {
    } else if kind == PR_SWAP {
    } else if kind == DR_SWAP {
    }
  }

  lemma OtherDataGrantsNothing(p: Port, kind: nat, objects: Objects, i: Input)
    requires |objects| > 0 && Readable(i) && kind != REQUEST
    ensures KeepsGrant(p, HandleData(p, kind, objects, i))
  {
    if kind == SOURCE_CAP {
      if p.state == SnkDiscovery || p.state == SnkTransition || p.state == SnkReady {
        var caps, limit, rdo, power := AnswerShape(p, objects, i.capIndex);
        AnswerGrantsNothing(p, objects[0], caps, limit, rdo, power);
      }
    } else if kind == BIST {
    } else if kind == SINK_CAP {
    }
  }

  /** The record is that of the last granted request: every grant, and nothing else in a
      pass, writes it. */
  lemma RecordsGrants(p: Port, i: Input)
    requires Readable(i)
    ensures var m, q := BeforeMessage(p, i), Pass(p, i);
            if Grants(m, i) then
              q.history.acceptedPos == RdoPos(i.msg.value.data[0]) && q.history.acceptedAt == i.clock.run
            else KeepsGrant(p, q)
  {
    var m := BeforeMessage(p, i);
    MessageRecordsGrants(m, i);
    OnlyPoweredSwitches(BeforeHandler(p, i), i);
    TailGrantsNothing(HandlerPhase(BeforeHandler(p, i), i), i);
    PrefixGrantsNothing(p, i);
  }

  lemma MessageRecordsGrants(p: Port, i: Input)
    requires Readable(i)
    ensures var q := MessagePhase(p, i);
            if Grants(p, i) then
              q.history.acceptedPos == RdoPos(i.msg.value.data[0]) && q.history.acceptedAt == i.clock.run
            else KeepsGrant(p, q)
  {
    if i.msg.Some? && Connected(p) {
      var m := i.msg.value;
      var kind := HeaderKind(m.header);
      if HeaderCnt(m.header) == 0 {
        ControlGrantsNothing(p, kind, i);
      } else if kind != REQUEST {
        OtherDataGrantsNothing(p, kind, m.data, i);
      }
    }
  }

  lemma PrefixGrantsNothing(p: Port, i: Input)
    ensures KeepsGrant(p, BeforeMessage(p, i))
  {}

  lemma TailGrantsNothing(p: Port, i: Input)
    ensures KeepsGrant(p, DetachPhase(TimerPhase(p, i.clock.end), i))
  {}

  /** That position is the one of the last granted request, one of the offered, and the
      switch comes at least 35 ms after the Accept. */
  lemma SwitchesAsAccepted(start: Port, run: seq<Event>, i: Input)
    requires Initial(start) && Valid(start, run) && Readable(i) && Timely(End(start, run).history.now, i.clock)
    ensures var p := BeforeHandler(End(start, run), i);
            p.state == SrcPowered && Entered(p) ==>
              && p.requestedIdx == p.history.acceptedPos && 1 <= p.requestedIdx <= |p.srcPdos|
              && i.clock.run >= p.history.acceptedAt + T_SINK_TRANSITION
  {
    ReachableIsSafe(start, run);
    BeforeHandlerKeeps(End(start, run), i);
  }

  /** PS_RDY at the end of a source's transition comes at least 10 ms after the switch,
      with the requested object supplied. */
  lemma PsRdyFollowsSwitch(start: Port, run: seq<Event>, i: Input)
    requires Initial(start) && Valid(start, run) && Readable(i) && Timely(End(start, run).history.now, i.clock)
    ensures var p := BeforeHandler(End(start, run), i);
            p.state == SrcTransition ==>
              && i.clock.run >= p.history.switched.at + SUPPLY_TURN_ON
              && p.outputs.supplied == p.requestedIdx == p.history.switched.pos
  {
    ReachableIsSafe(start, run);
    BeforeHandlerKeeps(End(start, run), i);
  }

  /** A port that is detached, waits for VBUS after a hard reset, or swaps to source has
      its input limit at zero, in every run. */
  lemma DrawsNothingUncontracted(start: Port, run: seq<Event>)
    requires Initial(start) && Valid(start, run)
    ensures var p := End(start, run);
            Drawless(p.state) ==> p.outputs.limit == Power(0, 0)
  {
    ReachableIsSafe(start, run);
  }

  // ---- Hard resets ----

  /** After any run, in any quiet stretch in which the port stays an attached sink: at most
      two visits of HardResetSend. */
  lemma QuietStretchesResetTwice(start: Port, run: seq<Event>, quiet: seq<Event>)
    requires Initial(start) && Valid(start, run) && Valid(End(start, run), quiet)
    requires QuietRun(End(start, run), quiet)
    ensures Entries(End(start, run), quiet) + (if End(start, run).state == HardResetSend then 1 else 0)
            <= HARD_RESET_COUNT
  {
    ReachableIsSafe(start, run);
    HardResetsAreBounded(End(start, run), quiet);
  }

  // ---- Silence ----

  /** Detached, the receiver is off. */
  lemma DetachedIsSilent(start: Port, run: seq<Event>)
    requires Initial(start) && Valid(start, run)
    ensures var p := End(start, run);
            Detached(p.state) ==> !p.outputs.rx
  {
    ReachableIsSafe(start, run);
  }

  lemma FittingIgnores(p: Port, i: Input)
    requires Detached(p.state) && Readable(i) && RoleOf(p.state, p.role)
    ensures MessagePhase(p, i) == p
  {}

  /** A Soft_Reset, and nothing else going on. */
  function SoftResetInput(): Input {
    HeaderRoundTrip(SOFT_RESET, Sink, Ufp, 0, 0);
    Input(false, true, Some(Message(Header(SOFT_RESET, Sink, Ufp, 0, 0), [])), Open, Open, Open, Open, false, false,
          false, false, false, false, false, false, Freeze, 0, Clock(1, 1, 1, 1, 1, 1))
  }

  lemma MismatchedListens(p: Port)
    requires Detached(p.state) && !RoleOf(p.state, p.role)
    ensures Readable(SoftResetInput()) && MessagePhase(p, SoftResetInput()).state != p.state
  {
    HeaderRoundTrip(SOFT_RESET, Sink, Ufp, 0, 0);
  }

  /** A detached port ignores all messages exactly if its role fits its state; otherwise it
      counts as connected. */
  lemma DetachedIgnoresExactly(p: Port)
    requires Detached(p.state)
    ensures RoleOf(p.state, p.role) <==> forall i :: Readable(i) ==> MessagePhase(p, i) == p
  {
    if RoleOf(p.state, p.role) {
      forall i | Readable(i) ensures MessagePhase(p, i) == p {
        FittingIgnores(p, i);
      }
    } else {
      MismatchedListens(p);
    }
  }

  // ---- Power path ----

  lemma InitialIsRuled(p: Port)
    requires Initial(p)
    ensures Ruled(p)
  {}

  /** In every run without a harmful event: a source presents Rp, and a sink presents Rd
      with VBUS not driven, except in the last stages of a swap to source; states and
      running timers fit the role. */
  lemma PowerPathIsSafe(start: Port, run: seq<Event>)
    requires Initial(start) && Valid(start, run) && Unharmed(start, run)
    ensures var p := End(start, run);
            PathSafe(p) && RoleAgrees(p) && SupplyCut(p) && (Detached(p.state) ==> !Connected(p))
  {
    InitialIsSafe(start);
    InitialIsRuled(start);
    RunRules(start, run);
  }
}
