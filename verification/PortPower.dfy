/** Power-path safety: state, power role, CC pull and supply switch fit together in every
    run without one of the listed events. */
module PortPower {
  import opened PdWords
  import opened PowerPolicy
  import opened PortState
  import opened PortMachine
  import opened PortRuns
  import opened PortSafety

  predicate RoleOf(s: State, r: Role) {
    (SinkState(s) ==> r.Sink?) && (SourceState(s) ==> r.Source?)
  }

  /** Every sink state is held by a sink and every source state by a source, except that
      SrcSwapStandby has already become a sink once its handler has run; a running timer
      leads to a state of the role it will fire under. */
  predicate RoleAgrees(p: Port) {
    && (if p.state == SrcSwapStandby && p.last == p.state then p.role.Sink? else RoleOf(p.state, p.role))
    && (p.timer.at != 0 ==> RoleOf(p.timer.next, p.role))
    && p.state != Suspended
  }

  /** Where a port that is still a sink presents Rp and may drive VBUS: the last steps of
      the swap to source. */
  predicate SwapWindow(p: Port) {
    (p.state == SnkSwapStandby && p.last == p.state) || p.state == SnkSwapComplete
  }

  predicate PathSafe(p: Port) {
    && (p.role.Source? || SwapWindow(p) ==> p.outputs.pull.Rp?)
    && (p.role.Sink? && !SwapWindow(p) ==> p.outputs.pull.Rd? && !p.outputs.vbusOn)
  }

  /** Source states in which the supply is off: detached, recovering from a hard reset, and
      from the cut in a swap on. */
  predicate SupplyCut(p: Port) {
    (|| p.state == SrcDisconnected || p.state == SrcHardResetRecover || p.state == SrcSwapStandby
     || (p.state == SrcSwapSrcDisable && p.last == p.state))
    ==> !p.outputs.vbusOn
  }

  /** The case of HARD_RESET_EXECUTE for an interrupted swap never applies: a swap goes
      through HARD_RESET_SEND first. */
  predicate ResetsLate(p: Port) { p.state == HardResetExecute ==> p.last != SnkSwapStandby }

  predicate Ruled(p: Port) { RoleAgrees(p) && PathSafe(p) && SupplyCut(p) && ResetsLate(p) }

  // ---- The events that break it ----

  /** The messages after which role, pull and supply no longer fit. */
  predicate HarmfulMessage(p: Port, i: Input) {
    && i.msg.Some? && Connected(p)
    && var m := i.msg.value;
       || (m.IsData(REQUEST) && p.role.Sink?)
       || (m.IsControl(SOFT_RESET) && SwapWindow(p))
       || (m.IsControl(PR_SWAP) && i.allowPowerSwap && SwapWindow(p))
       || (m.IsControl(PS_RDY) && p.state == SnkSwapComplete)
       || (m.IsControl(PS_RDY) && p.state == SrcSwapStandby && p.role.Source?)
  }

  predicate Harmful(p: Port, e: Event) {
    match e
    case Poll(i) => (i.reset && SwapWindow(p)) || HarmfulMessage(BeforeMessage(p, i), i)
    case AskSoftReset => SwapWindow(p)
    case AskSourceVoltage => p.outputs.vbusOn && p.state != SnkReady && p.state != SnkTransition
    case _ => false
  }

  // ---- Phases ----

  lemma ButtonRules(p: Port, reset: bool)
    requires Ruled(p)
    ensures Ruled(ButtonPhase(p.(sent := NoFrames), reset)) <==> !(reset && SwapWindow(p))
  {}

  lemma VdmRules(p: Port, t: nat)
    requires Ruled(p)
    ensures Ruled(VdmPhase(p, t))
  {}

  lemma ResetRules(p: Port, t: nat)
    requires Ruled(p)
    ensures Ruled(ExecuteHardReset(p, t))
  {}

  lemma NotifiedRules(p: Port, on: bool, status: TxStatus)
    requires Ruled(p)
    ensures Ruled(Notified(p, on, status))
  {}

  /** No alert breaks the rules. */
  lemma AlertRules(p: Port, n: Interrupts, t: nat)
    requires Ruled(p)
    ensures Ruled(Alerted(p, n, t))
  {
    NotifiedRules(p, n.collision, TxFailed);
    var a := Notified(p, n.collision, TxFailed);
    NotifiedRules(a, n.txSuccess, TxSuccess);
    var b := Notified(a, n.txSuccess, TxSuccess);
    NotifiedRules(b, n.retryFail, TxFailed);
    var c := Notified(b, n.retryFail, TxFailed);
    NotifiedRules(c, n.hardSent, TxSuccess);
    ResetRules(Notified(c, n.hardSent, TxSuccess), t);
  }

  lemma SendBuiltRules(p: Port, always: bool, rdo: Word, power: Power)
    requires Ruled(p) && p.role.Sink? && !SwapWindow(p)
    ensures Ruled(SendBuilt(p, always, rdo, power).0)
  {}

  lemma AnswerRules(p: Port, first: Word, caps: CapTable, limit: Power, rdo: Word, power: Power)
    requires Ruled(p) && p.role.Sink? && !SwapWindow(p)
    ensures Ruled(AnswerWith(p, first, caps, limit, rdo, power))
  {}

  lemma SourceCapRules(p: Port, objects: Objects, index: nat)
    requires Ruled(p) && |objects| > 0 && index < MAX_OBJECTS
    ensures Ruled(OnSourceCap(p, objects, index))
  {
    if p.state == SnkDiscovery || p.state == SnkTransition || p.state == SnkReady {
      var caps, limit, rdo, power := AnswerShape(p, objects, index);
      AnswerRules(p, objects[0], caps, limit, rdo, power);
    }
  }

  lemma RequestRules(p: Port, objects: Objects, t: nat)
    requires Ruled(p) && |objects| > 0 && Connected(p)
    ensures Ruled(OnRequest(p, objects, t)) <==> p.role.Source?
  {
    if p.role.Source? && |objects| == 1 && RequestGranted(objects[0], p.srcPdos) {
      if TxOk(p) {
      }
    }
  }

  lemma BistRules(p: Port, w: Word)
    requires Ruled(p)
    ensures Ruled(OnBist(p, w))
  {}

  lemma SinkCapRules(p: Port, w: Word)
    requires Ruled(p)
    ensures Ruled(OnSinkCap(p, w))
  {}

  lemma PsRdyRules(p: Port)
    requires Ruled(p) && Connected(p) && EntryOrigins(p)
    ensures Ruled(OnPsRdy(p)) <==> !(p.state == SnkSwapComplete || (p.state == SrcSwapStandby && p.role.Source?))
  {}

  lemma RefusalRules(p: Port, wait: bool, t: nat)
    requires Ruled(p)
    ensures Ruled(OnRefusal(p, wait, t))
  {}

  lemma AcceptRules(p: Port)
    requires Ruled(p)
    ensures Ruled(OnAccept(p))
  {}

  lemma SoftResetRules(p: Port)
    requires Ruled(p) && Connected(p)
    ensures Ruled(SendControl(ExecuteSoftReset(p), ACCEPT)) <==> !SwapWindow(p)
  {}

  lemma PrSwapRules(p: Port, allowed: bool)
    requires Ruled(p) && Connected(p)
    ensures Ruled(OnPrSwap(p, allowed)) <==> !(allowed && SwapWindow(p))
  {}

  lemma DrSwapRules(p: Port, allowed: bool)
    requires Ruled(p)
    ensures Ruled(OnDrSwap(p, allowed))
  {}

  lemma GetSourceCapRules(p: Port)
    requires Ruled(p)
    ensures Ruled(OnGetSourceCap(p))
  {}

  /** Exactly the harmful messages break the rules. */
  lemma MessageRules(p: Port, i: Input)
    requires Ruled(p) && EntryOrigins(p) && Readable(i)
    ensures Ruled(MessagePhase(p, i)) <==> !HarmfulMessage(p, i)
  {
    if i.msg.Some? && Connected(p) {
      var m := i.msg.value;
      var kind := HeaderKind(m.header);
      if HeaderCnt(m.header) > 0 {
        DataRules(p, kind, m.data, i);
      } else {
        ControlRules(p, kind, i);
      }
    }
  }

  lemma DataRules(p: Port, kind: nat, objects: Objects, i: Input)
    requires Ruled(p) && Connected(p) && Readable(i) && |objects| > 0
    ensures Ruled(HandleData(p, kind, objects, i)) <==> !(kind == REQUEST && p.role.Sink?)
  {
    if kind == SOURCE_CAP {
      SourceCapRules(p, objects, i.capIndex);
    } else if kind == REQUEST {
      RequestRules(p, objects, i.clock.run);
    } else if kind == BIST {
      BistRules(p, objects[0]);
    } else if kind == SINK_CAP {
      SinkCapRules(p, objects[0]);
    }
  }

  lemma ControlRules(p: Port, kind: nat, i: Input)
    requires Ruled(p) && Connected(p) && EntryOrigins(p)
    ensures Ruled(HandleControl(p, kind, i)) <==>
            !(|| (kind == SOFT_RESET && SwapWindow(p))
              || (kind == PR_SWAP && i.allowPowerSwap && SwapWindow(p))
              || (kind == PS_RDY && p.state == SnkSwapComplete)
              || (kind == PS_RDY && p.state == SrcSwapStandby && p.role.Source?))
  {
    if kind == GET_SOURCE_CAP {
      GetSourceCapRules(p);
    } else if kind == PS_RDY {
      PsRdyRules(p);
    } else if kind == REJECT || kind == WAIT {
      RefusalRules(p, kind == WAIT, i.clock.msg);
    } else if kind == ACCEPT {
      AcceptRules(p);
    } else if kind == SOFT_RESET {
      SoftResetRules(p);
    } else if kind == PR_SWAP {
      PrSwapRules(p, i.allowPowerSwap);
    } else if kind == DR_SWAP {
      DrSwapRules(p, i.allowDataSwap);
    }
  }

  lemma SourceAttachRules(p: Port, i: Input)
    requires Ruled(p) && SrcDisconnected <= p.state <= SrcStartup
    ensures Ruled(Closed(RunSourceAttach(p, i), p, i))
  {
    if p.state == SrcDisconnected {
    } else if p.state == SrcDisconnectedDebounce {
    } else if p.state == SrcHardResetRecover {
    }
  }

  lemma SrcDiscoveryRules(p: Port, i: Input)
    requires Ruled(p) && p.state == SrcDiscovery
    ensures Ruled(Closed(RunSrcDiscovery(p, i), p, i))
  {
    var q := ArmNoResponse(p, i);
    if q.counters.caps < CAPS_COUNT && TxOk(q) {
    }
  }

  lemma SrcTransitionRules(p: Port, i: Input)
    requires Ruled(p) && p.state == SrcTransition
    ensures Ruled(Closed(RunSrcTransition(p), p, i))
  {
    if TxOk(p) {
    }
  }

  lemma SourceContractRules(p: Port, i: Input)
    requires Ruled(p) && SrcDiscovery <= p.state <= SrcTransition
    ensures Ruled(Closed(RunSourceContract(p, i), p, i))
  {
    if p.state == SrcDiscovery {
      SrcDiscoveryRules(p, i);
    } else if p.state == SrcNegociate {
    } else if p.state == SrcAccepted {
    } else if p.state == SrcPowered {
    } else {
      SrcTransitionRules(p, i);
    }
  }

  lemma PolicyRules(p: Port, i: Input)
    requires Ruled(p) && (p.state == SrcReady || p.state == SnkReady) && PolicyDue(p)
    ensures Ruled(Closed(RunPolicy(p, i), p, i))
  {}

  lemma TendSinkRules(p: Port, i: Input)
    requires Ruled(p) && p.state == SrcReady
    ensures Ruled(Closed(TendSink(p, i), p, i))
  {
    if !p.flags.snkCapRecvd && p.counters.snkCap <= SNK_CAP_RETRIES {
    } else if PolicyDue(p) {
      PolicyRules(p, i);
    }
  }

  lemma SrcReadyRules(p: Port, i: Input)
    requires Ruled(p) && p.state == SrcReady
    ensures Ruled(Closed(RunSrcReady(p, i), p, i))
  {
    if !p.vdm.state.VdmBusy? && !p.flags.updateSrcCaps {
      TendSinkRules(CountSinkCap(p), i);
    }
  }

  lemma SourceReadyRules(p: Port, i: Input)
    requires Ruled(p) && SourceState(p.state) && p.state > SrcTransition
    ensures Ruled(Closed(RunSourceReady(p, i), p, i))
  {
    if p.state == SrcReady {
      SrcReadyRules(p, i);
    } else if p.state == SrcGetSinkCap {
    } else if p.state == SrcSwapInit {
    } else if p.state == SrcSwapSnkDisable {
    } else if p.state == SrcSwapSrcDisable {
    }
  }

  lemma SnkDebounceRules(p: Port, i: Input)
    requires Ruled(p) && p.state == SnkDisconnectedDebounce
    ensures Ruled(Closed(RunSnkDebounce(p, i), p, i))
  {}

  lemma SnkRecoverRules(p: Port, i: Input)
    requires Ruled(p) && p.state == SnkHardResetRecover
    ensures Ruled(Closed(RunSnkHardResetRecover(p, i), p, i))
  {}

  lemma SinkAttachRules(p: Port, i: Input)
    requires Ruled(p) && SnkDisconnected <= p.state <= SnkDiscovery
    ensures Ruled(Closed(RunSinkAttach(p, i), p, i))
  {
    if p.state == SnkDisconnected {
    } else if p.state == SnkDisconnectedDebounce {
      SnkDebounceRules(p, i);
    } else if p.state == SnkHardResetRecover {
      SnkRecoverRules(p, i);
    }
  }

  lemma ActReadyRules(p: Port, i: Input, rdo: Word, power: Power)
    requires Ruled(p) && p.state == SnkReady
    ensures Ruled(Closed(ActReady(p, i, rdo, power), p, i))
  {
    if !p.vdm.state.VdmBusy? {
      if p.request.pending {
        SendBuiltRules(p, false, rdo, power);
      } else if PolicyDue(p) {
        PolicyRules(p, i);
      }
    }
  }

  lemma SnkReadyRules(p: Port, i: Input)
    requires Ruled(p) && p.state == SnkReady && Readable(i)
    ensures Ruled(Closed(RunSnkReady(p, i), p, i))
  {
    var (rdo, power) := BuildRequest(p.caps, i.capIndex);
    ActReadyRules(p, i, rdo, power);
  }

  lemma SnkSwapStandbyRules(p: Port, i: Input)
    requires Ruled(p) && p.state == SnkSwapStandby
    ensures Ruled(Closed(RunSnkSwapStandby(p, i), p, i))
  {
    if Entered(p) && i.supplyOk {
    }
  }

  lemma SnkSwapCompleteRules(p: Port, i: Input)
    requires Ruled(p) && p.state == SnkSwapComplete
    ensures Ruled(Closed(RunSnkSwapComplete(p), p, i))
  {
    if TxOk(p) {
    }
  }

  lemma SinkContractRules(p: Port, i: Input)
    requires Ruled(p) && SnkRequested <= p.state <= SnkSwapComplete && Readable(i)
    ensures Ruled(Closed(RunSinkContract(p, i), p, i))
  {
    if p.state == SnkReady {
      SnkReadyRules(p, i);
    } else if p.state == SnkRequested {
    } else if p.state == SnkTransition {
    } else if p.state == SnkSwapInit {
    } else if p.state == SnkSwapSnkDisable {
    } else if p.state == SnkSwapSrcDisable {
    } else if p.state == SnkSwapStandby {
      SnkSwapStandbyRules(p, i);
    } else {
      SnkSwapCompleteRules(p, i);
    }
  }

  lemma SharedRules(p: Port, i: Input)
    requires Ruled(p) && !SourceState(p.state) && !SinkState(p.state)
    ensures Ruled(Closed(RunShared(p, i), p, i))
  {
    if p.state == DrSwap {
    } else if p.state == SoftReset {
    } else if p.state == HardResetSend {
    } else if p.state == HardResetExecute {
      ResetRules(p, i.clock.run);
    }
  }

  lemma HandlerRules(p: Port, i: Input)
    requires Ruled(p) && Readable(i)
    ensures Ruled(HandlerPhase(p, i))
  {
    if SrcDisconnected <= p.state <= SrcStartup {
      SourceAttachRules(p, i);
    } else if SrcDiscovery <= p.state <= SrcTransition {
      SourceContractRules(p, i);
    } else if SourceState(p.state) {
      SourceReadyRules(p, i);
    } else if SnkDisconnected <= p.state <= SnkDiscovery {
      SinkAttachRules(p, i);
    } else if SinkState(p.state) {
      SinkContractRules(p, i);
    } else {
      SharedRules(p, i);
    }
  }

  lemma TimerRules(p: Port, end: nat)
    requires Ruled(p) && TimersKept(p)
    ensures Ruled(TimerPhase(p, end))
  {
    if p.timer.at != 0 && end >= p.timer.at {
    }
  }

  lemma DetachRules(p: Port, i: Input)
    requires Ruled(p)
    ensures Ruled(DetachPhase(p, i))
  {}

  // ---- Events and runs ----

  lemma BeforeMessageRules(p: Port, i: Input)
    requires Safe(p) && Ruled(p) && !(i.reset && SwapWindow(p))
    ensures Ruled(BeforeMessage(p, i)) && EntryOrigins(BeforeMessage(p, i))
  {
    var q := ButtonPhase(p.(sent := NoFrames), i.reset);
    ButtonRules(p, i.reset);
    VdmRules(q, i.clock.vdm);
    var r := VdmPhase(q, i.clock.vdm);
    ResetRules(r, i.clock.board);
    ButtonKeeps(p, i.reset);
    VdmKeeps(q, p.history.now, i.clock.vdm);
    BoardKeeps(r, p.history.now, i.boardOk, i.clock.board);
  }

  lemma PassRules(p: Port, i: Input)
    requires Safe(p) && Ruled(p) && Readable(i) && Timely(p.history.now, i.clock)
    requires !Harmful(p, Poll(i))
    ensures Ruled(Pass(p, i))
  {
    BeforeMessageRules(p, i);
    MessageRules(BeforeMessage(p, i), i);
    BeforeHandlerKeeps(p, i);
    var q := BeforeHandler(p, i);
    HandlerKeeps(q, i);
    HandlerRules(q, i);
    TimerRules(HandlerPhase(q, i), i.clock.end);
    DetachRules(TimerPhase(HandlerPhase(q, i), i.clock.end), i);
  }

  lemma SwapCallRules(p: Port)
    requires Ruled(p)
    ensures Ruled(RequestPowerSwap(p)) && Ruled(RequestDataSwap(p))
    ensures Ruled(RequestSoftReset(p)) <==> !SwapWindow(p)
  {}

  lemma SourceVoltageRules(p: Port)
    requires Ruled(p)
    ensures Ruled(RequestSourceVoltage(p)) <==> !Harmful(p, AskSourceVoltage)
  {}

  /** The calls of the application: exactly the harmful ones break the rules. */
  lemma CallRules(p: Port, e: Event)
    requires Ruled(p) && Legible(e) && !e.Poll?
    ensures Ruled(After(p, e)) <==> !Harmful(p, e)
  {
    match e
    case HardResetReceived(t) => ResetRules(p, t);
    case AskPowerSwap => SwapCallRules(p);
    case AskDataSwap => SwapCallRules(p);
    case AskSoftReset => SwapCallRules(p);
    case AskSourceVoltage => SourceVoltageRules(p);
    case _ =>
  }

  ghost predicate Unharmed(p: Port, run: seq<Event>)
    requires Valid(p, run)
    decreases |run|
  {
    run == [] || (!Harmful(p, run[0]) && Unharmed(After(p, run[0]), run[1..]))
  }

  lemma {:induction false} RunRules(p: Port, run: seq<Event>)
    requires Safe(p) && Ruled(p) && Valid(p, run) && Unharmed(p, run)
    ensures Ruled(End(p, run))
    decreases |run|
  {
    if run != [] {
      if run[0].Poll? {
        PassRules(p, run[0].i);
      } else {
        CallRules(p, run[0]);
      }
      AfterKeeps(p, run[0]);
      RunRules(After(p, run[0]), run[1..]);
    }
  }
}
