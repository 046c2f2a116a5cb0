/** Service: an attached port listens and acknowledges in its own roles, and a source in
    operation supplies VBUS, in every run without one of the listed events. */
module PortService {
  import opened PdWords
  import opened PowerPolicy
  import opened PortState
  import opened PortMachine
  import opened PortRuns
  import opened PortSafety
  import opened PortPower

  /** The states in which a source has its supply off, or may have. */
  predicate Unpowered(s: State) {
    || s == SrcDisconnected || s == SrcDisconnectedDebounce || s == SrcHardResetRecover
    || s == SrcSwapSrcDisable || s == SrcSwapStandby
  }

  /** Between its PS_RDY and that of the partner, a swapping source is a sink that still
      acknowledges as a source. */
  predicate Turning(p: Port) {
    p.state == SrcSwapStandby && p.last == p.state && p.outputs.headRole != p.role
  }

  /** The receiver is on in every attached state, and acknowledges in the port's roles; VBUS is
      driven by a source in operation, and by a sink that is about to become one. */
  predicate Serves(p: Port) {
    && (!Detached(p.state) ==>
          p.outputs.headDataRole == p.dataRole && (p.outputs.headRole == p.role || Turning(p)))
    && p.state > Suspended && (!Detached(p.state) ==> p.outputs.rx)
    && (p.role.Source? && !Unpowered(p.state) ==> p.outputs.vbusOn)
    && (p.state == SrcSwapSrcDisable && p.last != p.state ==> p.outputs.vbusOn)
    && (SwapWindow(p) ==> p.outputs.vbusOn)
  }

  // ---- The events that break it ----

  /** A source that is attached, but whose supply is off. */
  predicate Dark(p: Port) { p.role.Source? && Unpowered(p.state) && !Detached(p.state) && !p.outputs.vbusOn }

  predicate Unsettled(p: Port) { Dark(p) || Turning(p) }

  /** The message moves a source without supply, or one in the middle of the swap, back into
      operation: a Soft_Reset, an allowed PR_Swap, or, for a source, a Request, unless it is
      granted and the Accept fails. */
  predicate Revives(p: Port, i: Input) {
    && i.msg.Some? && Connected(p) && Unsettled(p)
    && var m := i.msg.value;
       || (m.IsData(REQUEST) && !(|m.data| == 1 && RequestGranted(m.data[0], p.srcPdos) && !TxOk(p)))
       || m.IsControl(SOFT_RESET)
       || (m.IsControl(PR_SWAP) && i.allowPowerSwap)
  }

  predicate Disserving(p: Port, e: Event) {
    match e
    case Poll(i) =>
      var b := VdmPhase(ButtonPhase(p.(sent := NoFrames), i.reset), i.clock.vdm);
      || (i.reset && (Detached(p.state) || Unsettled(p)))
      || (!i.boardOk && (Detached(b.state) || Turning(b)))
      || Revives(BeforeMessage(p, i), i)
    case HardResetReceived(_) => Detached(p.state) || Turning(p)
    case AskSoftReset => Connected(p) && Unsettled(p)
    case _ => false
  }

  // ---- Phases ----

  lemma ButtonServes(p: Port, reset: bool)
    requires Ruled(p) && Serves(p) && SilentDetached(p)
    ensures Serves(ButtonPhase(p.(sent := NoFrames), reset)) <==> !(reset && (Detached(p.state) || Unsettled(p)))
  {}

  lemma ResetServes(p: Port, t: nat)
    requires Ruled(p) && Serves(p) && SilentDetached(p)
    ensures Serves(ExecuteHardReset(p, t)) <==> !Detached(p.state) && !Turning(p)
  {}

  lemma RequestServes(p: Port, objects: Objects, t: nat)
    requires Ruled(p) && Serves(p) && |objects| > 0 && Connected(p) && p.role.Source?
    ensures Serves(OnRequest(p, objects, t)) <==>
            !(Dark(p) && !(|objects| == 1 && RequestGranted(objects[0], p.srcPdos) && !TxOk(p)))
  {}

  lemma SoftResetServes(p: Port)
    requires Ruled(p) && Serves(p) && Connected(p)
    ensures Serves(SendControl(ExecuteSoftReset(p), ACCEPT)) <==> !Unsettled(p)
  {}

  lemma PrSwapServes(p: Port, allowed: bool)
    requires Ruled(p) && Serves(p) && Connected(p)
    ensures Serves(OnPrSwap(p, allowed)) <==> !(allowed && Unsettled(p))
  {}

  lemma PsRdyServes(p: Port)
    requires Ruled(p) && Serves(p) && Connected(p) && EntryOrigins(p)
    ensures Serves(OnPsRdy(p))
  {}

  lemma AcceptServes(p: Port)
    requires Ruled(p) && Serves(p) && Connected(p)
    ensures Serves(OnAccept(p))
  {}

  lemma RefusalServes(p: Port, wait: bool, t: nat)
    requires Ruled(p) && Serves(p) && Connected(p)
    ensures Serves(OnRefusal(p, wait, t))
  {}

  lemma SourceCapServes(p: Port)
    requires Serves(p) && Connected(p)
    ensures Serves(OnGetSourceCap(p))
  {}

  lemma DrSwapServes(p: Port, allowed: bool)
    requires Serves(p)
    ensures Serves(OnDrSwap(p, allowed))
  {}

  lemma OtherControlServes(p: Port, kind: nat, i: Input)
    requires Ruled(p) && Serves(p) && Connected(p)
    requires kind != PS_RDY && kind != REJECT && kind != WAIT && kind != ACCEPT && kind != SOFT_RESET && kind != PR_SWAP
    ensures Serves(HandleControl(p, kind, i))
  {
    if kind == GET_SOURCE_CAP {
      SourceCapServes(p);
    } else if kind == DR_SWAP {
      DrSwapServes(p, i.allowDataSwap);
    }
  }

  lemma ControlServes(p: Port, kind: nat, i: Input)
    requires Ruled(p) && Serves(p) && Connected(p) && EntryOrigins(p)
    ensures Serves(HandleControl(p, kind, i)) <==>
            !(Unsettled(p) && (kind == SOFT_RESET || (kind == PR_SWAP && i.allowPowerSwap)))
  {
    if kind == PS_RDY {
      PsRdyServes(p);
    } else if kind == REJECT || kind == WAIT {
      RefusalServes(p, kind == WAIT, i.clock.msg);
    } else if kind == ACCEPT {
      AcceptServes(p);
    } else if kind == SOFT_RESET {
      SoftResetServes(p);
    } else if kind == PR_SWAP {
      PrSwapServes(p, i.allowPowerSwap);
    } else {
      OtherControlServes(p, kind, i);
    }
  }

  lemma AnswerServes(p: Port, first: Word, caps: CapTable, limit: Power, rdo: Word, power: Power)
    requires Serves(p) && p.role.Sink? && !SwapWindow(p) && !Detached(p.state) && !Turning(p)
    ensures Serves(AnswerWith(p, first, caps, limit, rdo, power))
  {}

  lemma OtherDataServes(p: Port, kind: nat, objects: Objects, i: Input)
    requires Ruled(p) && Serves(p) && Connected(p) && Readable(i) && |objects| > 0 && kind != REQUEST
    ensures Serves(HandleData(p, kind, objects, i))
  {
    if kind == SOURCE_CAP {
      if p.state == SnkDiscovery || p.state == SnkTransition || p.state == SnkReady {
        var caps, limit, rdo, power := AnswerShape(p, objects, i.capIndex);
        AnswerServes(p, objects[0], caps, limit, rdo, power);
      }
    } else if kind == BIST {
    } else if kind == SINK_CAP {
    }
  }

  /** Of the messages that do not break the rules of the power path exactly those that revive
      a source without supply break the service. */
  lemma MessageServes(p: Port, i: Input)
    requires Ruled(p) && Serves(p) && EntryOrigins(p) && Readable(i) && !HarmfulMessage(p, i)
    ensures Serves(MessagePhase(p, i)) <==> !Revives(p, i)
  {
    if i.msg.Some? && Connected(p) {
      var m := i.msg.value;
      var kind := HeaderKind(m.header);
      if HeaderCnt(m.header) == 0 {
        ControlServes(p, kind, i);
      } else if kind == REQUEST {
        RequestServes(p, m.data, i.clock.run);
      } else {
        OtherDataServes(p, kind, m.data, i);
      }
    }
  }

  // ---- The cases of the switch ----

  lemma SourceAttachServes(p: Port, i: Input)
    requires Ruled(p) && Serves(p) && SrcDisconnected <= p.state <= SrcStartup
    ensures Serves(Closed(RunSourceAttach(p, i), p, i))
  {
    if p.state == SrcDisconnected {
    } else if p.state == SrcDisconnectedDebounce {
    } else if p.state == SrcHardResetRecover {
    }
  }

  lemma SrcDiscoveryServes(p: Port, i: Input)
    requires Ruled(p) && Serves(p) && p.state == SrcDiscovery
    ensures Serves(Closed(RunSrcDiscovery(p, i), p, i))
  {
    var q := ArmNoResponse(p, i);
    if q.counters.caps < CAPS_COUNT && TxOk(q) {
    }
  }

  lemma SourceContractServes(p: Port, i: Input)
    requires Ruled(p) && Serves(p) && SrcDiscovery <= p.state <= SrcTransition
    ensures Serves(Closed(RunSourceContract(p, i), p, i))
  {
    if p.state == SrcDiscovery {
      SrcDiscoveryServes(p, i);
    } else if p.state == SrcNegociate {
    } else if p.state == SrcAccepted {
    } else if p.state == SrcPowered {
    }
  }

  lemma PolicyServes(p: Port, i: Input)
    requires Ruled(p) && Serves(p) && (p.state == SrcReady || p.state == SnkReady) && PolicyDue(p)
    ensures Serves(Closed(RunPolicy(p, i), p, i))
  {}

  lemma TendSinkServes(p: Port, i: Input)
    requires Ruled(p) && Serves(p) && p.state == SrcReady
    ensures Serves(Closed(TendSink(p, i), p, i))
  {
    if !p.flags.snkCapRecvd && p.counters.snkCap <= SNK_CAP_RETRIES {
    } else if PolicyDue(p) {
      PolicyServes(p, i);
    }
  }

  lemma SrcReadyServes(p: Port, i: Input)
    requires Ruled(p) && Serves(p) && p.state == SrcReady
    ensures Serves(Closed(RunSrcReady(p, i), p, i))
  {
    if !p.vdm.state.VdmBusy? && !p.flags.updateSrcCaps {
      TendSinkServes(CountSinkCap(p), i);
    }
  }

  lemma SourceReadyServes(p: Port, i: Input)
    requires Ruled(p) && Serves(p) && SourceState(p.state) && p.state > SrcTransition
    ensures Serves(Closed(RunSourceReady(p, i), p, i))
  {
    if p.state == SrcReady {
      SrcReadyServes(p, i);
    } else if p.state == SrcGetSinkCap {
    } else if p.state == SrcSwapInit {
    } else if p.state == SrcSwapSnkDisable {
    } else if p.state == SrcSwapSrcDisable {
    }
  }

  lemma SnkDebounceServes(p: Port, i: Input)
    requires Ruled(p) && Serves(p) && p.state == SnkDisconnectedDebounce
    ensures Serves(Closed(RunSnkDebounce(p, i), p, i))
  {}

  lemma SnkRecoverServes(p: Port, i: Input)
    requires Ruled(p) && Serves(p) && p.state == SnkHardResetRecover
    ensures Serves(Closed(RunSnkHardResetRecover(p, i), p, i))
  {}

  lemma SinkAttachServes(p: Port, i: Input)
    requires Ruled(p) && Serves(p) && SnkDisconnected <= p.state <= SnkDiscovery
    ensures Serves(Closed(RunSinkAttach(p, i), p, i))
  {
    if p.state == SnkDisconnected {
    } else if p.state == SnkDisconnectedDebounce {
      SnkDebounceServes(p, i);
    } else if p.state == SnkHardResetRecover {
      SnkRecoverServes(p, i);
    }
  }

  lemma ActReadyServes(p: Port, i: Input, rdo: Word, power: Power)
    requires Ruled(p) && Serves(p) && p.state == SnkReady
    ensures Serves(Closed(ActReady(p, i, rdo, power), p, i))
  {
    if !p.vdm.state.VdmBusy? {
      if p.request.pending {
      } else if PolicyDue(p) {
        PolicyServes(p, i);
      }
    }
  }

  lemma SinkContractServes(p: Port, i: Input)
    requires Ruled(p) && Serves(p) && SnkRequested <= p.state <= SnkSwapComplete && Readable(i)
    ensures Serves(Closed(RunSinkContract(p, i), p, i))
  {
    if p.state == SnkReady {
      var (rdo, power) := BuildRequest(p.caps, i.capIndex);
      ActReadyServes(p, i, rdo, power);
    } else if p.state == SnkRequested {
    } else if p.state == SnkTransition {
    } else if p.state == SnkSwapInit {
    } else if p.state == SnkSwapSnkDisable {
    } else if p.state == SnkSwapSrcDisable {
    } else if p.state == SnkSwapStandby {
    }
  }

  lemma SharedServes(p: Port, i: Input)
    requires Ruled(p) && Serves(p) && SilentDetached(p) && !SourceState(p.state) && !SinkState(p.state)
    ensures Serves(Closed(RunShared(p, i), p, i))
  {
    if p.state == DrSwap {
    } else if p.state == SoftReset {
    } else if p.state == HardResetSend {
    } else if p.state == HardResetExecute {
      ResetServes(p, i.clock.run);
    }
  }

  /** No case of the switch breaks the service. */
  lemma HandlerServes(p: Port, i: Input)
    requires Ruled(p) && Serves(p) && SilentDetached(p) && Readable(i)
    ensures Serves(HandlerPhase(p, i))
  {
    if SrcDisconnected <= p.state <= SrcStartup {
      SourceAttachServes(p, i);
    } else if SrcDiscovery <= p.state <= SrcTransition {
      SourceContractServes(p, i);
    } else if SourceState(p.state) {
      SourceReadyServes(p, i);
    } else if SnkDisconnected <= p.state <= SnkDiscovery {
      SinkAttachServes(p, i);
    } else if SinkState(p.state) {
      SinkContractServes(p, i);
    } else {
      SharedServes(p, i);
    }
  }

  lemma TimerServes(p: Port, end: nat)
    requires Ruled(p) && Serves(p) && TimersKept(p)
    ensures Serves(TimerPhase(p, end))
  {
    if p.timer.at != 0 && end >= p.timer.at {
    }
  }

  lemma DetachServes(p: Port, i: Input)
    requires Ruled(p) && Serves(p)
    ensures Serves(DetachPhase(p, i))
  {}

  // ---- Events and runs ----

  lemma BoardServes(p: Port, ok: bool, t: nat)
    requires Ruled(p) && Serves(p) && SilentDetached(p)
    ensures Serves(BoardPhase(p, ok, t)) <==> !(!ok && (Detached(p.state) || Turning(p)))
  {
    ResetServes(p, t);
  }

  lemma BeforeMessageServes(p: Port, i: Input)
    requires Safe(p) && Ruled(p) && Serves(p) && !(i.reset && SwapWindow(p))
    requires !Disserving(p, Poll(i))
    ensures Serves(BeforeMessage(p, i))
  {
    var q := ButtonPhase(p.(sent := NoFrames), i.reset);
    ButtonServes(p, i.reset);
    ButtonRules(p, i.reset);
    ButtonKeeps(p, i.reset);
    VdmRules(q, i.clock.vdm);
    BoardServes(VdmPhase(q, i.clock.vdm), i.boardOk, i.clock.board);
  }

  lemma PassServes(p: Port, i: Input)
    requires Safe(p) && Ruled(p) && Serves(p) && Readable(i) && Timely(p.history.now, i.clock)
    requires !Harmful(p, Poll(i)) && !Disserving(p, Poll(i))
    ensures Serves(Pass(p, i))
  {
    BeforeMessageRules(p, i);
    BeforeMessageServes(p, i);
    MessageServes(BeforeMessage(p, i), i);
    MessageRules(BeforeMessage(p, i), i);
    BeforeHandlerKeeps(p, i);
    var q := BeforeHandler(p, i);
    HandlerKeeps(q, i);
    HandlerRules(q, i);
    HandlerServes(q, i);
    var h := HandlerPhase(q, i);
    TimerServes(h, i.clock.end);
    TimerRules(h, i.clock.end);
    DetachServes(TimerPhase(h, i.clock.end), i);
  }

  lemma SwapCallServes(p: Port)
    requires Ruled(p) && Serves(p) && SilentDetached(p)
    ensures Serves(RequestPowerSwap(p)) && Serves(RequestDataSwap(p))
    ensures Serves(RequestSoftReset(p)) <==> !(Connected(p) && Unsettled(p))
  {}

  lemma SourceVoltageServes(p: Port)
    requires Ruled(p) && Serves(p)
    ensures Serves(RequestSourceVoltage(p))
  {}

  lemma OtherCallServes(p: Port, e: Event)
    requires Serves(p)
    requires e.TxDone? || e.AskNewPower? || e.AskContractUpdate? || e.AskPing? || e.AskVdm?
    ensures Serves(After(p, e))
  {}

  /** Of the calls and alerts exactly the listed ones break the service. */
  lemma CallServes(p: Port, e: Event)
    requires Ruled(p) && Serves(p) && SilentDetached(p) && Legible(e) && !e.Poll?
    ensures Serves(After(p, e)) <==> !Disserving(p, e)
  {
    match e
    case HardResetReceived(t) => ResetServes(p, t);
    case AskPowerSwap => SwapCallServes(p);
    case AskDataSwap => SwapCallServes(p);
    case AskSoftReset => SwapCallServes(p);
    case AskSourceVoltage => SourceVoltageServes(p);
    case _ => OtherCallServes(p, e);
  }

  ghost predicate Undisserved(p: Port, run: seq<Event>)
    requires Valid(p, run)
    decreases |run|
  {
    run == [] || (!Harmful(p, run[0]) && !Disserving(p, run[0]) && Undisserved(After(p, run[0]), run[1..]))
  }

  lemma {:induction false} RunServes(p: Port, run: seq<Event>)
    requires Safe(p) && Ruled(p) && Serves(p) && Valid(p, run) && Undisserved(p, run)
    ensures Serves(End(p, run))
    decreases |run|
  {
    if run != [] {
      if run[0].Poll? {
        PassRules(p, run[0].i);
        PassServes(p, run[0].i);
      } else {
        CallRules(p, run[0]);
        CallServes(p, run[0]);
      }
      AfterKeeps(p, run[0]);
      RunServes(After(p, run[0]), run[1..]);
    }
  }

  lemma InitialServes(p: Port)
    requires Initial(p)
    ensures Safe(p) && Ruled(p) && Serves(p)
  {}

  /** From power-on: an attached port listens and acknowledges in its roles, and a source past
      its debounce that is neither recovering nor swapping supplies VBUS. */
  lemma ServiceIsKept(start: Port, run: seq<Event>)
    requires Initial(start) && Valid(start, run) && Undisserved(start, run)
    ensures var p := End(start, run);
            && (!Detached(p.state) ==> p.outputs.rx)
            && (!Detached(p.state) ==>
                  && p.outputs.headDataRole == p.dataRole
                  && (p.outputs.headRole == p.role || p.state == SrcSwapStandby))
            && (p.role.Source? && !Unpowered(p.state) ==> p.outputs.vbusOn)
  {
    InitialServes(start);
    RunServes(start, run);
  }
}
