/** Role and state agree in every run in which a Request reaches only a source, whatever
    else happens to the power path. */
module RoleAgreement {
  import opened PdWords
  import opened PowerPolicy
  import opened PortState
  import opened PortMachine
  import opened PortRuns
  import opened PortSafety
  import opened PortPower

  /** A Request that reaches a sink. */
  predicate AsksSink(p: Port, i: Input) {
    i.msg.Some? && Connected(p) && p.role.Sink? && i.msg.value.IsData(REQUEST)
  }

  lemma AnswerAgrees(p: Port, first: Word, caps: CapTable, limit: Power, rdo: Word, power: Power)
    requires RoleAgrees(p) && p.role.Sink?
    ensures RoleAgrees(AnswerWith(p, first, caps, limit, rdo, power))
  {}

  lemma OfferAgrees(p: Port, objects: Objects, index: nat)
    requires RoleAgrees(p) && |objects| > 0 && index < MAX_OBJECTS
    ensures RoleAgrees(OnSourceCap(p, objects, index))
  {
    if p.state == SnkDiscovery || p.state == SnkTransition || p.state == SnkReady {
      var caps, limit, rdo, power := AnswerShape(p, objects, index);
      AnswerAgrees(p, objects[0], caps, limit, rdo, power);
    }
  }

  lemma DataAgrees(p: Port, kind: nat, objects: Objects, i: Input)
    requires RoleAgrees(p) && Connected(p) && Readable(i) && |objects| > 0
    ensures RoleAgrees(HandleData(p, kind, objects, i)) <==> !(kind == REQUEST && p.role.Sink?)
  {
    if kind == SOURCE_CAP {
      OfferAgrees(p, objects, i.capIndex);
    } else if kind == REQUEST {
    } else if kind == BIST {
    } else if kind == SINK_CAP {
    }
  }

  lemma PsRdyAgrees(p: Port)
    requires RoleAgrees(p)
    ensures RoleAgrees(OnPsRdy(p))
  {}

  lemma RefusalAgrees(p: Port, wait: bool, t: nat)
    requires RoleAgrees(p)
    ensures RoleAgrees(OnRefusal(p, wait, t))
  {}

  lemma AcceptAgrees(p: Port)
    requires RoleAgrees(p)
    ensures RoleAgrees(OnAccept(p))
  {}

  lemma DrSwapAgrees(p: Port, allowed: bool)
    requires RoleAgrees(p)
    ensures RoleAgrees(OnDrSwap(p, allowed))
  {
    if allowed {
    }
  }

  lemma SwapAgrees(p: Port, allowed: bool)
    requires RoleAgrees(p)
    ensures RoleAgrees(OnPrSwap(p, allowed)) && RoleAgrees(OnDrSwap(p, allowed))
  {
    DrSwapAgrees(p, allowed);
    if allowed {
    }
  }

  lemma SourceCapAndResetAgree(p: Port)
    requires RoleAgrees(p)
    ensures RoleAgrees(OnGetSourceCap(p)) && RoleAgrees(SendControl(ExecuteSoftReset(p), ACCEPT))
  {}

  lemma ControlAgrees(p: Port, kind: nat, i: Input)
    requires RoleAgrees(p)
    ensures RoleAgrees(HandleControl(p, kind, i))
  {
    if kind == GET_SOURCE_CAP || kind == SOFT_RESET {
      SourceCapAndResetAgree(p);
    } else if kind == PS_RDY {
      PsRdyAgrees(p);
    } else if kind == REJECT || kind == WAIT {
      RefusalAgrees(p, kind == WAIT, i.clock.msg);
    } else if kind == ACCEPT {
      AcceptAgrees(p);
    } else if kind == PR_SWAP {
      SwapAgrees(p, i.allowPowerSwap);
    } else if kind == DR_SWAP {
      SwapAgrees(p, i.allowDataSwap);
    }
  }

  /** Of all messages exactly a Request that reaches a sink breaks the agreement. */
  lemma MessageAgrees(p: Port, i: Input)
    requires RoleAgrees(p) && Readable(i)
    ensures RoleAgrees(MessagePhase(p, i)) <==> !AsksSink(p, i)
  {
    if i.msg.Some? && Connected(p) {
      var m := i.msg.value;
      if HeaderCnt(m.header) > 0 {
        DataAgrees(p, HeaderKind(m.header), m.data, i);
      } else {
        ControlAgrees(p, HeaderKind(m.header), i);
      }
    }
  }

  lemma PrefixAgrees(p: Port, i: Input)
    requires RoleAgrees(p)
    ensures RoleAgrees(BeforeMessage(p, i))
  {}

  lemma SourceAttachAgrees(p: Port, i: Input)
    requires RoleAgrees(p) && SrcDisconnected <= p.state <= SrcStartup
    ensures RoleAgrees(Closed(RunSourceAttach(p, i), p, i))
  {
    if p.state == SrcDisconnected {
    } else if p.state == SrcDisconnectedDebounce {
    }
  }

  lemma SrcDiscoveryAgrees(p: Port, i: Input)
    requires RoleAgrees(p) && p.state == SrcDiscovery
    ensures RoleAgrees(Closed(RunSrcDiscovery(p, i), p, i))
  {
    var q := ArmNoResponse(p, i);
    if q.counters.caps < CAPS_COUNT && TxOk(q) {
    }
  }

  lemma SourceContractAgrees(p: Port, i: Input)
    requires RoleAgrees(p) && SrcDiscovery <= p.state <= SrcTransition
    ensures RoleAgrees(Closed(RunSourceContract(p, i), p, i))
  {
    if p.state == SrcDiscovery {
      SrcDiscoveryAgrees(p, i);
    } else if p.state == SrcNegociate {
    } else if p.state == SrcAccepted {
    } else if p.state == SrcPowered {
    } else if TxOk(p) {
    }
  }

  lemma SrcReadyAgrees(p: Port, i: Input)
    requires RoleAgrees(p) && p.state == SrcReady
    ensures RoleAgrees(Closed(RunSrcReady(p, i), p, i))
  {
    if !p.vdm.state.VdmBusy? && !p.flags.updateSrcCaps {
      if PolicyDue(CountSinkCap(p)) {
      }
    }
  }

  lemma SourceReadyAgrees(p: Port, i: Input)
    requires RoleAgrees(p) && SourceState(p.state) && p.state > SrcTransition
    ensures RoleAgrees(Closed(RunSourceReady(p, i), p, i))
  {
    if p.state == SrcReady {
      SrcReadyAgrees(p, i);
    } else if p.state == SrcGetSinkCap {
    } else if p.state == SrcSwapInit {
    }
  }

  lemma SnkDebounceAgrees(p: Port, i: Input)
    requires RoleAgrees(p) && p.state == SnkDisconnectedDebounce
    ensures RoleAgrees(Closed(RunSnkDebounce(p, i), p, i))
  {}

  lemma SnkRecoverAgrees(p: Port, i: Input)
    requires RoleAgrees(p) && p.state == SnkHardResetRecover
    ensures RoleAgrees(Closed(RunSnkHardResetRecover(p, i), p, i))
  {}

  lemma SinkAttachAgrees(p: Port, i: Input)
    requires RoleAgrees(p) && SnkDisconnected <= p.state <= SnkDiscovery
    ensures RoleAgrees(Closed(RunSinkAttach(p, i), p, i))
  {
    if p.state == SnkDisconnected {
    } else if p.state == SnkDisconnectedDebounce {
      SnkDebounceAgrees(p, i);
    } else if p.state == SnkHardResetRecover {
      SnkRecoverAgrees(p, i);
    }
  }

  lemma RenewAgrees(p: Port, i: Input, rdo: Word, power: Power)
    requires RoleAgrees(p) && p.state == SnkReady && p.request.pending && !p.vdm.state.VdmBusy?
    ensures RoleAgrees(Closed(ActReady(p, i, rdo, power), p, i))
  {}

  lemma ActReadyAgrees(p: Port, i: Input, rdo: Word, power: Power)
    requires RoleAgrees(p) && p.state == SnkReady
    ensures RoleAgrees(Closed(ActReady(p, i, rdo, power), p, i))
  {
    if !p.vdm.state.VdmBusy? {
      if p.request.pending {
        RenewAgrees(p, i, rdo, power);
      } else if PolicyDue(p) {
      }
    }
  }

  lemma SnkReadyAgrees(p: Port, i: Input)
    requires RoleAgrees(p) && p.state == SnkReady && Readable(i)
    ensures RoleAgrees(Closed(RunSnkReady(p, i), p, i))
  {
    var (rdo, power) := BuildRequest(p.caps, i.capIndex);
    ActReadyAgrees(p, i, rdo, power);
  }

  lemma SinkContractAgrees(p: Port, i: Input)
    requires RoleAgrees(p) && SnkRequested <= p.state <= SnkSwapComplete && Readable(i)
    ensures RoleAgrees(Closed(RunSinkContract(p, i), p, i))
  {
    if p.state == SnkReady {
      SnkReadyAgrees(p, i);
    } else if p.state == SnkRequested {
    } else if p.state == SnkTransition {
    } else if p.state == SnkSwapInit {
    } else if p.state == SnkSwapComplete {
    }
  }

  lemma SharedAgrees(p: Port, i: Input)
    requires RoleAgrees(p) && !SourceState(p.state) && !SinkState(p.state)
    ensures RoleAgrees(Closed(RunShared(p, i), p, i))
  {
    if p.state == DrSwap {
    } else if p.state == SoftReset {
    } else if p.state == HardResetSend {
    } else if p.state == HardResetExecute {
    }
  }

  lemma HandlerAgrees(p: Port, i: Input)
    requires RoleAgrees(p) && Readable(i)
    ensures RoleAgrees(HandlerPhase(p, i))
  {
    if SrcDisconnected <= p.state <= SrcStartup {
      SourceAttachAgrees(p, i);
    } else if SrcDiscovery <= p.state <= SrcTransition {
      SourceContractAgrees(p, i);
    } else if SourceState(p.state) {
      SourceReadyAgrees(p, i);
    } else if SnkDisconnected <= p.state <= SnkDiscovery {
      SinkAttachAgrees(p, i);
    } else if SinkState(p.state) {
      SinkContractAgrees(p, i);
    } else {
      SharedAgrees(p, i);
    }
  }

  lemma TailAgrees(p: Port, i: Input)
    requires RoleAgrees(p) && TimersKept(p)
    ensures RoleAgrees(DetachPhase(TimerPhase(p, i.clock.end), i))
  {
    if p.timer.at != 0 && i.clock.end >= p.timer.at {
    }
  }

  lemma PassAgrees(p: Port, i: Input)
    requires Safe(p) && RoleAgrees(p) && Readable(i) && Timely(p.history.now, i.clock)
    requires !AsksSink(BeforeMessage(p, i), i)
    ensures RoleAgrees(Pass(p, i))
  {
    PrefixAgrees(p, i);
    MessageAgrees(BeforeMessage(p, i), i);
    BeforeHandlerKeeps(p, i);
    var q := BeforeHandler(p, i);
    HandlerKeeps(q, i);
    HandlerAgrees(q, i);
    TailAgrees(HandlerPhase(q, i), i);
  }

  /** No call and no alert breaks the agreement. */
  lemma CallAgrees(p: Port, e: Event)
    requires RoleAgrees(p) && Legible(e) && !e.Poll?
    ensures RoleAgrees(After(p, e))
  {}

  ghost predicate OnlySourcesAsked(p: Port, run: seq<Event>)
    requires Valid(p, run)
    decreases |run|
  {
    run == [] ||
    (&& (run[0].Poll? ==> !AsksSink(BeforeMessage(p, run[0].i), run[0].i))
     && OnlySourcesAsked(After(p, run[0]), run[1..]))
  }

  lemma {:induction false} RunAgrees(p: Port, run: seq<Event>)
    requires Safe(p) && RoleAgrees(p) && Valid(p, run) && OnlySourcesAsked(p, run)
    ensures RoleAgrees(End(p, run))
    decreases |run|
  {
    if run != [] {
      if run[0].Poll? {
        PassAgrees(p, run[0].i);
      } else {
        CallAgrees(p, run[0]);
      }
      AfterKeeps(p, run[0]);
      RunAgrees(After(p, run[0]), run[1..]);
    }
  }

  /** Every sink state is held by a sink and every source state by a source, but for
      SRC_SWAP_STANDBY past its entry action, and every running timer leads to a state of
      the role it will fire under. */
  lemma RolesAgree(start: Port, run: seq<Event>)
    requires Initial(start) && Valid(start, run) && OnlySourcesAsked(start, run)
    ensures RoleAgrees(End(start, run))
  {
    InitialIsSafe(start);
    assert RoleAgrees(start);
    RunAgrees(start, run);
  }
}
