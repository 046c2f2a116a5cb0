/** Attaching, choosing the CC line, toggling and detaching, in terms of what the two lines
    show. */
module PortAttach {
  import opened PdWords
  import opened PowerPolicy
  import opened PortState
  import opened PortMachine
  import opened PortAnswers

  /** The current in mA that a source advertises with a line's Rp; 0 without one. */
  function Advertised(c: Cc): nat {
    match c
    case SnkDef => 500
    case Snk1A5 => 1500
    case Snk3A0 => 3000
    case _ => 0
  }

  function Line(second: bool, cc1: Cc, cc2: Cc): Cc { if second then cc2 else cc1 }

  /** The line a sink must choose carries Rp, and no less current than the other. */
  predicate BestForSink(second: bool, cc1: Cc, cc2: Cc) {
    Advertised(Line(second, cc1, cc2)) > 0 && Advertised(Line(second, cc1, cc2)) >= Advertised(Line(!second, cc1, cc2))
  }

  /** What the debounce of a sink has to see: Rp on one line (a source) or on both (a debug
      accessory). */
  function SinkSees(cc1: Cc, cc2: Cc): CcState {
    if Advertised(cc1) == 0 && Advertised(cc2) == 0 then CcNone
    else if Advertised(cc1) > 0 && Advertised(cc2) > 0 then DebugAcc
    else DfpAttached
  }

  /** A sink attaches exactly if it still sees what it has debounced for 100 ms, and VBUS. */
  lemma SinkAttachesExactly(p: Port, i: Input)
    requires p.state == SnkDisconnectedDebounce && Readable(i)
    ensures var sees := SinkSees(i.cc1, i.cc2);
            HandlerPhase(p, i).state == SnkDiscovery <==>
              !sees.CcNone? && sees == p.cc.state && i.clock.run >= p.cc.debounce && i.vbus1
  {}

  lemma SinkDebounceChooses(p: Port, i: Input)
    ensures var q := RunSnkDebounce(p, i);
            p.state == SnkDisconnectedDebounce && q.state == SnkDiscovery ==>
              q.outputs.rx && BestForSink(q.polarity, i.cc1, i.cc2)
  {}

  /** Then it uses the better of the lines with Rp, listens, acknowledges in its role as UFP,
      starts counting messages anew, and asks for the source's capabilities. */
  lemma SinkChoosesItsLine(p: Port, i: Input)
    requires p.state == SnkDisconnectedDebounce && Readable(i) && HandlerPhase(p, i).state == SnkDiscovery
    ensures var q := HandlerPhase(p, i);
            && BestForSink(q.polarity, i.cc1, i.cc2)
            && q.outputs.rx && q.dataRole.Ufp? && q.outputs.headRole == q.role == p.role && q.outputs.headDataRole.Ufp?
            && q.msgId == 0 && q.flags.checkPrRole && q.flags.checkDrRole && q.flags.checkIdentity
            && (q.flags.tsDtsPartner <==> p.flags.tsDtsPartner || SinkSees(i.cc1, i.cc2).DebugAcc?)
            && q.sent.Add? && q.sent.latest.Sop? && q.sent.latest.packet.IsControl(GET_SOURCE_CAP)
            && q.sent.latest.packet.role == p.role && q.sent.latest.packet.id == 0
  {}

  /** What the debounce of a source has to see: Rd on one line (a sink), on both (a debug
      accessory), or Ra on both (an audio accessory). */
  function SourceSees(cc1: Cc, cc2: Cc): CcState {
    if cc1.RdPulled? && cc2.RdPulled? then DebugAcc
    else if cc1.RdPulled? != cc2.RdPulled? then UfpAttached
    else if cc1.Ra? && cc2.Ra? then AudioAcc
    else CcNone
  }

  /** A source attaches exactly if it still sees the sink or debug accessory that it has
      debounced for 100 ms, and the supply comes up. */
  lemma SourceAttachesExactly(p: Port, i: Input)
    requires p.state == SrcDisconnectedDebounce && Readable(i)
    ensures var sees := SourceSees(i.cc1, i.cc2);
            HandlerPhase(p, i).state == SrcStartup <==>
              (sees.UfpAttached? || sees.DebugAcc?) && sees == p.cc.state && i.clock.run >= p.cc.debounce && i.supplyOk
  {}

  lemma SourceDebounceChooses(p: Port, i: Input)
    ensures var q := RunSrcDebounce(p, i);
            p.state == SrcDisconnectedDebounce && q.state == SrcStartup ==>
              q.outputs.rx && Line(q.polarity, i.cc1, i.cc2).RdPulled?
  {}

  /** Then it uses a line with Rd, supplies VBUS, listens, and acknowledges as DFP. */
  lemma SourceChoosesItsLine(p: Port, i: Input)
    requires p.state == SrcDisconnectedDebounce && Readable(i) && HandlerPhase(p, i).state == SrcStartup
    ensures var q := HandlerPhase(p, i);
            && Line(q.polarity, i.cc1, i.cc2).RdPulled?
            && q.outputs.vbusOn && q.outputs.rx && q.dataRole.Dfp?
            && q.outputs.headRole == q.role == p.role && q.outputs.headDataRole.Dfp?
            && q.counters.hardReset == 0 && q.flags.checkPrRole && q.flags.checkDrRole && q.sent == p.sent
            && (q.flags.tsDtsPartner <==> p.flags.tsDtsPartner || SourceSees(i.cc1, i.cc2).DebugAcc?)
  {}

  /** While a source debounces, nothing is switched on. */
  lemma DebouncingSuppliesNothing(p: Port, i: Input)
    requires p.state == SrcDisconnectedDebounce && Readable(i) && HandlerPhase(p, i).state != SrcStartup
    ensures var q := HandlerPhase(p, i);
            && (q.outputs.vbusOn ==> p.outputs.vbusOn) && (q.outputs.rx ==> p.outputs.rx) && q.sent == p.sent
            && (q.state == SrcDisconnected <==> SourceSees(i.cc1, i.cc2).CcNone?)
  {}

  /** A detached sink debounces as soon as a line is not open, and otherwise becomes a
      detached source exactly when toggling is on and its time is over; then it presents Rp
      for 30 ms. */
  lemma SinkToggles(p: Port, i: Input)
    requires p.state == SnkDisconnected && Readable(i)
    ensures var q := HandlerPhase(p, i);
            && (q.state == SnkDisconnectedDebounce <==> !(i.cc1.Open? && i.cc2.Open?))
            && (q.state == SnkDisconnectedDebounce ==> q.cc.state.CcNone? && q.counters.hardReset == 0)
            && (q.state == SrcDisconnected <==>
                  i.cc1.Open? && i.cc2.Open? && i.drp.ToggleOn? && i.clock.run >= p.counters.nextRoleSwap)
            && (q.state == SrcDisconnected ==>
                  q.role.Source? && q.outputs.pull.Rp? && q.counters.nextRoleSwap == i.clock.run2 + 30_000)
            && (q.state != SrcDisconnected ==> q.role == p.role && q.outputs.pull == p.outputs.pull)
  {}

  /** A detached source debounces as soon as it sees Rd on a line or Ra on both, and otherwise
      becomes a detached sink exactly when it is neither forced nor frozen and its time is
      over; then it presents Rd for 40 ms. */
  lemma SourceToggles(p: Port, i: Input)
    requires p.state == SrcDisconnected && Readable(i)
    ensures var q := HandlerPhase(p, i);
            var sees := !SourceSees(i.cc1, i.cc2).CcNone?;
            && (q.state == SrcDisconnectedDebounce <==> sees)
            && (q.state == SnkDisconnected <==>
                  !sees && !i.drp.ForceSource? && !i.drp.Freeze? && i.clock.run >= p.counters.nextRoleSwap)
            && (q.state == SnkDisconnected ==>
                  q.role.Sink? && q.outputs.pull.Rd? && q.counters.nextRoleSwap == i.clock.run2 + 40_000)
            && (q.state != SnkDisconnected ==> q.role == p.role && q.outputs.pull == p.outputs.pull)
  {}

  /** A source is detached by its line going open, a sink by VBUS going away; not during a
      swap, nor, for a sink, around a hard reset. The supply, the limit and the receiver are
      then off. */
  lemma DetachesExactly(p: Port, i: Input)
    requires Connected(p)
    ensures var q := DetachPhase(p, i);
            var swapping := p.state in {SnkSwapSnkDisable, SnkSwapSrcDisable, SnkSwapStandby, SnkSwapComplete,
                                        SrcSwapSnkDisable, SrcSwapSrcDisable, SrcSwapStandby};
            var gone := if p.role.Source? then Line(p.polarity, i.ccEnd1, i.ccEnd2).Open?
                        else !i.vbusEnd && p.state != SnkHardResetRecover && p.state != HardResetExecute;
            if gone && !swapping then
              && q.state == (if p.role.Source? then SrcDisconnected else SnkDisconnected)
              && (p.state != SrcDisconnected && p.state != SnkDisconnected ==>
                    q.outputs.limit == Power(0, 0) && !q.outputs.rx && (p.role.Source? ==> !q.outputs.vbusOn))
            else q == p
  {}
}
