/** What each case of the switch says, what follows when it is not heard, and what the ready,
    recovering and advertising states wait for: a reference beside the cases' code. */
module PortCases {
  import opened PdWords
  import opened PowerPolicy
  import opened PortState
  import opened PortMachine
  import opened PortSafety
  import opened PortPower
  import opened PortAnswers
  import opened PortAttach

  // ---- What is said ----

  /** What a case sends: at most one message or the hard reset signal. */
  datatype Speech = Silence | Utters(kind: nat, data: seq<Word>) | Resets

  function Advert(p: Port): Speech { if p.srcPdos == [] then Utters(REJECT, []) else Utters(SOURCE_CAP, p.srcPdos) }

  /** The attaching sink asks for capabilities. */
  predicate SinkMayAttach(p: Port, i: Input) {
    var sees := SinkSees(i.cc1, i.cc2);
    !sees.CcNone? && sees == p.cc.state && i.clock.run >= p.cc.debounce && i.vbus1
  }

  /** A ready source first says what has changed, then asks what it does not know, at most
      three times, then settles its policies, and then pings. */
  function SourceSpeech(p: Port): Speech {
    if p.vdm.state.VdmBusy? then Silence
    else if p.flags.updateSrcCaps then Advert(p)
    else if !p.flags.snkCapRecvd && p.counters.snkCap < 3 then Utters(GET_SINK_CAP, [])
    else if PolicyDue(p) || !p.flags.pingEnabled then Silence
    else Utters(PING, [])
  }

  /** The swaps, the soft reset and PS_RDY are said once, on entry; offers are repeated up to
      fifty times, the hard reset until it has gone out. */
  function SpeechOf(p: Port, i: Input): Speech {
    var entered := p.last != p.state;
    if p.state == SnkDisconnectedDebounce && SinkMayAttach(p, i) then Utters(GET_SOURCE_CAP, [])
    else if p.state == SrcDiscovery && p.counters.caps < 50 then Advert(p)
    else if p.state == SrcTransition || p.state == SnkSwapComplete then Utters(PS_RDY, [])
    else if p.state == SrcSwapStandby && entered then Utters(PS_RDY, [])
    else if (p.state == SrcSwapInit || p.state == SnkSwapInit) && entered then Utters(PR_SWAP, [])
    else if p.state == DrSwap && entered then Utters(DR_SWAP, [])
    else if p.state == SoftReset && entered then Utters(SOFT_RESET, [])
    else if p.state == HardResetSend && (entered || !p.counters.hardResetSent) then Resets
    else if p.state == SrcReady then SourceSpeech(p)
    else Silence
  }

  predicate Speaks(p: Port, q: Port, s: Speech) {
    match s
    case Silence => q.sent == p.sent
    case Resets => q.sent == Add(p.sent, HardResetSignal)
    case Utters(kind, data) =>
      Says(if kind == SOFT_RESET then p.(msgId := 0)
           else if kind == GET_SOURCE_CAP then p.(msgId := 0, dataRole := Ufp) else p, q, kind, data)
  }

  lemma AttachSpeaks(p: Port, i: Input)
    ensures SrcDisconnected <= p.state <= SrcStartup ==> Speaks(p, RunSourceAttach(p, i), SpeechOf(p, i))
    ensures SnkDisconnected <= p.state <= SnkDiscovery ==> Speaks(p, RunSinkAttach(p, i), SpeechOf(p, i))
  {
    if p.state == SrcDisconnectedDebounce {
    } else if p.state == SnkDisconnectedDebounce {
    }
  }

  lemma ContractSpeaks(p: Port, i: Input)
    requires SrcDiscovery <= p.state <= SrcTransition
    ensures Speaks(p, RunSourceContract(p, i), SpeechOf(p, i))
  {
    if p.state == SrcDiscovery {
    }
  }

  lemma ReadySpeaks(p: Port, i: Input)
    requires p.state == SrcReady
    ensures Speaks(p, RunSrcReady(p, i), SourceSpeech(p))
  {
    if !p.vdm.state.VdmBusy? && !p.flags.updateSrcCaps {
      TendSpeaks(CountSinkCap(p), i);
    }
  }

  lemma TendSpeaks(c: Port, i: Input)
    ensures var q := TendSink(c, i);
            Speaks(c, q, if !c.flags.snkCapRecvd && c.counters.snkCap <= 3 then Utters(GET_SINK_CAP, [])
                         else if PolicyDue(c) || !c.flags.pingEnabled then Silence else Utters(PING, []))
  {
    if PolicyDue(c) {
    }
  }

  lemma SourceReadySpeaks(p: Port, i: Input)
    requires SourceState(p.state) && p.state > SrcTransition
    ensures Speaks(p, RunSourceReady(p, i), SpeechOf(p, i))
  {
    if p.state == SrcReady {
      ReadySpeaks(p, i);
    } else if p.state == SrcSwapInit {
    } else if p.state == SrcSwapStandby {
    }
  }

  lemma SinkSpeaks(p: Port, i: Input)
    requires SnkRequested <= p.state <= SnkSwapComplete && p.state != SnkReady && Readable(i)
    ensures Speaks(p, RunSinkContract(p, i), SpeechOf(p, i))
  {}

  lemma SharedSpeaks(p: Port, i: Input)
    requires !SourceState(p.state) && !SinkState(p.state)
    ensures Speaks(p, RunShared(p, i), SpeechOf(p, i))
  {
    if p.state == DrSwap {
    } else if p.state == HardResetExecute {
    }
  }

  /** In every state but SnkReady the switch says exactly this. */
  lemma CasesSpeak(p: Port, i: Input)
    requires Readable(i) && p.state != SnkReady
    ensures Speaks(p, HandlerPhase(p, i), SpeechOf(p, i))
  {
    if SrcDisconnected <= p.state <= SrcStartup {
      AttachSpeaks(p, i);
    } else if SrcDiscovery <= p.state <= SrcTransition {
      ContractSpeaks(p, i);
    } else if SourceState(p.state) {
      SourceReadySpeaks(p, i);
    } else if SnkDisconnected <= p.state <= SnkDiscovery {
      AttachSpeaks(p, i);
    } else if SinkState(p.state) {
      SinkSpeaks(p, i);
    } else {
      SharedSpeaks(p, i);
    }
  }

  /** A ready sink asks again exactly if a renewal is pending, no vendor message waits, and the
      selected object has another voltage than the one last asked for; an unnecessary renewal
      is dropped. */
  lemma SinkRenews(p: Port, i: Input)
    requires Readable(i) && p.state == SnkReady && !PdoIsBattery(p.caps[i.capIndex])
    ensures var q := HandlerPhase(p, i);
            var power := ExtractPower(p.caps[i.capIndex]);
            if p.request.pending && !p.vdm.state.VdmBusy? && power.mv != p.request.previousMv then
              && q.sent.Add? && q.sent.latest.Sop?
              && var k := q.sent.latest.packet;
                 && |k.data| == 1 && Says(p, q, REQUEST, k.data) && RdoPos(k.data[0]) == i.capIndex + 1
                 && RdoOp(k.data[0]) == power.ma / 10 && q.request == SinkRequest(power, false, power.mv)
                 && q.state == (if p.tx.TxSuccess? then SnkRequested else SoftReset)
            else q.sent == p.sent && (!p.vdm.state.VdmBusy? ==> !q.request.pending)
  {
    RequestFields(p.caps, i.capIndex);
    var (rdo, power) := BuildRequest(p.caps, i.capIndex);
    ReadyRenews(p, i, rdo, power);
  }

  lemma ReadyRenews(p: Port, i: Input, rdo: Word, power: Power)
    requires p.state == SnkReady
    ensures var q := ActReady(p, i, rdo, power);
            if p.request.pending && !p.vdm.state.VdmBusy? && power.mv != p.request.previousMv then
              && Says(p, q, REQUEST, [rdo]) && q.request == SinkRequest(power, false, power.mv)
              && q.state == (if p.tx.TxSuccess? then SnkRequested else SoftReset)
            else q.sent == p.sent && (!p.vdm.state.VdmBusy? ==> !q.request.pending)
  {
    if p.request.pending {
    } else if PolicyDue(p) {
    }
  }

  // ---- What follows when it is heard, and when it is not ----

  /** Where a case goes after it has sent what it sends on entry or always. */
  function Follows(p: Port): State {
    var heard := p.tx.TxSuccess?;
    if p.state == SrcTransition then if heard then SrcReady else SrcDisconnected
    else if p.state == SrcSwapStandby then if heard then SrcSwapStandby else SrcDisconnected
    else if p.state == SnkSwapComplete then if heard then SrcDiscovery else SnkDisconnected
    else if p.state == SoftReset then if heard then SoftReset else HardResetSend
    else if p.state == SrcDiscovery then if heard then SrcNegociate else SrcDiscovery
    else if heard then p.state
    else SoftReset
  }

  /** An acknowledged message lets its state go on, an unacknowledged swap request falls back
      to a soft reset, a soft reset to a hard reset, and an unacknowledged PS_RDY detaches. */
  lemma SentOrNot(p: Port, i: Input)
    requires Readable(i) && p.last != p.state
    requires p.state in {SrcTransition, SrcSwapStandby, SnkSwapComplete, SoftReset, SrcSwapInit, SnkSwapInit, DrSwap}
    ensures HandlerPhase(p, i).state == Follows(p)
  {
    if p.state == DrSwap {
    } else if p.state == SnkSwapComplete {
    }
  }

  /** At most fifty offers go unacknowledged: each is counted, and an acknowledged one starts
      both counts over. */
  lemma OffersAreCounted(p: Port, i: Input)
    requires Readable(i) && p.state == SrcDiscovery
    ensures CountsOffer(p, HandlerPhase(p, i))
  {
    var c := ArmNoResponse(p, i);
    assert c == p.(timer := c.timer);
    AdvertiseCounts(c);
  }

  predicate CountsOffer(p: Port, q: Port) {
    if p.counters.caps >= 50 then q.sent == p.sent && q.state == SrcDiscovery && q.counters == p.counters
    else if p.tx.TxSuccess? then
      q.state == SrcNegociate && q.counters.caps == 0 && q.counters.hardReset == 0 && q.flags.previousPdConn
    else q.state == SrcDiscovery && q.counters.caps == p.counters.caps + 1 <= 50
  }

  lemma AdvertiseCounts(c: Port)
    requires c.state == SrcDiscovery
    ensures CountsOffer(c, Advertise(c))
  {}

  /** The end of a swap: the former sink is a source with Rp, VBUS and a fresh counter, or,
      unheard, a detached sink with Rd and VBUS off. */
  lemma SwapEnds(p: Port, i: Input)
    requires Readable(i) && p.state == SnkSwapComplete
    ensures var q := HandlerPhase(p, i);
            if p.tx.TxSuccess? then
              && q.role.Source? && q.outputs.headRole.Source? && q.msgId == 0
              && q.counters.caps == 0 && q.counters.snkCap > 3
              && q.outputs.pull == p.outputs.pull && q.outputs.vbusOn == p.outputs.vbusOn
            else q.role == p.role && q.outputs.pull.Rd? && !q.outputs.vbusOn && !q.outputs.rx
  {}

  // ---- Policies ----

  /** What one pass settles: whether to swap the power role, then whether to swap the data
      role, then, as DFP, who the partner is. */
  predicate SettlesOne(p: Port, q: Port, i: Input) {
    var ready := if p.role.Sink? then SnkReady else SrcReady;
    if p.flags.checkPrRole then
      && q.flags == p.flags.(checkPrRole := false) && q.vdm == p.vdm
      && q.state == if !i.wantPowerSwap then ready else if p.role.Sink? then SnkSwapInit else SrcSwapInit
    else if p.flags.checkDrRole then
      && q.flags == p.flags.(checkDrRole := false) && q.vdm == p.vdm
      && q.state == if i.wantDataSwap then DrSwap else ready
    else if p.dataRole.Dfp? && p.flags.checkIdentity then
      && q.flags == p.flags.(checkIdentity := false) && q.state == ready
      && q.vdm.state.VdmReady? && q.vdm.data == [VdmHeader(0xFF00, 1)]
    else q.vdm == p.vdm && q.flags == p.flags
  }

  lemma PolicySettles(p: Port, i: Input)
    requires PolicyDue(p) && p.state == if p.role.Sink? then SnkReady else SrcReady
    ensures SettlesOne(p, RunPolicy(p, i), i)
  {}

  lemma TendSettles(p: Port, i: Input)
    requires p.state == SrcReady && p.role.Source? && p.flags.snkCapRecvd
    ensures SettlesOne(p, TendSink(p, i), i)
  {
    if PolicyDue(p) {
      PolicySettles(p, i);
    } else if p.flags.pingEnabled {
    }
  }

  /** A ready source that knows its sink, and a ready sink, settle one matter a pass if nothing
      is more urgent. */
  lemma PoliciesInOrder(p: Port, i: Input)
    requires Readable(i) && !p.vdm.state.VdmBusy?
    requires || (p.state == SrcReady && p.role.Source? && !p.flags.updateSrcCaps && p.flags.snkCapRecvd)
             || (p.state == SnkReady && p.role.Sink? && !p.request.pending)
    ensures SettlesOne(p, HandlerPhase(p, i), i)
  {
    if p.state == SrcReady {
      TendSettles(p, i);
    } else if PolicyDue(p) {
      PolicySettles(p, i);
    }
  }

  // ---- Resets ----

  /** A hard reset, from whatever state: counter 0, the sink draws nothing, the source supplies
      nothing until between 660 ms and 1 s later, and an interrupted swap is undone. */
  lemma HardResetHas(p: Port, t: nat)
    ensures var q := ExecuteHardReset(p, t);
            && q.msgId == 0 && q.timer == NO_TIMER && q.sent == p.sent && q.role == p.role
            && q.state == (if p.role.Sink? then SnkHardResetRecover else SrcHardResetRecover)
            && (p.role.Sink? ==> q.outputs.limit == Power(0, 0))
            && (p.role.Source? ==> !q.outputs.vbusOn && t + 660_000 <= q.srcRecover <= t + 1_000_000)
            && (p.state == SnkSwapStandby || p.state == SnkSwapComplete ==> q.outputs.pull.Rd? && !q.outputs.vbusOn)
  {}

  /** A source comes back exactly when its recovery time is over and the supply comes up. */
  lemma SourceRecoversExactly(p: Port, i: Input)
    requires Readable(i) && p.state == SrcHardResetRecover
    ensures var q := HandlerPhase(p, i);
            if i.clock.run < p.srcRecover then q.state == SrcHardResetRecover && q.outputs == p.outputs
            else if i.supplyOk then q.state == SrcStartup && q.outputs == p.outputs.(vbusOn := true)
            else q.state == SrcDisconnected && !q.outputs.rx
  {}

  /** A sink comes back exactly when VBUS is there after it has been seen off since the reset;
      while VBUS stays on, another hard reset is scheduled only if one remains. */
  lemma SinkRecoversExactly(p: Port, i: Input)
    requires Readable(i) && p.state == SnkHardResetRecover
    ensures var q := HandlerPhase(p, i);
            var off := !i.vbus1 || (p.last == p.state && p.counters.vbusWentOff);
            && (q.state == SnkDiscovery <==> i.vbus2 && off)
            && (q.state != SnkDiscovery ==> q.state == SnkHardResetRecover && q.counters.vbusWentOff == off)
            && (p.last != p.state && i.vbus1 ==>
                  q.timer.next == if p.counters.hardReset < 2 then HardResetSend else SnkDiscovery)
            && (q.state != SnkDiscovery && !i.vbus1 && !(p.last == p.state && p.counters.vbusWentOff) ==>
                  q.timer.next == SnkDisconnected)
  {
    if p.last != p.state {
    }
  }

  /** HARD_RESET_SEND: every visit is counted; the signal goes out again until it counts as
      sent; then a sink resets at once, a source 25 ms later. */
  lemma ResetIsSent(p: Port, i: Input)
    requires Readable(i) && p.state == HardResetSend
    ensures var q := HandlerPhase(p, i);
            var before := p.last == p.state && p.counters.hardResetSent;
            && q.counters.hardReset == p.counters.hardReset + 1
            && (q.counters.hardResetSent <==> before || p.tx.TxSuccess?)
            && (q.state == HardResetExecute <==> !before && p.tx.TxSuccess? && p.role.Sink?)
            && (!before && p.tx.TxSuccess? && p.role.Source? ==>
                  q.timer == Timer(i.clock.run + 25_000, HardResetExecute))
            && (q.state != HardResetExecute ==> q.state == HardResetSend)
  {}

  /** A failed board check resets the port and signals it. */
  lemma FailedBoardResets(p: Port, t: nat)
    ensures BoardPhase(p, false, t) == ExecuteHardReset(p, t).(sent := Add(p.sent, HardResetSignal))
    ensures BoardPhase(p, true, t) == p
  {}

  /** The last step of a hard reset takes back Rp after an interrupted swap. */
  lemma ResetIsExecuted(p: Port, i: Input)
    requires Readable(i) && p.state == HardResetExecute
    ensures var q := HandlerPhase(p, i);
            && q.state == (if p.role.Sink? then SnkHardResetRecover else SrcHardResetRecover)
            && (p.last == SnkSwapStandby ==> q.outputs.pull.Rd?) && q.msgId == 0
            && (p.role.Source? ==> !q.outputs.vbusOn && q.srcRecover >= i.clock.run + 660_000)
  {}

  // ---- Fresh starts ----

  /** A source starts every connection with a fresh counter and fresh attempts, 10 ms after
      its supply came up. */
  lemma StartupIsFresh(p: Port, i: Input)
    requires Readable(i) && p.state == SrcStartup && p.last != p.state
    ensures var q := HandlerPhase(p, i);
            && q.msgId == 0 && q.counters == p.counters.(caps := 0, snkCap := 0) && q.flags.checkIdentity
            && q.timer == Timer(i.clock.run + 10_000, SrcDiscovery)
  {}

  /** A request starts the count of hard resets over. */
  lemma RequestForgivesResets(p: Port, i: Input)
    requires Readable(i) && p.state == SnkRequested && p.last != p.state
    ensures HandlerPhase(p, i).counters == p.counters.(hardReset := 0)
  {}

  // ---- Calls ----

  /** A new power request is renewed by the next free pass, for a changed voltage. */
  lemma NewPowerIsAsked(p: Port, i: Input)
    requires Readable(i) && p.state == SnkReady && !PdoIsBattery(p.caps[i.capIndex]) && !p.vdm.state.VdmBusy?
    requires ExtractPower(p.caps[i.capIndex]).mv != p.request.previousMv
    ensures var q := HandlerPhase(RequestNewPower(p), i);
            q.sent.Add? && q.sent.latest.Sop? && q.sent.latest.packet.IsData(REQUEST)
  {
    SinkRenews(RequestNewPower(p), i);
  }

  /** Pings are sent exactly as enabled. */
  lemma PingsAsEnabled(p: Port, on: bool)
    requires !p.vdm.state.VdmBusy? && !p.flags.updateSrcCaps && p.flags.snkCapRecvd && !PolicyDue(p)
    ensures SourceSpeech(EnablePing(p, on)) == if on then Utters(PING, []) else Silence
  {}

  /** A source voltage asked for renews the request of a sink under a contract, and turns any
      other port into a detached sink. */
  lemma SourceVoltageIsAsked(p: Port)
    ensures var q := RequestSourceVoltage(p);
            if p.state == SnkReady || p.state == SnkTransition then
              q.request.pending && q == p.(request := p.request.(pending := true))
            else
              && q.role.Sink? && q.outputs.pull.Rd? && q.state == SnkDisconnected
              && q.outputs.vbusOn == p.outputs.vbusOn
  {}

  /** A swap is only started from the ready state of the role it is asked of. */
  lemma SwapsAreStarted(p: Port)
    requires RoleOf(p.state, p.role)
    ensures var q := RequestPowerSwap(p);
            if p.state in {SrcReady, SnkReady} then
              q == p.(timer := NO_TIMER, state := if p.role.Source? then SrcSwapInit else SnkSwapInit)
            else q == p
    ensures var q := RequestDataSwap(p);
            q == if p.state in {SrcReady, SnkReady} then p.(timer := NO_TIMER, state := DrSwap) else p
    ensures RequestSoftReset(p) == if Detached(p.state) || p.state == Disabled then p
                                   else p.(timer := NO_TIMER, state := SoftReset)
  {}
}
