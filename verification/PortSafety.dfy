/** The invariant of the port over every run, whatever the partner, the board and the
    application do: timers, contract flag, order of Accept, voltage switch and PS_RDY,
    debounce record, hard reset counter and silence while detached. One lemma for every
    message and every handler, one for every phase of a pass, one for runs. */
module PortSafety {
  import opened PdWords
  import opened PowerPolicy
  import opened PortState
  import opened PortMachine
  import opened PortRuns

  /** The states a timer armed in `s` may lead to. */
  predicate Successor(s: State, next: State) {
    if s == SnkHardResetRecover then next == HardResetSend || next == SnkDiscovery || next == SnkDisconnected
    else if s == SnkDiscovery then next == HardResetSend || next == SnkDisconnected
    else if s == SnkRequested then next == HardResetSend || next == SnkReady
    else if s == SnkTransition || s == SnkSwapSrcDisable || s == SrcNegociate || s == SoftReset then
      next == HardResetSend
    else if s == SnkSwapInit then next == SnkReady
    else if s == SnkSwapStandby then next == SnkSwapComplete
    else if s == SrcStartup then next == SrcDiscovery
    else if s == SrcDiscovery then next == HardResetSend || next == SrcDisconnected
    else if s == SrcAccepted then next == SrcPowered
    else if s == SrcPowered then next == SrcTransition
    else if s == SrcGetSinkCap || s == SrcSwapInit then next == SrcReady
    else if s == DrSwap then next == SnkReady || next == SrcReady
    else if s == SrcSwapSnkDisable then next == SrcSwapSrcDisable
    else if s == SrcSwapSrcDisable then next == SrcSwapStandby
    else if s == SrcSwapStandby then next == SnkDisconnected
    else s == HardResetSend && next == HardResetExecute
  }

  /** The ten states that never sit without a running timer, and the eleventh, which does
      not once its signal has gone out. */
  predicate AlwaysTimed(p: Port) {
    var s := p.state;
    || s == SnkTransition || s == SnkHardResetRecover || s == SrcStartup || s == SrcNegociate
    || s == SrcPowered || s == SrcGetSinkCap || s == SnkSwapSrcDisable || s == SnkSwapStandby
    || s == SrcSwapSrcDisable || s == SrcSwapStandby
    || (s == HardResetSend && p.counters.hardResetSent)
  }

  predicate Detached(s: State) {
    || s == SnkDisconnected || s == SnkDisconnectedDebounce
    || s == SrcDisconnected || s == SrcDisconnectedDebounce
  }

  /** A running timer belongs to the state whose handler ran last. */
  predicate TimersKept(p: Port) {
    && (p.timer.at != 0 ==> p.state == p.last && Successor(p.state, p.timer.next))
    && (p.state == p.last && AlwaysTimed(p) ==> p.timer.at != 0)
  }

  /** Where a state whose handler has not run yet can come from. */
  predicate EntryOrigins(p: Port) {
    && (p.state == SnkRequested ==> p.last != SnkTransition)
    && (p.state == SrcDiscovery ==> p.last != SrcNegociate)
    && (p.state == SnkSwapSrcDisable ==> p.last != SnkSwapStandby)
    && (p.state == SnkDiscovery ==> p.last != HardResetSend)
  }

  predicate Contracted(s: State) {
    s == SnkTransition || s == SrcAccepted || s == SrcPowered || s == SrcTransition
  }

  predicate ContractKept(p: Port) { Contracted(p.state) ==> p.flags.explicitContract }

  /** The order of Accept, voltage switch and PS_RDY. Whenever the voltage was switched,
      it was to the position of a granted request, and long enough after the Accept. */
  predicate VoltageOrdered(p: Port, now: nat) {
    var h := p.history;
    && h.acceptedAt <= now && h.switched.at <= now
    && p.outputs.supplied == h.switched.pos
    && (h.switched.pos != 0 ==>
          1 <= h.switched.pos <= |p.srcPdos| && h.switched.at >= h.switched.acceptedAt + T_SINK_TRANSITION)
    && (p.state == SrcAccepted || p.state == SrcPowered || p.state == SrcTransition ==>
          p.requestedIdx == h.acceptedPos && 1 <= h.acceptedPos <= |p.srcPdos|)
    && (p.state == SrcAccepted && p.timer.at != 0 ==> p.timer.at >= h.acceptedAt + T_SINK_TRANSITION)
    && (p.state == SrcPowered ==> now >= h.acceptedAt + T_SINK_TRANSITION)
    && (p.state == SrcPowered && p.last == SrcPowered ==>
          p.outputs.supplied == p.requestedIdx && p.timer.at >= h.switched.at + SUPPLY_TURN_ON)
    && (p.state == SrcTransition ==>
          p.outputs.supplied == p.requestedIdx && now >= h.switched.at + SUPPLY_TURN_ON)
  }

  predicate Debouncing(s: State) { s == SrcDisconnectedDebounce || s == SnkDisconnectedDebounce }

  /** In a debounce state whose handler has run, the debounce end lies 100 ms after the
      first of the uninterrupted passes that classified CC as the recorded state. */
  predicate DebounceSteady(p: Port) {
    Debouncing(p.state) ==>
      if p.last == p.state then
        && !p.cc.state.CcNone? && p.history.steady.state == p.cc.state
        && p.cc.debounce == p.history.steady.since + T_CC_DEBOUNCE
      else p.cc.state.CcNone?
  }

  /** A hard reset timer of the sink only runs while resets remain. */
  predicate ResetsCounted(p: Port) {
    p.timer.at != 0 && p.timer.next == HardResetSend && (p.state == SnkDiscovery || p.state == SnkHardResetRecover) ==>
      p.counters.hardReset < HARD_RESET_COUNT
  }

  predicate SilentDetached(p: Port) { Detached(p.state) ==> !p.outputs.rx }

  /** The states in which a port draws nothing: detached, waiting for VBUS to come back
      after a hard reset, and swapping to source. */
  predicate Drawless(s: State) {
    Detached(s) || s == SnkHardResetRecover || SnkSwapSrcDisable <= s <= SnkSwapComplete
  }

  predicate DrawsNothing(p: Port) { Drawless(p.state) ==> p.outputs.limit == Power(0, 0) }

  /** The part of the invariant that every single phase keeps. */
  predicate Bookkeeping(p: Port, now: nat) {
    && ContractKept(p) && VoltageOrdered(p, now) && SilentDetached(p) && DrawsNothing(p)
    && DebounceSteady(p) && ResetsCounted(p)
  }

  predicate Safe(p: Port) {
    TimersKept(p) && EntryOrigins(p) && Bookkeeping(p, p.history.now)
  }

  /** What still holds in the middle of a pass, between the button and the switch. */
  predicate Midway(p: Port, now: nat) {
    && (p.timer.at != 0 ==>
          || (p.state == p.last && Successor(p.state, p.timer.next))
          || p.state == SoftReset
          || (p.state == SnkRequested && p.timer.next == SnkReady))
    && (p.timer.at != 0 && p.state == SoftReset && p.last == SoftReset ==> p.timer.next == HardResetSend)
    && (p.state == p.last && AlwaysTimed(p) ==> p.timer.at != 0)
    && Bookkeeping(p, now)
  }

  lemma ButtonKeeps(p: Port, reset: bool)
    requires Safe(p)
    ensures var q := ButtonPhase(p.(sent := NoFrames), reset);
            Midway(q, p.history.now) && EntryOrigins(q)
  {}

  lemma Later(p: Port, now: nat, later: nat)
    requires Midway(p, now) && now <= later
    ensures Midway(p, later)
  {}

  lemma VdmKeeps(p: Port, now: nat, t: nat)
    requires Midway(p, now) && EntryOrigins(p)
    ensures var q := VdmPhase(p, t);
            Midway(q, now) && EntryOrigins(q)
  {}

  lemma BoardKeeps(p: Port, now: nat, ok: bool, t: nat)
    requires Midway(p, now) && EntryOrigins(p)
    ensures var q := BoardPhase(p, ok, t);
            Midway(q, now) && EntryOrigins(q)
  {
    if !ok {
      if p.role.Sink? {
      }
    }
  }

  lemma AskedKeeps(p: Port, now: nat)
    requires Midway(p, now) && EntryOrigins(p)
    ensures Midway(SetState(p, SnkRequested), now)
  {}

  lemma AskingKeeps(p: Port, now: nat, q: Port)
    requires Midway(p, now) && EntryOrigins(p)
    requires q == p.(request := q.request, sent := q.sent,
                     history := p.history.(requestedPos := q.history.requestedPos))
    ensures Midway(q, now) && EntryOrigins(q)
  {}

  lemma SendBuiltKeeps(p: Port, now: nat, always: bool, rdo: Word, power: Power)
    requires Midway(p, now) && EntryOrigins(p)
    ensures Midway(SendBuilt(p, always, rdo, power).0, now)
  {
    if !always && p.request.previousMv == power.mv {
      AskingKeeps(p, now, p.(request := p.request.(pending := false)));
    } else {
      var s := SendData(p.(request := SinkRequest(power, false, power.mv),
                           history := p.history.(requestedPos := RdoPos(rdo))), REQUEST, [rdo]);
      AskingKeeps(p, now, s);
      AskedKeeps(s, now);
    }
  }

  lemma AnswerKeeps(p: Port, now: nat, first: Word, caps: CapTable, limit: Power, rdo: Word, power: Power)
    requires Midway(p, now) && EntryOrigins(p)
    requires p.state == SnkDiscovery || p.state == SnkTransition || p.state == SnkReady
    ensures Midway(AnswerWith(p, first, caps, limit, rdo, power), now)
  {
    var q := UpdatePdoFlags(p.(flags := p.flags.(previousPdConn := true)), first);
    SendBuiltKeeps(SetLimit(q.(caps := caps), limit), now, true, rdo, power);
  }

  lemma SourceCapKeeps(p: Port, now: nat, objects: Objects, index: nat)
    requires Midway(p, now) && EntryOrigins(p) && |objects| > 0 && index < MAX_OBJECTS
    requires p.state == SnkDiscovery || p.state == SnkTransition || p.state == SnkReady
    ensures Midway(AnswerSourceCap(p, objects, index), now)
  {
    var caps, limit, rdo, power := AnswerShape(p, objects, index);
    AnswerKeeps(p, now, objects[0], caps, limit, rdo, power);
  }

  lemma RefusedKeeps(p: Port, t: nat)
    requires Midway(p, t)
    ensures Midway(SetState(SendControl(p, REJECT), SrcReady), t)
  {}

  lemma RequestKeeps(p: Port, objects: Objects, t: nat)
    requires Midway(p, t) && EntryOrigins(p) && |objects| > 0
    ensures Midway(OnRequest(p, objects, t), t)
  {
    if p.role.Source? && |objects| == 1 && RequestGranted(objects[0], p.srcPdos) {
      if TxOk(p) {
      }
    } else {
      RefusedKeeps(p, t);
    }
  }

  lemma BistKeeps(p: Port, now: nat, w: Word)
    requires Midway(p, now) && EntryOrigins(p)
    ensures Midway(OnBist(p, w), now)
  {
    if p.state == ReadyState(p) {
      if p.role.Sink? {
      }
    }
  }

  lemma SinkCapKeeps(p: Port, now: nat, w: Word)
    requires Midway(p, now) && EntryOrigins(p)
    ensures Midway(OnSinkCap(p, w), now)
  {
    if p.state == SrcGetSinkCap {
    }
  }

  lemma DataKeeps(p: Port, kind: nat, objects: Objects, i: Input)
    requires Midway(p, i.clock.run) && EntryOrigins(p) && Readable(i) && |objects| > 0
    ensures Midway(HandleData(p, kind, objects, i), i.clock.run)
  {
    if kind == SOURCE_CAP {
      if p.state == SnkDiscovery || p.state == SnkTransition || p.state == SnkReady {
        SourceCapKeeps(p, i.clock.run, objects, i.capIndex);
      }
    } else if kind == REQUEST {
      RequestKeeps(p, objects, i.clock.run);
    } else if kind == BIST {
      BistKeeps(p, i.clock.run, objects[0]);
    } else if kind == SINK_CAP {
      SinkCapKeeps(p, i.clock.run, objects[0]);
    }
  }

  lemma PsRdyKeeps(p: Port, now: nat)
    requires Midway(p, now) && EntryOrigins(p)
    ensures Midway(OnPsRdy(p), now)
  {
    if p.state == SnkSwapSrcDisable {
    } else if p.state == SrcSwapStandby {
    } else if p.state == SnkDiscovery {
    } else if p.state == SnkSwapStandby {
    } else if p.role.Sink? {
    }
  }

  lemma AcceptKeeps(p: Port, now: nat)
    requires Midway(p, now) && EntryOrigins(p)
    ensures Midway(OnAccept(p), now)
  {
    if p.state == SoftReset {
    } else if p.state == DrSwap {
    } else if p.state == SrcSwapInit {
    } else if p.state == SnkSwapInit {
    } else if p.state == SnkRequested {
    }
  }

  lemma RefusalKeeps(p: Port, now: nat, wait: bool, t: nat)
    requires Midway(p, now) && EntryOrigins(p)
    ensures Midway(OnRefusal(p, wait, t), now)
  {
    if p.state == DrSwap {
    } else if p.state == SrcSwapInit {
    } else if p.state == SnkSwapInit {
    } else if p.state == SnkRequested {
    }
  }

  lemma GetSourceCapKeeps(p: Port, now: nat)
    requires Midway(p, now) && EntryOrigins(p)
    ensures Midway(OnGetSourceCap(p), now)
  {
    if TxOk(p) && p.state == SrcDiscovery {
    }
  }

  lemma SoftResetKeeps(p: Port, now: nat)
    requires Midway(p, now) && EntryOrigins(p)
    ensures Midway(SendControl(ExecuteSoftReset(p), ACCEPT), now)
  {
    if p.role.Sink? {
    }
  }

  lemma PrSwapKeeps(p: Port, now: nat, allowed: bool)
    requires Midway(p, now) && EntryOrigins(p)
    ensures Midway(OnPrSwap(p, allowed), now)
  {
    if allowed {
      if p.role.Sink? {
      }
    }
  }

  lemma DrSwapKeeps(p: Port, now: nat, allowed: bool)
    requires Midway(p, now) && EntryOrigins(p)
    ensures Midway(OnDrSwap(p, allowed), now)
  {}

  lemma SinkCapReplyKeeps(p: Port, now: nat)
    requires Midway(p, now)
    ensures Midway(SendSinkCap(p), now)
  {}

  lemma RejectKeeps(p: Port, now: nat)
    requires Midway(p, now)
    ensures Midway(SendControl(p, REJECT), now)
  {}

  lemma ControlKeeps(p: Port, kind: nat, i: Input)
    requires Midway(p, i.clock.run) && EntryOrigins(p) && Readable(i)
    ensures Midway(HandleControl(p, kind, i), i.clock.run)
  {
    var now := i.clock.run;
    if kind == GET_SOURCE_CAP {
      GetSourceCapKeeps(p, now);
    } else if kind == GET_SINK_CAP {
      SinkCapReplyKeeps(p, now);
    } else if kind == PS_RDY {
      PsRdyKeeps(p, now);
    } else if kind == REJECT || kind == WAIT {
      RefusalKeeps(p, now, kind == WAIT, i.clock.msg);
    } else if kind == ACCEPT {
      AcceptKeeps(p, now);
    } else if kind == SOFT_RESET {
      SoftResetKeeps(p, now);
    } else if kind == PR_SWAP {
      PrSwapKeeps(p, now, i.allowPowerSwap);
    } else if kind == DR_SWAP {
      DrSwapKeeps(p, now, i.allowDataSwap);
    } else if kind == VCONN_SWAP {
      RejectKeeps(p, now);
    }
  }

  predicate Handled(p: Port, i: Input) {
    TimersKept(p) && EntryOrigins(p) && Bookkeeping(p, i.clock.end)
  }

  predicate AtSwitch(p: Port, i: Input) {
    Midway(p, i.clock.run) && Readable(i) && Ordered(i.clock)
  }

  lemma SrcDisconnectedKeeps(p: Port, i: Input)
    requires AtSwitch(p, i) && p.state == SrcDisconnected
    ensures Handled(Closed(RunSrcDisconnected(p, i), p, i), i)
  {}

  lemma SrcDebounceKeeps(p: Port, i: Input)
    requires AtSwitch(p, i) && p.state == SrcDisconnectedDebounce
    ensures Handled(Closed(RunSrcDebounce(p, i), p, i), i)
  {
    var c := ClassifySource(i.cc1, i.cc2);
    if c.CcNone? {
    } else if c != p.cc.state {
    } else if i.clock.run < p.cc.debounce || c.AudioAcc? {
    } else if !i.supplyOk {
    }
  }

  lemma SrcRecoverKeeps(p: Port, i: Input)
    requires AtSwitch(p, i) && p.state == SrcHardResetRecover
    ensures Handled(Closed(RunSrcHardResetRecover(p, i), p, i), i)
  {}

  lemma SrcStartupKeeps(p: Port, i: Input)
    requires AtSwitch(p, i) && p.state == SrcStartup
    ensures Handled(Closed(RunSrcStartup(p, i), p, i), i)
  {}

  lemma SourceAttachKeeps(p: Port, i: Input)
    requires AtSwitch(p, i) && SrcDisconnected <= p.state <= SrcStartup
    ensures Handled(Closed(RunSourceAttach(p, i), p, i), i)
  {
    if p.state == SrcDisconnected {
      SrcDisconnectedKeeps(p, i);
    } else if p.state == SrcDisconnectedDebounce {
      SrcDebounceKeeps(p, i);
    } else if p.state == SrcHardResetRecover {
      SrcRecoverKeeps(p, i);
    } else {
      SrcStartupKeeps(p, i);
    }
  }

  lemma AdvertiseKeeps(p: Port, q: Port, i: Input)
    requires AtSwitch(p, i) && p.state == SrcDiscovery
    requires q == p.(timer := q.timer)
    requires q.timer.at != 0 ==> p.state == p.last || Successor(p.state, q.timer.next)
    requires q.timer.at != 0 && p.state == p.last ==> q.timer == p.timer
    ensures Handled(Closed(Advertise(q), p, i), i)
  {
    if q.counters.caps >= CAPS_COUNT {
    } else if TxOk(q) {
    }
  }

  lemma SrcDiscoveryKeeps(p: Port, i: Input)
    requires AtSwitch(p, i) && p.state == SrcDiscovery
    ensures Handled(Closed(RunSrcDiscovery(p, i), p, i), i)
  {
    AdvertiseKeeps(p, ArmNoResponse(p, i), i);
  }

  lemma SrcNegociateKeeps(p: Port, i: Input)
    requires AtSwitch(p, i) && p.state == SrcNegociate
    ensures Handled(Closed(RunSrcNegociate(p, i), p, i), i)
  {}

  lemma SrcAcceptedKeeps(p: Port, i: Input)
    requires AtSwitch(p, i) && p.state == SrcAccepted
    ensures Handled(Closed(RunSrcAccepted(p, i), p, i), i)
  {}

  lemma SrcPoweredKeeps(p: Port, i: Input)
    requires AtSwitch(p, i) && p.state == SrcPowered
    ensures Handled(Closed(RunSrcPowered(p, i), p, i), i)
  {}

  lemma SrcTransitionKeeps(p: Port, i: Input)
    requires AtSwitch(p, i) && p.state == SrcTransition
    ensures Handled(Closed(RunSrcTransition(p), p, i), i)
  {
    if TxOk(p) {
    }
  }

  lemma SourceContractKeeps(p: Port, i: Input)
    requires AtSwitch(p, i) && SrcDiscovery <= p.state <= SrcTransition
    ensures Handled(Closed(RunSourceContract(p, i), p, i), i)
  {
    if p.state == SrcDiscovery {
      SrcDiscoveryKeeps(p, i);
    } else if p.state == SrcNegociate {
      SrcNegociateKeeps(p, i);
    } else if p.state == SrcAccepted {
      SrcAcceptedKeeps(p, i);
    } else if p.state == SrcPowered {
      SrcPoweredKeeps(p, i);
    } else {
      SrcTransitionKeeps(p, i);
    }
  }

  lemma PolicyKeeps(p: Port, i: Input)
    requires AtSwitch(p, i) && (p.state == SrcReady || p.state == SnkReady) && PolicyDue(p)
    ensures Handled(Closed(RunPolicy(p, i), p, i), i)
  {}

  lemma ReadvertiseKeeps(p: Port, i: Input)
    requires AtSwitch(p, i) && p.state == SrcReady
    ensures Handled(Closed(Readvertise(p), p, i), i)
  {
    if TxOk(p) {
    }
  }

  lemma AskSinkCapKeeps(p: Port, i: Input)
    requires AtSwitch(p, i) && p.state == SrcReady
    ensures Handled(Closed(SetState(SendControl(p, GET_SINK_CAP), SrcGetSinkCap), p, i), i)
  {}

  lemma PingKeeps(p: Port, i: Input)
    requires AtSwitch(p, i) && p.state == SrcReady
    ensures Handled(Closed(PingSink(p), p, i), i)
  {
    if p.flags.pingEnabled && TxOk(p) {
    }
  }

  lemma CountKeeps(p: Port, i: Input)
    requires AtSwitch(p, i)
    ensures AtSwitch(CountSinkCap(p), i)
  {}

  lemma TendSinkKeeps(p: Port, i: Input)
    requires AtSwitch(p, i) && p.state == SrcReady
    ensures Handled(Closed(TendSink(p, i), p, i), i)
  {
    if !p.flags.snkCapRecvd && p.counters.snkCap <= SNK_CAP_RETRIES {
      AskSinkCapKeeps(p, i);
    } else if PolicyDue(p) {
      PolicyKeeps(p, i);
    } else {
      PingKeeps(p, i);
    }
  }

  lemma SrcReadyKeeps(p: Port, i: Input)
    requires AtSwitch(p, i) && p.state == SrcReady
    ensures Handled(Closed(RunSrcReady(p, i), p, i), i)
  {
    if !p.vdm.state.VdmBusy? {
      if p.flags.updateSrcCaps {
        ReadvertiseKeeps(p, i);
      } else {
        CountKeeps(p, i);
        TendSinkKeeps(CountSinkCap(p), i);
      }
    }
  }

  lemma SwapRequestKeeps(p: Port, kind: Kind, back: State, i: Input)
    requires AtSwitch(p, i) && (kind == PR_SWAP || kind == DR_SWAP) && Successor(p.state, back)
    requires p.state == SrcSwapInit || p.state == SnkSwapInit || p.state == DrSwap
    ensures Handled(Closed(SendSwap(p, kind, back, i), p, i), i)
  {
    if Entered(p) && TxOk(p) {
    }
  }

  lemma SrcGetSinkCapKeeps(p: Port, i: Input)
    requires AtSwitch(p, i) && p.state == SrcGetSinkCap
    ensures Handled(Closed(RunSrcGetSinkCap(p, i), p, i), i)
  {}

  lemma SrcSwapSnkDisableKeeps(p: Port, i: Input)
    requires AtSwitch(p, i) && p.state == SrcSwapSnkDisable
    ensures Handled(Closed(RunSrcSwapSnkDisable(p, i), p, i), i)
  {}

  lemma SrcSwapSrcDisableKeeps(p: Port, i: Input)
    requires AtSwitch(p, i) && p.state == SrcSwapSrcDisable
    ensures Handled(Closed(RunSrcSwapSrcDisable(p, i), p, i), i)
  {}

  lemma SrcSwapStandbyKeeps(p: Port, i: Input)
    requires AtSwitch(p, i) && p.state == SrcSwapStandby
    ensures Handled(Closed(RunSrcSwapStandby(p, i), p, i), i)
  {
    if Entered(p) && TxOk(p) {
    }
  }

  lemma SourceReadyKeeps(p: Port, i: Input)
    requires AtSwitch(p, i) && SourceState(p.state) && p.state > SrcTransition
    ensures Handled(Closed(RunSourceReady(p, i), p, i), i)
  {
    if p.state == SrcReady {
      SrcReadyKeeps(p, i);
    } else if p.state == SrcGetSinkCap {
      SrcGetSinkCapKeeps(p, i);
    } else if p.state == SrcSwapInit {
      SwapRequestKeeps(p, PR_SWAP, SrcReady, i);
    } else if p.state == SrcSwapSnkDisable {
      SrcSwapSnkDisableKeeps(p, i);
    } else if p.state == SrcSwapSrcDisable {
      SrcSwapSrcDisableKeeps(p, i);
    } else {
      SrcSwapStandbyKeeps(p, i);
    }
  }

  lemma SnkDisconnectedKeeps(p: Port, i: Input)
    requires AtSwitch(p, i) && p.state == SnkDisconnected
    ensures Handled(Closed(RunSnkDisconnected(p, i), p, i), i)
  {}

  lemma SnkDebounceKeeps(p: Port, i: Input)
    requires AtSwitch(p, i) && p.state == SnkDisconnectedDebounce
    ensures Handled(Closed(RunSnkDebounce(p, i), p, i), i)
  {
    var c := ClassifySink(i.cc1, i.cc2);
    if c.CcNone? {
    } else if c != p.cc.state {
    } else if i.clock.run < p.cc.debounce || !i.vbus1 {
    }
  }

  lemma SnkRecoverKeeps(p: Port, i: Input)
    requires AtSwitch(p, i) && p.state == SnkHardResetRecover
    ensures Handled(Closed(RunSnkHardResetRecover(p, i), p, i), i)
  {
    if Entered(p) {
    }
  }

  lemma SnkDiscoveryKeeps(p: Port, i: Input)
    requires AtSwitch(p, i) && p.state == SnkDiscovery
    ensures Handled(Closed(RunSnkDiscovery(p, i), p, i), i)
  {
    if Entered(p) {
      if p.counters.hardReset < HARD_RESET_COUNT {
      } else if p.flags.previousPdConn {
      }
    }
  }

  lemma SinkAttachKeeps(p: Port, i: Input)
    requires AtSwitch(p, i) && SnkDisconnected <= p.state <= SnkDiscovery
    ensures Handled(Closed(RunSinkAttach(p, i), p, i), i)
  {
    if p.state == SnkDisconnected {
      SnkDisconnectedKeeps(p, i);
    } else if p.state == SnkDisconnectedDebounce {
      SnkDebounceKeeps(p, i);
    } else if p.state == SnkHardResetRecover {
      SnkRecoverKeeps(p, i);
    } else {
      SnkDiscoveryKeeps(p, i);
    }
  }

  lemma SnkRequestedKeeps(p: Port, i: Input)
    requires AtSwitch(p, i) && p.state == SnkRequested
    ensures Handled(Closed(RunSnkRequested(p, i), p, i), i)
  {}

  lemma SnkTransitionKeeps(p: Port, i: Input)
    requires AtSwitch(p, i) && p.state == SnkTransition
    ensures Handled(Closed(RunSnkTransition(p, i), p, i), i)
  {}

  lemma RenewRequestKeeps(p: Port, i: Input, rdo: Word, power: Power)
    requires AtSwitch(p, i) && p.state == SnkReady
    ensures var (q, ok) := SendBuilt(p, false, rdo, power);
            Handled(Closed(if ok then q else SetState(q, SoftReset), p, i), i)
  {
    if p.request.previousMv == power.mv {
    } else if TxOk(p) {
    }
  }

  lemma ActReadyKeeps(p: Port, i: Input, rdo: Word, power: Power)
    requires AtSwitch(p, i) && p.state == SnkReady
    ensures Handled(Closed(ActReady(p, i, rdo, power), p, i), i)
  {
    if !p.vdm.state.VdmBusy? {
      if p.request.pending {
        RenewRequestKeeps(p, i, rdo, power);
      } else if PolicyDue(p) {
        PolicyKeeps(p, i);
      }
    }
  }

  lemma SnkReadyKeeps(p: Port, i: Input)
    requires AtSwitch(p, i) && p.state == SnkReady
    ensures Handled(Closed(RunSnkReady(p, i), p, i), i)
  {
    var (rdo, power) := BuildRequest(p.caps, i.capIndex);
    ActReadyKeeps(p, i, rdo, power);
  }

  lemma SnkSwapSnkDisableKeeps(p: Port, i: Input)
    requires AtSwitch(p, i) && p.state == SnkSwapSnkDisable
    ensures Handled(Closed(RunSnkSwapSnkDisable(p), p, i), i)
  {}

  lemma SnkSwapSrcDisableKeeps(p: Port, i: Input)
    requires AtSwitch(p, i) && p.state == SnkSwapSrcDisable
    ensures Handled(Closed(RunSnkSwapSrcDisable(p, i), p, i), i)
  {}

  lemma SnkSwapStandbyKeeps(p: Port, i: Input)
    requires AtSwitch(p, i) && p.state == SnkSwapStandby
    ensures Handled(Closed(RunSnkSwapStandby(p, i), p, i), i)
  {
    if Entered(p) {
      if i.supplyOk {
      }
    }
  }

  lemma SnkSwapCompleteKeeps(p: Port, i: Input)
    requires AtSwitch(p, i) && p.state == SnkSwapComplete
    ensures Handled(Closed(RunSnkSwapComplete(p), p, i), i)
  {
    if TxOk(p) {
    }
  }

  lemma SinkContractKeeps(p: Port, i: Input)
    requires AtSwitch(p, i) && SnkRequested <= p.state <= SnkSwapComplete
    ensures Handled(Closed(RunSinkContract(p, i), p, i), i)
  {
    if p.state == SnkReady {
      SnkReadyKeeps(p, i);
    } else if p.state == SnkRequested {
      SnkRequestedKeeps(p, i);
    } else if p.state == SnkTransition {
      SnkTransitionKeeps(p, i);
    } else if p.state == SnkSwapInit {
      SwapRequestKeeps(p, PR_SWAP, SnkReady, i);
    } else if p.state == SnkSwapSnkDisable {
      SnkSwapSnkDisableKeeps(p, i);
    } else if p.state == SnkSwapSrcDisable {
      SnkSwapSrcDisableKeeps(p, i);
    } else if p.state == SnkSwapStandby {
      SnkSwapStandbyKeeps(p, i);
    } else {
      SnkSwapCompleteKeeps(p, i);
    }
  }

  lemma SoftResetStateKeeps(p: Port, i: Input)
    requires AtSwitch(p, i) && p.state == SoftReset
    ensures Handled(Closed(RunSoftReset(p, i), p, i), i)
  {
    if Entered(p) && TxOk(p) {
    }
  }

  lemma HardResetSendKeeps(p: Port, i: Input)
    requires AtSwitch(p, i) && p.state == HardResetSend
    ensures Handled(Closed(RunHardResetSend(p, i), p, i), i)
  {
    if !Entered(p) && p.counters.hardResetSent {
    } else if TxOk(p) {
      if p.role.Source? {
      }
    }
  }

  lemma HardResetExecuteKeeps(p: Port, i: Input)
    requires AtSwitch(p, i) && p.state == HardResetExecute
    ensures Handled(Closed(RunHardResetExecute(p, i), p, i), i)
  {
    if p.role.Sink? {
    }
  }

  lemma SharedKeeps(p: Port, i: Input)
    requires AtSwitch(p, i) && !SourceState(p.state) && !SinkState(p.state)
    ensures Handled(Closed(RunShared(p, i), p, i), i)
  {
    if p.state == Suspended {
    } else if p.state == DrSwap {
      SwapRequestKeeps(p, DR_SWAP, ReadyState(p), i);
    } else if p.state == SoftReset {
      SoftResetStateKeeps(p, i);
    } else if p.state == HardResetSend {
      HardResetSendKeeps(p, i);
    } else if p.state == HardResetExecute {
      HardResetExecuteKeeps(p, i);
    }
  }

  lemma HandlerKeeps(p: Port, i: Input)
    requires AtSwitch(p, i)
    ensures Handled(HandlerPhase(p, i), i)
  {
    if SrcDisconnected <= p.state <= SrcStartup {
      SourceAttachKeeps(p, i);
    } else if SrcDiscovery <= p.state <= SrcTransition {
      SourceContractKeeps(p, i);
    } else if SourceState(p.state) {
      SourceReadyKeeps(p, i);
    } else if SnkDisconnected <= p.state <= SnkDiscovery {
      SinkAttachKeeps(p, i);
    } else if SinkState(p.state) {
      SinkContractKeeps(p, i);
    } else {
      SharedKeeps(p, i);
    }
  }

  lemma TimerKeeps(p: Port, i: Input)
    requires Handled(p, i)
    ensures Safe(TimerPhase(p, i.clock.end))
  {
    if p.timer.at != 0 && i.clock.end >= p.timer.at {
    }
  }

  lemma DetachKeeps(p: Port, i: Input)
    requires Safe(p)
    ensures Safe(DetachPhase(p, i))
  {
    if Connected(p) && !PowerSwapping(p.state) {
      if p.role.Source? {
      }
    }
  }

  lemma MessageKeeps(p: Port, i: Input)
    requires Midway(p, i.clock.run) && EntryOrigins(p) && Readable(i)
    ensures Midway(MessagePhase(p, i), i.clock.run)
  {
    if i.msg.Some? && Connected(p) {
      var m := i.msg.value;
      if HeaderCnt(m.header) > 0 {
        DataKeeps(p, HeaderKind(m.header), m.data, i);
      } else {
        ControlKeeps(p, HeaderKind(m.header), i);
      }
    }
  }

  lemma BeforeHandlerKeeps(p: Port, i: Input)
    requires Safe(p) && Readable(i) && Timely(p.history.now, i.clock)
    ensures AtSwitch(BeforeHandler(p, i), i)
  {
    ButtonKeeps(p, i.reset);
    var q := ButtonPhase(p.(sent := NoFrames), i.reset);
    Later(q, p.history.now, i.clock.run);
    VdmKeeps(q, i.clock.run, i.clock.vdm);
    var r := VdmPhase(q, i.clock.vdm);
    BoardKeeps(r, i.clock.run, i.boardOk, i.clock.board);
    MessageKeeps(BoardPhase(r, i.boardOk, i.clock.board), i);
  }

  lemma PassKeeps(p: Port, i: Input)
    requires Safe(p) && Readable(i) && Timely(p.history.now, i.clock)
    ensures Safe(Pass(p, i))
  {
    BeforeHandlerKeeps(p, i);
    var q := BeforeHandler(p, i);
    HandlerKeeps(q, i);
    TimerKeeps(HandlerPhase(q, i), i);
    DetachKeeps(TimerPhase(HandlerPhase(q, i), i.clock.end), i);
  }

  lemma ResetKeeps(p: Port, t: nat)
    requires Safe(p)
    ensures Safe(ExecuteHardReset(p, t))
  {
    if p.role.Sink? {
    }
  }

  lemma NoticeKeeps(p: Port, status: TxStatus)
    requires Safe(p)
    ensures Safe(TransmitComplete(p, status))
  {}

  lemma NotifiedKeeps(p: Port, on: bool, status: TxStatus)
    requires Safe(p)
    ensures Safe(Notified(p, on, status))
  {
    NoticeKeeps(p, status);
  }

  /** An alert with any interrupts keeps it. */
  lemma AlertKeeps(p: Port, n: Interrupts, t: nat)
    requires Safe(p)
    ensures Safe(Alerted(p, n, t))
  {
    NotifiedKeeps(p, n.collision, TxFailed);
    var a := Notified(p, n.collision, TxFailed);
    NotifiedKeeps(a, n.txSuccess, TxSuccess);
    var b := Notified(a, n.txSuccess, TxSuccess);
    NotifiedKeeps(b, n.retryFail, TxFailed);
    var c := Notified(b, n.retryFail, TxFailed);
    NotifiedKeeps(c, n.hardSent, TxSuccess);
    ResetKeeps(Notified(c, n.hardSent, TxSuccess), t);
  }

  lemma SwapCallsKeep(p: Port)
    requires Safe(p)
    ensures Safe(RequestPowerSwap(p)) && Safe(RequestDataSwap(p)) && Safe(RequestSoftReset(p))
  {}

  lemma SourceVoltageKeeps(p: Port)
    requires Safe(p)
    ensures Safe(RequestSourceVoltage(p))
  {
    if p.state == SnkReady || p.state == SnkTransition {
    }
  }

  lemma OtherCallsKeep(p: Port, e: Event)
    requires Safe(p)
    requires e.TxDone? || e.AskNewPower? || e.AskContractUpdate? || e.AskPing? || e.AskVdm?
    ensures Safe(After(p, e))
  {}

  lemma AfterKeeps(p: Port, e: Event)
    requires Safe(p) && Legible(e) && InTime(p, e)
    ensures Safe(After(p, e))
  {
    if e.Poll? {
      PassKeeps(p, e.i);
    } else if e.HardResetReceived? {
      ResetKeeps(p, e.t);
    } else if e.AskPowerSwap? || e.AskDataSwap? || e.AskSoftReset? {
      SwapCallsKeep(p);
    } else if e.AskSourceVoltage? {
      SourceVoltageKeeps(p);
    } else {
      OtherCallsKeep(p, e);
    }
  }

  lemma InitialIsSafe(p: Port)
    requires Initial(p)
    ensures Safe(p)
  {}

  /** Every state of every run, whatever the partner, the board and the application do. */
  lemma {:induction false} RunKeeps(p: Port, run: seq<Event>)
    requires Safe(p) && Valid(p, run)
    ensures Safe(End(p, run))
    decreases |run|
  {
    if run != [] {
      AfterKeeps(p, run[0]);
      RunKeeps(After(p, run[0]), run[1..]);
    }
  }
}
