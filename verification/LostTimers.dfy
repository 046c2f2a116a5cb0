/** The nine timed states outside NoLostTimers: exactly when a pass or a call leaves one of
    them without its timer, and a run from the start that ends in one for good. */
module LostTimers {
  import opened PdWords
  import opened PowerPolicy
  import opened PortState
  import opened PortMachine
  import opened PortRuns
  import opened PortSafety
  import opened PortGuarantees

  /** In state `s`, past its entry action, without a timer. */
  predicate Timerless(p: Port, s: State) { p.state == s && p.last == s && p.timer.at == 0 }

  /** The states whose timer can be lost. */
  predicate Losable(s: State) {
    || s == SnkDiscovery || s == SnkRequested || s == SnkSwapInit || s == SrcDiscovery || s == SrcAccepted
    || s == DrSwap || s == SrcSwapInit || s == SrcSwapSnkDisable || s == SoftReset
  }

  /** No timed state is left out: a state that can arm a timer is losable or one of the
      eleven of NoLostTimers. */
  lemma TimedStates(p: Port, next: State)
    requires Successor(p.state, next) && !Losable(p.state)
    ensures AlwaysTimed(p) || (p.state == HardResetSend && !p.counters.hardResetSent)
  {}

  // ---- The guards ----

  /** The message makes handle_request set the state to `s`, whose entry action will not run
      if `s` is also the last state. */
  predicate Reenters(m: Port, i: Input, s: State) {
    && i.msg.Some? && Connected(m)
    && var k := i.msg.value;
       var restarts := k.IsControl(SOFT_RESET) || (k.IsControl(ACCEPT) && m.state == SoftReset);
       if s == SnkDiscovery then
         || (restarts && m.role.Sink?)
         || (k.IsControl(PS_RDY) && m.state == SrcSwapStandby)
         || ((k.IsControl(REJECT) || k.IsControl(WAIT)) && m.state == SnkRequested && !m.flags.explicitContract)
       else if s == SrcDiscovery then restarts && m.role.Source?
       else if s == SnkRequested then
         && k.IsData(SOURCE_CAP) && TxOk(m)
         && (m.state == SnkDiscovery || m.state == SnkTransition || m.state == SnkReady)
       else if s == SrcAccepted then Grants(m, i)
       else
         && s == SrcSwapSnkDisable
         && ((k.IsControl(PR_SWAP) && i.allowPowerSwap && m.role.Source?)
             || (k.IsControl(ACCEPT) && m.state == SrcSwapInit))
  }

  /** The message takes a port out of SoftReset. */
  predicate EndsSoftReset(m: Port, i: Input) {
    && i.msg.Some?
    && var k := i.msg.value;
       || (k.IsData(REQUEST) && !(m.role.Source? && |k.data| == 1 && RequestGranted(k.data[0], m.srcPdos) && !TxOk(m)))
       || k.IsControl(ACCEPT) || k.IsControl(SOFT_RESET) || (k.IsControl(PR_SWAP) && i.allowPowerSwap)
       || (k.IsControl(PS_RDY) && m.role.Sink?)
  }

  /** The rest of the pass leaves a port in `s`: no advertisement goes out, and the detach
      check, which is skipped during a swap, finds it attached. */
  predicate Stays(b: Port, i: Input, s: State) {
    && (s == SrcDiscovery ==> b.counters.caps >= CAPS_COUNT || !TxOk(b))
    && (PowerSwapping(s) || StaysAttached(b, i))
  }

  /** PS_RDY in SrcSwapStandby makes the port a sink. */
  function RoleIn(m: Port, s: State): Role {
    if s == SnkDiscovery && m.state == SrcSwapStandby then Sink else m.role
  }

  /** Where a pass loses the timer of `s`, in terms of the port at its start and of the
      port that handle_request sees: the last state is `s`, and the state is set to `s` from
      outside the switch, by the message or, for SoftReset, by the button. */
  predicate Loses(p: Port, i: Input, s: State) {
    var m := BeforeMessage(p, i);
    && m.last == s
    && (if s == SoftReset then i.reset && p.state != SoftReset && !EndsSoftReset(m, i) else Reenters(m, i, s))
    && Stays(m.(role := RoleIn(m, s)), i, s)
  }

  /** By design no timer: the resets are used up, or the partner was never heard. */
  predicate Unarmed(p: Port, s: State) {
    || (s == SnkDiscovery && p.counters.hardReset >= HARD_RESET_COUNT && !p.flags.previousPdConn)
    || (s == SrcDiscovery && !p.flags.previousPdConn)
  }

  // ---- Messages ----

  /** No message touches what the rest of the pass looks at beside state and role. */
  predicate SameOutlook(m: Port, b: Port) {
    b.last == m.last && b.tx == m.tx && b.counters == m.counters && b.polarity == m.polarity
  }

  /** The message leaves state `s` without a timer exactly if `re`. */
  predicate Exact(m: Port, b: Port, s: State, re: bool) {
    && SameOutlook(m, b)
    && (b.state == s && b.timer.at == 0 <==> re)
    && (re ==> b.role == RoleIn(m, s))
  }

  predicate Running(m: Port, s: State) {
    Losable(s) && s != SoftReset && (m.state == s ==> m.timer.at != 0)
  }

  lemma AnswerExact(m: Port, first: Word, caps: CapTable, limit: Power, rdo: Word, power: Power, s: State)
    requires Running(m, s) && (m.state == SnkDiscovery || m.state == SnkTransition || m.state == SnkReady)
    ensures Exact(m, AnswerWith(m, first, caps, limit, rdo, power), s, s == SnkRequested && TxOk(m))
  {
    if TxOk(m) {
    }
  }

  lemma RequestExact(m: Port, objects: Objects, t: nat, s: State)
    requires Running(m, s) && |objects| > 0
    ensures Exact(m, OnRequest(m, objects, t), s,
                  && s == SrcAccepted && m.role.Source? && |objects| == 1 && RequestGranted(objects[0], m.srcPdos)
                  && TxOk(m))
  {
    if m.role.Source? && |objects| == 1 && RequestGranted(objects[0], m.srcPdos) {
      if TxOk(m) {
      }
    }
  }

  lemma DataExact(m: Port, kind: nat, objects: Objects, i: Input, s: State)
    requires Running(m, s) && |objects| > 0 && Readable(i)
    ensures var granted := m.role.Source? && |objects| == 1 && RequestGranted(objects[0], m.srcPdos) && TxOk(m);
            Exact(m, HandleData(m, kind, objects, i), s,
                  || (kind == SOURCE_CAP && s == SnkRequested && TxOk(m)
                      && (m.state == SnkDiscovery || m.state == SnkTransition || m.state == SnkReady))
                  || (kind == REQUEST && s == SrcAccepted && granted))
  {
    if kind == SOURCE_CAP {
      if m.state == SnkDiscovery || m.state == SnkTransition || m.state == SnkReady {
        var caps, limit, rdo, power := AnswerShape(m, objects, i.capIndex);
        AnswerExact(m, objects[0], caps, limit, rdo, power, s);
      }
    } else if kind == REQUEST {
      RequestExact(m, objects, i.clock.run, s);
    } else if kind == BIST {
    } else if kind == SINK_CAP {
    }
  }

  lemma PsRdyExact(m: Port, s: State)
    requires Running(m, s)
    ensures Exact(m, OnPsRdy(m), s, s == SnkDiscovery && m.state == SrcSwapStandby)
  {}

  lemma RefusalExact(m: Port, wait: bool, t: nat, s: State)
    requires Running(m, s)
    ensures Exact(m, OnRefusal(m, wait, t), s,
                  s == SnkDiscovery && m.state == SnkRequested && !m.flags.explicitContract)
  {}

  predicate IsDiscovery(s: State, r: Role) { s == if r.Sink? then SnkDiscovery else SrcDiscovery }

  lemma AcceptExact(m: Port, s: State)
    requires Running(m, s)
    ensures Exact(m, OnAccept(m), s,
                  || (m.state == SoftReset && IsDiscovery(s, m.role))
                  || (m.state == SrcSwapInit && s == SrcSwapSnkDisable))
  {}

  lemma SoftResetExact(m: Port, s: State)
    requires Running(m, s)
    ensures Exact(m, SendControl(ExecuteSoftReset(m), ACCEPT), s, IsDiscovery(s, m.role))
  {}

  lemma PrSwapExact(m: Port, allowed: bool, s: State)
    requires Running(m, s)
    ensures Exact(m, OnPrSwap(m, allowed), s, s == SrcSwapSnkDisable && allowed && m.role.Source?)
  {}

  lemma OtherControlExact(m: Port, kind: nat, i: Input, s: State)
    requires Running(m, s) && kind != PS_RDY && kind != REJECT && kind != WAIT
    requires kind != ACCEPT && kind != SOFT_RESET && kind != PR_SWAP
    ensures Exact(m, HandleControl(m, kind, i), s, false)
  {}

  lemma ControlExact(m: Port, kind: nat, i: Input, s: State)
    requires Running(m, s)
    ensures Exact(m, HandleControl(m, kind, i), s,
                  if kind == PS_RDY then s == SnkDiscovery && m.state == SrcSwapStandby
                  else if kind == REJECT || kind == WAIT then
                    s == SnkDiscovery && m.state == SnkRequested && !m.flags.explicitContract
                  else if kind == ACCEPT then
                    || (m.state == SoftReset && IsDiscovery(s, m.role))
                    || (m.state == SrcSwapInit && s == SrcSwapSnkDisable)
                  else if kind == SOFT_RESET then IsDiscovery(s, m.role)
                  else kind == PR_SWAP && s == SrcSwapSnkDisable && i.allowPowerSwap && m.role.Source?)
  {
    if kind == PS_RDY {
      PsRdyExact(m, s);
    } else if kind == REJECT || kind == WAIT {
      RefusalExact(m, kind == WAIT, i.clock.msg, s);
    } else if kind == ACCEPT {
      AcceptExact(m, s);
    } else if kind == SOFT_RESET {
      SoftResetExact(m, s);
    } else if kind == PR_SWAP {
      PrSwapExact(m, i.allowPowerSwap, s);
    } else {
      OtherControlExact(m, kind, i, s);
    }
  }

  lemma MessageExact(m: Port, i: Input, s: State)
    requires Running(m, s) && Readable(i)
    ensures Exact(m, MessagePhase(m, i), s, Reenters(m, i, s))
  {
    if i.msg.Some? && Connected(m) {
      var k := i.msg.value;
      if HeaderCnt(k.header) > 0 {
        DataExact(m, HeaderKind(k.header), k.data, i, s);
      } else {
        ControlExact(m, HeaderKind(k.header), i, s);
      }
    }
  }

  lemma DataInSoftReset(m: Port, kind: nat, objects: Objects, i: Input)
    requires m.state == SoftReset && |objects| > 0 && Readable(i)
    ensures var refused := m.role.Source? && |objects| == 1 && RequestGranted(objects[0], m.srcPdos) && !TxOk(m);
            var b := HandleData(m, kind, objects, i);
            && SameOutlook(m, b) && (b.state == SoftReset ==> b.timer == m.timer && b.role == m.role)
            && (b.state == SoftReset <==> !(kind == REQUEST && !refused))
  {
    if kind == SOURCE_CAP {
    } else if kind == REQUEST {
    } else if kind == BIST {
    }
  }

  lemma ControlInSoftReset(m: Port, kind: nat, i: Input)
    requires m.state == SoftReset
    ensures var b := HandleControl(m, kind, i);
            && SameOutlook(m, b) && (b.state == SoftReset ==> b.timer == m.timer && b.role == m.role)
            && (b.state == SoftReset <==>
                !(kind == ACCEPT || kind == SOFT_RESET || (kind == PR_SWAP && i.allowPowerSwap)
                  || (kind == PS_RDY && m.role.Sink?)))
  {
    if kind == GET_SOURCE_CAP {
    } else if kind == PS_RDY {
    } else if kind == PR_SWAP {
    }
  }

  /** In SoftReset a message keeps the timer, or ends the state. */
  lemma MessageInSoftReset(m: Port, i: Input)
    requires m.state == SoftReset && Readable(i)
    ensures var b := MessagePhase(m, i);
            && SameOutlook(m, b) && (b.state == SoftReset ==> b.timer == m.timer && b.role == m.role)
            && (b.state == SoftReset <==> !EndsSoftReset(m, i))
  {
    if i.msg.Some? {
      var k := i.msg.value;
      if HeaderCnt(k.header) > 0 {
        DataInSoftReset(m, HeaderKind(k.header), k.data, i);
      } else {
        ControlInSoftReset(m, HeaderKind(k.header), i);
      }
    }
  }

  lemma DataEntersNoSoftReset(m: Port, kind: nat, objects: Objects, i: Input)
    requires m.state != SoftReset && |objects| > 0 && Readable(i)
    ensures HandleData(m, kind, objects, i).state != SoftReset
  {
    if kind == SOURCE_CAP {
      if m.state == SnkDiscovery || m.state == SnkTransition || m.state == SnkReady {
        var caps, limit, rdo, power := AnswerShape(m, objects, i.capIndex);
      }
    } else if kind == REQUEST {
    } else if kind == BIST {
    }
  }

  lemma NoMessageEntersSoftReset(m: Port, i: Input)
    requires m.state != SoftReset && Readable(i)
    ensures MessagePhase(m, i).state != SoftReset
  {
    if i.msg.Some? && Connected(m) {
      var k := i.msg.value;
      if HeaderCnt(k.header) > 0 {
        DataEntersNoSoftReset(m, HeaderKind(k.header), k.data, i);
      }
    }
  }

  // ---- The rest of the pass ----

  /** The handler of a losable state that has run before does nothing, except that
      SrcDiscovery advertises. */
  lemma HandlerIdles(b: Port, i: Input)
    requires Losable(b.state) && b.last == b.state && Readable(i)
    requires b.state == SrcDiscovery ==> b.counters.caps >= CAPS_COUNT
    ensures Handle(b, i) == b
  {
    if b.state == SnkDiscovery {
    } else if b.state == SrcDiscovery {
    } else if b.state == DrSwap {
    } else if b.state == SoftReset {
    }
  }

  lemma AdvertiserRuns(b: Port, i: Input)
    requires AtSwitch(b, i) && b.state == SrcDiscovery && b.last == SrcDiscovery && b.counters.caps < CAPS_COUNT
    ensures Timerless(FromSwitch(b, i), SrcDiscovery) <==> b.timer.at == 0 && !TxOk(b) && StaysAttached(b, i)
  {
    if TxOk(b) {
    }
  }

  lemma IdleRest(b: Port, i: Input)
    requires Losable(b.state) && (b.timer.at != 0 ==> b.timer.next != b.state)
    ensures var q := DetachPhase(TimerPhase(Closed(b, b, i), i.clock.end), i);
            Timerless(q, b.state) <==> b.timer.at == 0 && (PowerSwapping(b.state) || StaysAttached(b, i))
  {}

  lemma LastIsState(b: Port, i: Input)
    requires Readable(i)
    ensures FromSwitch(b, i).last == b.state
  {}

  lemma LeadsElsewhere(b: Port, i: Input)
    requires AtSwitch(b, i) && Losable(b.state) && b.last == b.state
    ensures b.timer.at != 0 ==> b.timer.next != b.state
  {}

  /** Past its entry action, a losable state ends the pass without a timer exactly if it
      reached the switch without one and nothing moves it. */
  lemma RestExact(b: Port, i: Input, s: State)
    requires AtSwitch(b, i) && Losable(s) && b.last == s
    ensures Timerless(FromSwitch(b, i), s) <==> b.state == s && b.timer.at == 0 && Stays(b, i, s)
  {
    LastIsState(b, i);
    if b.state == s {
      if s == SrcDiscovery && b.counters.caps < CAPS_COUNT {
        AdvertiserRuns(b, i);
      } else {
        HandlerIdles(b, i);
        LeadsElsewhere(b, i);
        IdleRest(b, i);
      }
    }
  }

  /** What a handler leaves is not a losable state without a timer, nor will be. */
  predicate Armed(q: Port, s: State) {
    (q.state == s ==> q.timer.at != 0 || Unarmed(q, s)) && (q.timer.at != 0 ==> q.timer.next != s)
  }

  lemma ArmedEnds(q: Port, b: Port, i: Input)
    requires Losable(b.state) && Armed(q, b.state)
    ensures var r := DetachPhase(TimerPhase(Closed(q, b, i), i.clock.end), i);
            Timerless(r, b.state) ==> Unarmed(r, b.state)
  {}

  lemma DiscoveryArms(b: Port, i: Input)
    requires AtSwitch(b, i) && (b.state == SnkDiscovery || b.state == SrcDiscovery) && Entered(b)
    ensures Armed(Handle(b, i), b.state)
  {
    if b.state == SrcDiscovery {
      if b.counters.caps < CAPS_COUNT && TxOk(b) {
      }
    }
  }

  lemma SwapArms(b: Port, i: Input)
    requires AtSwitch(b, i) && Entered(b)
    requires b.state == SnkSwapInit || b.state == SrcSwapInit || b.state == DrSwap || b.state == SrcSwapSnkDisable
    ensures Armed(Handle(b, i), b.state)
  {
    if b.state == DrSwap {
    } else if b.state == SnkSwapInit {
    }
  }

  lemma OthersArm(b: Port, i: Input)
    requires AtSwitch(b, i) && Entered(b) && (b.state == SnkRequested || b.state == SrcAccepted || b.state == SoftReset)
    ensures Armed(Handle(b, i), b.state)
  {}

  /** On entry every losable state arms its timer, or moves on, or has none by design. */
  lemma EntryArms(b: Port, i: Input)
    requires AtSwitch(b, i) && Losable(b.state) && Entered(b)
    ensures var q := FromSwitch(b, i);
            Timerless(q, b.state) ==> Unarmed(q, b.state)
  {
    if b.state == SnkDiscovery || b.state == SrcDiscovery {
      DiscoveryArms(b, i);
    } else if b.state == SnkRequested || b.state == SrcAccepted || b.state == SoftReset {
      OthersArm(b, i);
    } else {
      SwapArms(b, i);
    }
    ArmedEnds(Handle(b, i), b, i);
  }

  // ---- Passes and calls ----

  /** What the start of a pass does to a port whose last state stays a losable one. */
  lemma PrefixShape(p: Port, i: Input)
    requires Losable(BeforeMessage(p, i).last)
    ensures var m := BeforeMessage(p, i);
            m == p.(vdm := m.vdm, sent := m.sent, state := if i.reset then SoftReset else p.state)
  {}

  lemma AnswerKeepsLast(m: Port, first: Word, caps: CapTable, limit: Power, rdo: Word, power: Power)
    ensures AnswerWith(m, first, caps, limit, rdo, power).last == m.last
  {}

  lemma DataKeepsLast(m: Port, kind: nat, objects: Objects, i: Input)
    requires |objects| > 0 && Readable(i)
    ensures HandleData(m, kind, objects, i).last == m.last
  {
    if kind == SOURCE_CAP {
      if m.state == SnkDiscovery || m.state == SnkTransition || m.state == SnkReady {
        var caps, limit, rdo, power := AnswerShape(m, objects, i.capIndex);
        AnswerKeepsLast(m, objects[0], caps, limit, rdo, power);
      }
    }
  }

  lemma ControlKeepsLast(m: Port, kind: nat, i: Input)
    ensures HandleControl(m, kind, i).last == m.last
  {}

  lemma MessageKeepsLast(m: Port, i: Input)
    requires Readable(i)
    ensures MessagePhase(m, i).last == m.last
  {
    if i.msg.Some? && Connected(m) {
      var k := i.msg.value;
      if HeaderCnt(k.header) > 0 {
        DataKeepsLast(m, HeaderKind(k.header), k.data, i);
      } else {
        ControlKeepsLast(m, HeaderKind(k.header), i);
      }
    }
  }

  lemma ButtonLosesExactly(p: Port, i: Input)
    requires Safe(p) && Readable(i) && Timely(p.history.now, i.clock) && !Timerless(p, SoftReset)
    requires BeforeMessage(p, i).last == SoftReset
    ensures Timerless(Pass(p, i), SoftReset) <==> Loses(p, i, SoftReset)
  {
    var m := BeforeMessage(p, i);
    PrefixShape(p, i);
    BeforeHandlerKeeps(p, i);
    MessageKeepsLast(m, i);
    RestExact(BeforeHandler(p, i), i, SoftReset);
    if m.state == SoftReset {
      MessageInSoftReset(m, i);
    } else {
      NoMessageEntersSoftReset(m, i);
    }
  }

  lemma MessageLosesExactly(p: Port, i: Input, s: State)
    requires Safe(p) && Readable(i) && Timely(p.history.now, i.clock) && !Timerless(p, s)
    requires Losable(s) && s != SoftReset && BeforeMessage(p, i).last == s
    ensures Timerless(Pass(p, i), s) <==> Loses(p, i, s)
  {
    var m := BeforeMessage(p, i);
    PrefixShape(p, i);
    BeforeHandlerKeeps(p, i);
    MessageExact(m, i, s);
    RestExact(BeforeHandler(p, i), i, s);
  }

  lemma EntryLosesNothing(p: Port, i: Input, s: State)
    requires Safe(p) && Readable(i) && Timely(p.history.now, i.clock) && Losable(s)
    requires BeforeMessage(p, i).last != s
    ensures Timerless(Pass(p, i), s) ==> Unarmed(Pass(p, i), s)
  {
    var b := BeforeHandler(p, i);
    BeforeHandlerKeeps(p, i);
    MessageKeepsLast(BeforeMessage(p, i), i);
    LastIsState(b, i);
    if b.state == s {
      EntryArms(b, i);
    }
  }

  /** A pass leaves a losable state past its entry action without a timer exactly where
      `Loses` says, or has just entered it where it has none by design. */
  lemma PassLosesExactly(p: Port, i: Input, s: State)
    requires Safe(p) && Readable(i) && Timely(p.history.now, i.clock) && Losable(s) && !Timerless(p, s)
    ensures if BeforeMessage(p, i).last == s then Timerless(Pass(p, i), s) <==> Loses(p, i, s)
            else !Loses(p, i, s) && (Timerless(Pass(p, i), s) ==> Unarmed(Pass(p, i), s))
  {
    if BeforeMessage(p, i).last != s {
      EntryLosesNothing(p, i, s);
    } else if s == SoftReset {
      ButtonLosesExactly(p, i);
    } else {
      MessageLosesExactly(p, i, s);
    }
  }

  /** The calls that set the state to `s`. */
  predicate CallsInto(p: Port, e: Event, s: State) {
    || (e.AskPowerSwap? && ((s == SrcSwapInit && p.state == SrcReady) || (s == SnkSwapInit && p.state == SnkReady)))
    || (e.AskDataSwap? && s == DrSwap && p.state == ReadyState(p))
    || (e.AskSoftReset? && s == SoftReset && Connected(p))
  }

  /** Between passes a timer is lost exactly by a call that sets the state to the one whose
      handler ran last. */
  lemma CallLosesExactly(p: Port, e: Event, s: State)
    requires Safe(p) && Legible(e) && !e.Poll? && Losable(s) && !Timerless(p, s)
    ensures Timerless(After(p, e), s) <==> p.last == s && CallsInto(p, e, s)
  {}

  // ---- What it looks like ----

  /** No button pressed, no failed board check. */
  predicate Unforced(i: Input) { !i.reset && i.boardOk }

  /** A second Request while the first is being granted leaves SrcAccepted without its
      timer. */
  lemma SecondRequestStopsTimer(p: Port, i: Input)
    requires p.state == SrcAccepted && p.last == SrcAccepted && p.role.Source? && TxOk(p)
    requires Readable(i) && Unforced(i) && !(if p.polarity then i.ccEnd2 else i.ccEnd1).Open?
    requires i.msg.Some? && i.msg.value.IsData(REQUEST) && |i.msg.value.data| == 1
    requires RequestGranted(i.msg.value.data[0], p.srcPdos)
    ensures Timerless(Pass(p, i), SrcAccepted)
  {}

  /** A Soft_Reset in SnkDiscovery stops the wait for capabilities. */
  lemma SoftResetStopsTimer(p: Port, i: Input)
    requires p.state == SnkDiscovery && p.last == SnkDiscovery && p.role.Sink?
    requires Readable(i) && Unforced(i) && i.vbusEnd
    requires i.msg.Some? && i.msg.value.IsControl(SOFT_RESET)
    ensures Timerless(Pass(p, i), SnkDiscovery)
  {}

  /** A PR_Swap just before the supply is cut sends a source back to SrcSwapSnkDisable, but
      not through its entry action. */
  lemma PrSwapStopsTimer(p: Port, i: Input)
    requires p.state == SrcSwapSrcDisable && p.last == SrcSwapSnkDisable && p.role.Source?
    requires Readable(i) && Unforced(i) && i.allowPowerSwap
    requires i.msg.Some? && i.msg.value.IsControl(PR_SWAP)
    ensures Timerless(Pass(p, i), SrcSwapSnkDisable)
  {}

  /** Notifications and unforced passes without a message. */
  ghost predicate Unheard(run: seq<Event>) {
    forall e :: e in run ==> e.TxDone? || (e.Poll? && Unforced(e.i) && e.i.msg.None?)
  }

  /** From there only a message, a reset or the application frees it: no timer runs, and
      the detach check is skipped during a swap. */
  lemma {:induction false} StuckInSwap(p: Port, run: seq<Event>)
    requires Timerless(p, SrcSwapSnkDisable) && Valid(p, run) && Unheard(run)
    ensures Timerless(End(p, run), SrcSwapSnkDisable)
    decreases |run|
  {
    if run != [] {
      var e := run[0];
      assert e in run;
      if e.Poll? {
        StuckPass(p, e.i);
      }
      StuckInSwap(After(p, e), run[1..]);
    }
  }

  lemma StuckPass(p: Port, i: Input)
    requires Timerless(p, SrcSwapSnkDisable) && Readable(i) && Unforced(i) && i.msg.None?
    ensures Timerless(Pass(p, i), SrcSwapSnkDisable)
  {}

  // ---- A run that ends there ----

  /** A poll at clock value `t` that ends at `end`. */
  function At(t: nat, end: nat, msg: Option<Message>, cc: Cc, drp: Drp): Input {
    Input(false, true, msg, cc, Open, cc, Open, false, false, false, true, true, false, false, false, drp, 0,
          Clock(t, t, t, t, t, end))
  }

  function PrSwapMessage(): (m: Message)
    ensures m.Valid() && m.IsControl(PR_SWAP)
  {
    HeaderRoundTrip(PR_SWAP, Sink, Ufp, 0, 0);
    Message(Header(PR_SWAP, Sink, Ufp, 0, 0), [])
  }

  /** A source that has got as far as `s`. */
  predicate Reached(p: Port, s: State, last: State, now: nat) {
    p.role.Source? && p.state == s && p.last == last && p.history.now == now && p.vdm.state.VdmDone?
  }

  lemma Toggles(p: Port)
    requires Initial(p)
    ensures Reached(Pass(p, At(40_000, 40_000, None, Open, ToggleOn)), SrcDisconnected, SnkDisconnected, 40_000)
  {}

  lemma SeesPartner(p: Port)
    requires Reached(p, SrcDisconnected, SnkDisconnected, 40_000)
    ensures var q := Pass(p, At(50_000, 50_000, None, RdPulled, ToggleOn));
            && Reached(q, SrcDisconnectedDebounce, SrcDisconnected, 50_000)
            && q.cc.state.CcNone? && q.timer.at == 0
  {}

  lemma Classifies(p: Port)
    requires Reached(p, SrcDisconnectedDebounce, SrcDisconnected, 50_000) && p.cc.state.CcNone? && p.timer.at == 0
    ensures var q := Pass(p, At(60_000, 60_000, None, RdPulled, ToggleOn));
            && Reached(q, SrcDisconnectedDebounce, SrcDisconnectedDebounce, 60_000)
            && q.cc == CcTrack(UfpAttached, 160_000)
  {}

  lemma AttachesPartner(p: Port)
    requires Reached(p, SrcDisconnectedDebounce, SrcDisconnectedDebounce, 60_000)
    requires p.cc == CcTrack(UfpAttached, 160_000)
    ensures Reached(Pass(p, At(160_000, 160_000, None, RdPulled, ToggleOn)),
                    SrcStartup, SrcDisconnectedDebounce, 160_000)
  {}

  /** The entry timer of SrcSwapSnkDisable fires in the pass that armed it. */
  lemma StartsSwap(p: Port)
    requires Reached(p, SrcStartup, SrcDisconnectedDebounce, 160_000)
    ensures Reached(Pass(p, At(170_000, 205_000, Some(PrSwapMessage()), RdPulled, ToggleOn)),
                    SrcSwapSrcDisable, SrcSwapSnkDisable, 205_000)
  {}

  lemma Precedes(p: Port, i: Input, rest: seq<Event>)
    requires Readable(i) && Timely(p.history.now, i.clock) && Valid(Pass(p, i), rest)
    ensures Valid(p, [Poll(i)] + rest) && End(p, [Poll(i)] + rest) == End(Pass(p, i), rest)
  {
    assert ([Poll(i)] + rest)[1..] == rest;
  }

  lemma SwapsTwice(p: Port) returns (run: seq<Event>)
    requires Reached(p, SrcStartup, SrcDisconnectedDebounce, 160_000)
    ensures |run| == 2 && Valid(p, run) && Timerless(End(p, run), SrcSwapSnkDisable)
  {
    var i, j := At(170_000, 205_000, Some(PrSwapMessage()), RdPulled, ToggleOn),
                At(210_000, 210_000, Some(PrSwapMessage()), RdPulled, ToggleOn);
    StartsSwap(p);
    var q := Pass(p, i);
    PrSwapStopsTimer(q, j);
    Precedes(q, j, []);
    Precedes(p, i, [Poll(j)] + []);
    run := [Poll(i)] + ([Poll(j)] + []);
  }

  lemma AttachesAndSwaps(p: Port) returns (run: seq<Event>)
    requires Reached(p, SrcDisconnectedDebounce, SrcDisconnected, 50_000) && p.cc.state.CcNone? && p.timer.at == 0
    ensures |run| == 4 && Valid(p, run) && Timerless(End(p, run), SrcSwapSnkDisable)
  {
    var i, j := At(60_000, 60_000, None, RdPulled, ToggleOn), At(160_000, 160_000, None, RdPulled, ToggleOn);
    Classifies(p);
    var q := Pass(p, i);
    AttachesPartner(q);
    var rest := SwapsTwice(Pass(q, j));
    Precedes(q, j, rest);
    Precedes(p, i, [Poll(j)] + rest);
    run := [Poll(i)] + ([Poll(j)] + rest);
  }

  /** Six polls from power-on: toggle to source, see a sink, classify it, attach, and hear
      PR_Swap twice. By StuckInSwap the port then stays where it is. */
  lemma StuckIsReachable(start: Port) returns (run: seq<Event>)
    requires Initial(start)
    ensures |run| == 6 && Valid(start, run) && Timerless(End(start, run), SrcSwapSnkDisable)
  {
    var i, j := At(40_000, 40_000, None, Open, ToggleOn), At(50_000, 50_000, None, RdPulled, ToggleOn);
    Toggles(start);
    var p := Pass(start, i);
    SeesPartner(p);
    var rest := AttachesAndSwaps(Pass(p, j));
    Precedes(p, j, rest);
    Precedes(start, i, [Poll(j)] + rest);
    run := [Poll(i)] + ([Poll(j)] + rest);
  }
}
