/** Message identity: the ID counter is the number of acknowledged transmissions since it
    was last zeroed, modulo 8, and nothing else moves it. */
module MessageIdentity {
  import opened PdWords
  import opened PowerPolicy
  import opened PortState
  import opened PortMachine
  import opened PortRuns

  /** The received messages that restart the counter. */
  predicate MessageZeroes(p: Port, i: Input) {
    && i.msg.Some? && Connected(p)
    && var m := i.msg.value;
       || m.IsControl(SOFT_RESET)
       || (m.IsControl(ACCEPT) && p.state == SoftReset)
       || (m.IsControl(PS_RDY) && p.state == SrcSwapStandby)
  }

  predicate SinkAttaches(p: Port, i: Input) {
    var c := ClassifySink(i.cc1, i.cc2);
    !c.CcNone? && c == p.cc.state && i.clock.run >= p.cc.debounce && i.vbus1
  }

  /** The handlers that restart the counter. */
  predicate HandlerZeroes(p: Port, i: Input) {
    || (p.state == SrcStartup && Entered(p))
    || (p.state == SnkDisconnectedDebounce && SinkAttaches(p, i))
    || (p.state == SnkSwapComplete && TxOk(p))
    || (p.state == SoftReset && Entered(p))
    || p.state == HardResetExecute
  }

  predicate Zeroes(p: Port, e: Event)
    requires Legible(e)
  {
    match e
    case Poll(i) => !i.boardOk || MessageZeroes(BeforeMessage(p, i), i) || HandlerZeroes(BeforeHandler(p, i), i)
    case HardResetReceived(_) => true
    case _ => false
  }

  function Restarted(id: MsgId, zeroed: bool): MsgId { if zeroed then 0 else id }

  lemma AnswerKeepsId(p: Port, first: Word, caps: CapTable, limit: Power, rdo: Word, power: Power)
    ensures AnswerWith(p, first, caps, limit, rdo, power).msgId == p.msgId
  {}

  lemma DataKeepsId(p: Port, kind: nat, objects: Objects, i: Input)
    requires |objects| > 0 && Readable(i)
    ensures HandleData(p, kind, objects, i).msgId == p.msgId
  {
    if kind == SOURCE_CAP {
      if p.state == SnkDiscovery || p.state == SnkTransition || p.state == SnkReady {
        var caps, limit, rdo, power := AnswerShape(p, objects, i.capIndex);
        AnswerKeepsId(p, objects[0], caps, limit, rdo, power);
      }
    } else if kind == REQUEST {
    } else if kind == BIST {
    } else if kind == SINK_CAP {
    }
  }

  lemma ControlId(p: Port, kind: nat, i: Input)
    ensures HandleControl(p, kind, i).msgId ==
            Restarted(p.msgId, || kind == SOFT_RESET || (kind == ACCEPT && p.state == SoftReset)
                               || (kind == PS_RDY && p.state == SrcSwapStandby))
  {
    if kind == GET_SOURCE_CAP {
    } else if kind == PS_RDY {
    } else if kind == REJECT || kind == WAIT {
    } else if kind == ACCEPT {
    } else if kind == SOFT_RESET {
    } else if kind == PR_SWAP {
    } else if kind == DR_SWAP {
    }
  }

  lemma MessageId(p: Port, i: Input)
    requires Readable(i)
    ensures MessagePhase(p, i).msgId == Restarted(p.msgId, MessageZeroes(p, i))
  {
    if i.msg.Some? && Connected(p) {
      var m := i.msg.value;
      if HeaderCnt(m.header) > 0 {
        DataKeepsId(p, HeaderKind(m.header), m.data, i);
      } else {
        ControlId(p, HeaderKind(m.header), i);
      }
    }
  }

  lemma SourceId(p: Port, i: Input)
    requires Readable(i) && SourceState(p.state)
    ensures Handle(p, i).msgId == Restarted(p.msgId, HandlerZeroes(p, i))
  {
    if p.state <= SrcStartup {
      if p.state == SrcDisconnected {
      } else if p.state == SrcDisconnectedDebounce {
      }
    } else if p.state <= SrcTransition {
      if p.state == SrcDiscovery {
      }
    } else if p.state == SrcReady {
      if PolicyDue(CountSinkCap(p)) {
      }
    }
  }

  lemma SinkId(p: Port, i: Input)
    requires Readable(i) && SinkState(p.state)
    ensures Handle(p, i).msgId == Restarted(p.msgId, HandlerZeroes(p, i))
  {
    if p.state <= SnkDiscovery {
      if p.state == SnkDisconnected {
      } else if p.state == SnkDisconnectedDebounce {
      } else if p.state == SnkHardResetRecover {
      }
    } else if p.state == SnkReady {
      var (rdo, power) := BuildRequest(p.caps, i.capIndex);
      ActReadyId(p, i, rdo, power);
    }
  }

  lemma ActReadyId(p: Port, i: Input, rdo: Word, power: Power)
    ensures ActReady(p, i, rdo, power).msgId == p.msgId
  {}

  lemma SharedId(p: Port, i: Input)
    requires Readable(i) && !SourceState(p.state) && !SinkState(p.state)
    ensures Handle(p, i).msgId == Restarted(p.msgId, HandlerZeroes(p, i))
  {}

  lemma HandleId(p: Port, i: Input)
    requires Readable(i)
    ensures Handle(p, i).msgId == Restarted(p.msgId, HandlerZeroes(p, i))
  {
    if SourceState(p.state) {
      SourceId(p, i);
    } else if SinkState(p.state) {
      SinkId(p, i);
    } else {
      SharedId(p, i);
    }
  }

  lemma BeforeMessageId(p: Port, i: Input)
    ensures BeforeMessage(p, i).msgId == Restarted(p.msgId, !i.boardOk)
  {}

  lemma TailKeepsId(p: Port, i: Input)
    ensures DetachPhase(TimerPhase(p, i.clock.end), i).msgId == p.msgId
  {}

  /** A pass keeps the counter, or zeroes it: on a failed board check, one of the three
      messages, or one of the five handlers, and on nothing else. */
  lemma PassId(p: Port, i: Input)
    requires Readable(i)
    ensures Pass(p, i).msgId == Restarted(p.msgId, Zeroes(p, Poll(i)))
  {
    BeforeMessageId(p, i);
    MessageId(BeforeMessage(p, i), i);
    var q := BeforeHandler(p, i);
    HandleId(q, i);
    TailKeepsId(HandlerPhase(q, i), i);
  }

  /** The number of success notifications since the counter was last zeroed, given that
      there were `n` before the run. */
  ghost function Successes(p: Port, run: seq<Event>, n: nat): nat
    requires Valid(p, run)
    decreases |run|
  {
    if run == [] then n
    else
      var m := if run[0] == TxDone(TxSuccess) then n + 1 else if Zeroes(p, run[0]) then 0 else n;
      Successes(After(p, run[0]), run[1..], m)
  }

  lemma NextMod(n: nat)
    ensures (n % 8 + 1) % 8 == (n + 1) % 8
  {}

  lemma {:induction false} IdCountsSuccesses(p: Port, run: seq<Event>, n: nat)
    requires Valid(p, run) && p.msgId == n % 8
    ensures End(p, run).msgId == Successes(p, run, n) % 8
    decreases |run|
  {
    if run != [] {
      var e := run[0];
      var m := if e == TxDone(TxSuccess) then n + 1 else if Zeroes(p, e) then 0 else n;
      EventId(p, e);
      NextMod(n);
      IdCountsSuccesses(After(p, e), run[1..], m);
    }
  }

  /** The counter after any event. */
  lemma EventId(p: Port, e: Event)
    requires Legible(e)
    ensures After(p, e).msgId ==
            if e == TxDone(TxSuccess) then (p.msgId + 1) % 8 else Restarted(p.msgId, Zeroes(p, e))
  {
    if e.Poll? {
      PassId(p, e.i);
    } else if e.TxDone? || e.HardResetReceived? {
      AlertId(p, e);
    } else {
      CallKeepsId(p, e);
    }
  }

  lemma AlertId(p: Port, e: Event)
    requires e.TxDone? || e.HardResetReceived?
    ensures After(p, e).msgId ==
            if e == TxDone(TxSuccess) then (p.msgId + 1) % 8 else Restarted(p.msgId, e.HardResetReceived?)
  {}

  lemma CallKeepsId(p: Port, e: Event)
    requires Legible(e) && !e.Poll? && !e.TxDone? && !e.HardResetReceived?
    ensures After(p, e).msgId == p.msgId
  {}

  /** Over all runs from the initial state. */
  lemma MessageIdIsCount(start: Port, run: seq<Event>)
    requires Initial(start) && Valid(start, run)
    ensures End(start, run).msgId == Successes(start, run, 0) % 8
  {
    IdCountsSuccesses(start, run, 0);
  }

  // ---- The headers ----

  /** Every message in the list carries `id` or 0. */
  predicate Numbered(f: Frames, id: MsgId) {
    f.Add? ==> (f.latest.Sop? ==> f.latest.packet.id == id || f.latest.packet.id == 0) && Numbered(f.earlier, id)
  }

  predicate Numbering(p: Port, id: MsgId) { (p.msgId == id || p.msgId == 0) && Numbered(p.sent, id) }

  lemma SendBuiltNumbers(p: Port, always: bool, rdo: Word, power: Power, id: MsgId)
    requires Numbering(p, id)
    ensures Numbering(SendBuilt(p, always, rdo, power).0, id)
  {}

  lemma AnswerNumbers(p: Port, first: Word, caps: CapTable, limit: Power, rdo: Word, power: Power, id: MsgId)
    requires Numbering(p, id)
    ensures Numbering(AnswerWith(p, first, caps, limit, rdo, power), id)
  {
    var q := UpdatePdoFlags(p.(flags := p.flags.(previousPdConn := true)), first);
    SendBuiltNumbers(SetLimit(q.(caps := caps), limit), true, rdo, power, id);
  }

  lemma SourceCapNumbers(p: Port, objects: Objects, index: nat, id: MsgId)
    requires |objects| > 0 && index < MAX_OBJECTS && Numbering(p, id)
    ensures Numbering(OnSourceCap(p, objects, index), id)
  {
    if p.state == SnkDiscovery || p.state == SnkTransition || p.state == SnkReady {
      var caps, limit, rdo, power := AnswerShape(p, objects, index);
      AnswerNumbers(p, objects[0], caps, limit, rdo, power, id);
    }
  }

  lemma PrSwapNumbers(p: Port, allowed: bool, id: MsgId)
    requires Numbering(p, id)
    ensures Numbering(OnPrSwap(p, allowed), id)
  {}

  lemma DrSwapNumbers(p: Port, allowed: bool, id: MsgId)
    requires Numbering(p, id)
    ensures Numbering(OnDrSwap(p, allowed), id)
  {
    if allowed {
    }
  }

  lemma SwapNumbers(p: Port, allowed: bool, id: MsgId)
    requires Numbering(p, id)
    ensures Numbering(OnPrSwap(p, allowed), id) && Numbering(OnDrSwap(p, allowed), id)
  {
    PrSwapNumbers(p, allowed, id);
    DrSwapNumbers(p, allowed, id);
  }

  lemma CapNumbers(p: Port, id: MsgId)
    requires Numbering(p, id)
    ensures Numbering(OnGetSourceCap(p), id) && Numbering(SendSinkCap(p), id)
  {}

  lemma DataNumbers(p: Port, kind: nat, objects: Objects, i: Input, id: MsgId)
    requires |objects| > 0 && Readable(i) && Numbering(p, id)
    ensures Numbering(HandleData(p, kind, objects, i), id)
  {
    if kind == SOURCE_CAP {
      SourceCapNumbers(p, objects, i.capIndex, id);
    } else if kind == REQUEST {
    } else if kind == BIST {
    } else if kind == SINK_CAP {
    }
  }

  lemma ControlNumbers(p: Port, kind: nat, i: Input, id: MsgId)
    requires Numbering(p, id)
    ensures Numbering(HandleControl(p, kind, i), id)
  {
    if kind == GET_SOURCE_CAP || kind == GET_SINK_CAP {
      CapNumbers(p, id);
    } else if kind == PS_RDY {
    } else if kind == REJECT || kind == WAIT {
    } else if kind == ACCEPT {
    } else if kind == SOFT_RESET {
    } else if kind == PR_SWAP {
      SwapNumbers(p, i.allowPowerSwap, id);
    } else if kind == DR_SWAP {
      SwapNumbers(p, i.allowDataSwap, id);
    }
  }

  lemma SourceAttachNumbers(p: Port, i: Input, id: MsgId)
    requires Numbering(p, id)
    ensures Numbering(RunSourceAttach(p, i), id)
  {
    if p.state == SrcDisconnected {
    } else if p.state == SrcDisconnectedDebounce {
    }
  }

  lemma SourceContractNumbers(p: Port, i: Input, id: MsgId)
    requires Numbering(p, id)
    ensures Numbering(RunSourceContract(p, i), id)
  {
    if p.state == SrcDiscovery {
    }
  }

  lemma SrcReadyNumbers(p: Port, i: Input, id: MsgId)
    requires Numbering(p, id)
    ensures Numbering(RunSrcReady(p, i), id)
  {
    if !p.vdm.state.VdmBusy? && !p.flags.updateSrcCaps {
      if PolicyDue(CountSinkCap(p)) {
      }
    }
  }

  lemma SourceReadyNumbers(p: Port, i: Input, id: MsgId)
    requires Numbering(p, id)
    ensures Numbering(RunSourceReady(p, i), id)
  {
    if p.state == SrcReady {
      SrcReadyNumbers(p, i, id);
    }
  }

  lemma SinkAttachNumbers(p: Port, i: Input, id: MsgId)
    requires Numbering(p, id)
    ensures Numbering(RunSinkAttach(p, i), id)
  {
    if p.state == SnkDisconnected {
    } else if p.state == SnkDisconnectedDebounce {
    } else if p.state == SnkHardResetRecover {
    }
  }

  lemma ActReadyNumbers(p: Port, i: Input, rdo: Word, power: Power, id: MsgId)
    requires Numbering(p, id)
    ensures Numbering(ActReady(p, i, rdo, power), id)
  {
    if !p.vdm.state.VdmBusy? && p.request.pending {
      SendBuiltNumbers(p, false, rdo, power, id);
    }
  }

  lemma SnkReadyNumbers(p: Port, i: Input, id: MsgId)
    requires Readable(i) && Numbering(p, id)
    ensures Numbering(RunSnkReady(p, i), id)
  {
    var (rdo, power) := BuildRequest(p.caps, i.capIndex);
    ActReadyNumbers(p, i, rdo, power, id);
  }

  lemma SinkContractNumbers(p: Port, i: Input, id: MsgId)
    requires Readable(i) && Numbering(p, id)
    ensures Numbering(RunSinkContract(p, i), id)
  {
    if p.state == SnkReady {
      SnkReadyNumbers(p, i, id);
    } else if p.state == SnkRequested {
    } else if p.state == SnkTransition {
    } else if p.state == SnkSwapInit {
    }
  }

  lemma SharedNumbers(p: Port, i: Input, id: MsgId)
    requires Numbering(p, id)
    ensures Numbering(RunShared(p, i), id)
  {}

  lemma VdmNumbers(p: Port, t: nat, id: MsgId)
    requires Numbering(p, id)
    ensures Numbering(VdmPhase(p, t), id)
  {}

  lemma BoardNumbers(p: Port, ok: bool, t: nat, id: MsgId)
    requires Numbering(p, id)
    ensures Numbering(BoardPhase(p, ok, t), id)
  {}

  lemma BeforeMessageNumbers(p: Port, i: Input)
    ensures Numbering(BeforeMessage(p, i), p.msgId)
  {
    var q := ButtonPhase(p.(sent := NoFrames), i.reset);
    VdmNumbers(q, i.clock.vdm, p.msgId);
    BoardNumbers(VdmPhase(q, i.clock.vdm), i.boardOk, i.clock.board, p.msgId);
  }

  lemma HandleNumbers(p: Port, i: Input, id: MsgId)
    requires Readable(i) && Numbering(p, id)
    ensures Numbering(Handle(p, i), id)
  {
    if SrcDisconnected <= p.state <= SrcStartup {
      SourceAttachNumbers(p, i, id);
    } else if SrcDiscovery <= p.state <= SrcTransition {
      SourceContractNumbers(p, i, id);
    } else if SourceState(p.state) {
      SourceReadyNumbers(p, i, id);
    } else if SnkDisconnected <= p.state <= SnkDiscovery {
      SinkAttachNumbers(p, i, id);
    } else if SinkState(p.state) {
      SinkContractNumbers(p, i, id);
    } else {
      SharedNumbers(p, i, id);
    }
  }

  lemma MessageNumbers(p: Port, i: Input, id: MsgId)
    requires Readable(i) && Numbering(p, id)
    ensures Numbering(MessagePhase(p, i), id)
  {
    if i.msg.Some? && Connected(p) {
      var m := i.msg.value;
      if HeaderCnt(m.header) > 0 {
        DataNumbers(p, HeaderKind(m.header), m.data, i, id);
      } else {
        ControlNumbers(p, HeaderKind(m.header), i, id);
      }
    }
  }

  lemma TailKeepsSent(p: Port, i: Input)
    ensures DetachPhase(TimerPhase(p, i.clock.end), i).sent == p.sent
  {}

  /** Everything a pass sends carries the counter as the pass found it, or 0 after it was
      zeroed; a Soft_Reset, by its type, carries 0. */
  lemma PassNumbers(p: Port, i: Input)
    requires Readable(i)
    ensures Numbered(Pass(p, i).sent, p.msgId)
  {
    BeforeMessageNumbers(p, i);
    MessageNumbers(BeforeMessage(p, i), i, p.msgId);
    var q := BeforeHandler(p, i);
    HandleNumbers(q, i, p.msgId);
    var r := HandlerPhase(q, i);
    TailKeepsSent(r, i);
  }

  /** What goes on the wire says what the port meant: the header word decodes to the
      fields it was built from. */
  lemma HeaderDecodes(k: Packet)
    ensures var m := k.Encode();
            && m.Valid() && m.data == k.data && HeaderCnt(m.header) == |k.data|
            && HeaderKind(m.header) == k.kind && HeaderId(m.header) == k.id && HeaderRev(m.header) == REV20
            && HeaderRoleBit(m.header) == RoleBit(k.role) && HeaderDataRoleBit(m.header) == DataRoleBit(k.dataRole)
            && (k.kind == SOFT_RESET ==> HeaderId(m.header) == 0)
  {}
}
