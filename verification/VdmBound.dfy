/** Vendor-defined messages: an exchange in progress, which keeps a ready port from all other
    traffic, ends by itself within half a second. */
module VdmBound {
  import opened PdWords
  import opened PowerPolicy
  import opened PortState
  import opened PortMachine
  import opened PortRuns

  /** An exchange waits for an answer, or for its next attempt, no longer than the time its
      header allows. */
  predicate Due(v: Vdm, now: nat) {
    && (v.state.VdmBusy? ==> 0 < v.timeout <= now + T_UNSTRUCTURED_VDM)
    && (v.state.VdmWaitRspBusy? ==> v.timeout <= now + T_VDM_BUSY)
  }

  lemma SendingIsDue(p: Port, t: nat, now: nat)
    requires Due(p.vdm, now) && t <= now
    ensures Due(VdmPhase(p, t).vdm, now)
  {}

  lemma AnswerIsDue(p: Port, w: Word, t: nat, now: nat)
    requires Due(p.vdm, now) && t <= now
    ensures Due(HandleVdm(p, w, t).vdm, now)
  {}

  // ---- What is sent, and what becomes of the answer ----

  /** The header word that pd_send_vdm builds gives back vendor, structure bit and command. */
  lemma VdmHeaderFields(vid: nat, cmd: nat)
    ensures var w := VdmHeader(vid, cmd);
            && w / 0x1_0000 == vid % 0x1_0000 && w % 0x8000 == cmd % 0x8000 && VdoCommand(w) == VdoCommand(cmd)
            && (VdoStructured(w) <==> vid / 0x100 % 0x100 == 0xFF || VdoCommand(cmd) <= CMD_ATTENTION)
  {
    var w, low := VdmHeader(vid, cmd), cmd % 0x8000;
    var s := if vid / 0x100 % 0x100 == 0xFF || VdoCommand(cmd) <= CMD_ATTENTION then 1 else 0;
    assert w == vid % 0x1_0000 * 0x1_0000 + s * 0x8000 + low;
    assert w / 0x8000 == vid % 0x1_0000 * 2 + s;
    assert w == 0x20 * (vid % 0x1_0000 * 0x800 + s * 0x400 + low / 0x20) + low % 0x20;
    assert low % 0x20 == cmd % 0x20;
  }

  /** The next pass of a ready, connected port sends a queued message, header first, and
      waits for its answer, unless the last transmission failed; more than six objects are
      never sent. */
  lemma QueuedIsSent(p: Port, vid: nat, cmd: nat, data: seq<Word>, t: nat)
    requires (p.state == SrcReady || p.state == SnkReady) && Connected(p)
    ensures var q := VdmPhase(SendVdm(p, vid, cmd, data), t);
            if |data| > 6 then q == VdmPhase(p, t)
            else
              && q.sent.Add? && q.sent.earlier == p.sent && q.sent.latest.Sop?
              && q.sent.latest.packet.IsData(VENDOR_DEF)
              && q.sent.latest.packet.data == [VdmHeader(vid, cmd)] + data
              && (q.vdm.state.VdmBusy? <==> TxOk(p)) && (q.vdm.state.VdmErrSend? <==> !TxOk(p))
  {}

  /** How long the standard lets an exchange wait: an initiator 30 ms, or 100 ms for a mode,
      a responder 15 ms, or 25 ms for a mode; half a second without a structure. */
  lemma ExchangeWaits(p: Port, t: nat)
    requires p.vdm.state.VdmReady? && (p.state == SrcReady || p.state == SnkReady) && Connected(p) && TxOk(p)
    ensures var q, w := VdmPhase(p, t), p.vdm.data[0];
            var modal := w % 0x20 == CMD_ENTER_MODE || w % 0x20 == CMD_EXIT_MODE;
            && q.vdm.state.VdmBusy?
            && (w / 0x8000 % 2 == 0 ==> q.vdm.timeout == t + 500_000)
            && (w / 0x8000 % 2 == 1 && w / 0x40 % 4 == 0 ==> q.vdm.timeout == t + if modal then 100_000 else 30_000)
            && (w / 0x8000 % 2 == 1 && w / 0x40 % 4 != 0 ==> q.vdm.timeout == t + if modal then 25_000 else 15_000)
  {}

  /** A queued message waits for a ready state, and is given up while the port is not
      connected. */
  lemma QueuedWaits(p: Port, t: nat)
    requires p.vdm.state.VdmReady? && p.state != SrcReady && p.state != SnkReady
    ensures var q := VdmPhase(p, t);
            q.sent == p.sent && if Connected(p) then q == p else q.vdm.state.VdmErrBusy?
  {}

  lemma HeaderParts(a: nat, k: nat, b: nat)
    requires k < 4 && b < 0x40
    ensures var w := a * 0x100 + k * 0x40 + b;
            w / 0x100 == a && w / 0x40 % 4 == k && w % 0x20 == b % 0x20
  {
    var w := a * 0x100 + k * 0x40 + b;
    assert w / 0x40 == 4 * a + k;
    assert w == 0x20 * (8 * a + 2 * k + b / 0x20) + b % 0x20;
  }

  /** A retry is the answered command as its initiator sends it. */
  lemma RetryHeader(w: Word)
    ensures var r := w - VdoCommandType(w) * 0x40;
            && 0 <= r && VdoCommandType(r) == 0 && VdoCommand(r) == VdoCommand(w) && r / 0x100 == w / 0x100
  {
    var a, k, b := w / 0x100, VdoCommandType(w), w % 0x40;
    assert w / 0x40 == 4 * a + k;
    assert w == a * 0x100 + k * 0x40 + b;
    HeaderParts(a, k, b);
    HeaderParts(a, 0, b);
  }

  /** The partner's "busy" leads to one retry of the same command, as initiator, in the
      first pass more than 100 ms later; any other answer ends the exchange for good. */
  lemma BusyIsRetried(p: Port, w: Word, t: nat, later: nat)
    requires p.vdm.state.VdmBusy?
    ensures var q := HandleVdm(p, w, t);
            var r := VdmPhase(q, later);
            if VdoCommandType(w) != 3 then q.vdm.state.VdmDone? && r == q
            else if later <= t + T_VDM_BUSY then q.vdm.state.VdmWaitRspBusy? && r == q
            else
              && r.vdm.state.VdmReady? && |r.vdm.data| == 1
              && VdoCommandType(r.vdm.data[0]) == 0 && VdoCommand(r.vdm.data[0]) == VdoCommand(w)
              && r.vdm.data[0] / 0x100 == w / 0x100
  {
    RetryHeader(w);
  }

  // ---- Deadlines ----

  lemma AnswerKeepsVdm(p: Port, first: Word, caps: CapTable, limit: Power, rdo: Word, power: Power)
    ensures AnswerWith(p, first, caps, limit, rdo, power).vdm == p.vdm
  {}

  lemma DataIsDue(p: Port, kind: nat, objects: Objects, i: Input, now: nat)
    requires |objects| > 0 && Readable(i) && Due(p.vdm, now) && i.clock.msg <= now
    ensures Due(HandleData(p, kind, objects, i).vdm, now)
  {
    if kind == SOURCE_CAP {
      if p.state == SnkDiscovery || p.state == SnkTransition || p.state == SnkReady {
        var caps, limit, rdo, power := AnswerShape(p, objects, i.capIndex);
        AnswerKeepsVdm(p, objects[0], caps, limit, rdo, power);
      }
    } else if kind == REQUEST {
    } else if kind == BIST {
    } else if kind == SINK_CAP {
    } else if kind == VENDOR_DEF {
      AnswerIsDue(p, objects[0], i.clock.msg, now);
    }
  }

  lemma ControlKeepsVdm(p: Port, kind: nat, i: Input)
    ensures HandleControl(p, kind, i).vdm == p.vdm
  {
    if kind == GET_SOURCE_CAP {
    } else if kind == PS_RDY {
    } else if kind == REJECT || kind == WAIT {
    } else if kind == ACCEPT {
    } else if kind == SOFT_RESET {
    } else if kind == PR_SWAP {
    } else if kind == DR_SWAP {
    }
  }

  lemma MessageIsDue(p: Port, i: Input, now: nat)
    requires Readable(i) && Due(p.vdm, now) && i.clock.msg <= now
    ensures Due(MessagePhase(p, i).vdm, now)
  {
    if i.msg.Some? && Connected(p) {
      var m := i.msg.value;
      if HeaderCnt(m.header) > 0 {
        DataIsDue(p, HeaderKind(m.header), m.data, i, now);
      } else {
        ControlKeepsVdm(p, HeaderKind(m.header), i);
      }
    }
  }

  lemma SourceKeepsVdm(p: Port, i: Input)
    requires p.state != SrcReady
    ensures RunSourceAttach(p, i).vdm == p.vdm
    ensures RunSourceContract(p, i).vdm == p.vdm
    ensures RunSourceReady(p, i).vdm == p.vdm
  {
    if p.state == SrcDisconnectedDebounce {
    } else if p.state == SrcDiscovery {
    }
  }

  lemma SinkKeepsVdm(p: Port, i: Input)
    requires p.state != SnkReady && Readable(i)
    ensures RunSinkAttach(p, i).vdm == p.vdm
    ensures RunSinkContract(p, i).vdm == p.vdm
  {
    if p.state == SnkDisconnectedDebounce {
    } else if p.state == SnkHardResetRecover {
    }
  }

  lemma SharedKeepsVdm(p: Port, i: Input)
    ensures RunShared(p, i).vdm == p.vdm
  {}

  lemma ActReadyMayQueue(p: Port, i: Input, rdo: Word, power: Power)
    ensures var q := ActReady(p, i, rdo, power);
            q.vdm == p.vdm || (q.vdm.state.VdmReady? && !p.vdm.state.VdmBusy?)
  {}

  /** A ready port may queue a message; nothing else touches the exchange. */
  lemma ReadyMayQueue(p: Port, i: Input)
    requires p.state == SrcReady || (p.state == SnkReady && Readable(i))
    ensures var q := if p.state == SrcReady then RunSrcReady(p, i) else RunSnkReady(p, i);
            q.vdm == p.vdm || (q.vdm.state.VdmReady? && !p.vdm.state.VdmBusy?)
  {
    if p.state == SrcReady {
      if !p.vdm.state.VdmBusy? && !p.flags.updateSrcCaps && PolicyDue(CountSinkCap(p)) {
      }
    } else {
      var (rdo, power) := BuildRequest(p.caps, i.capIndex);
      ActReadyMayQueue(p, i, rdo, power);
    }
  }

  lemma HandleIsDue(p: Port, i: Input, now: nat)
    requires Readable(i) && Due(p.vdm, now)
    ensures Due(Handle(p, i).vdm, now)
  {
    if p.state == SrcReady || p.state == SnkReady {
      ReadyMayQueue(p, i);
    } else if SourceState(p.state) {
      SourceKeepsVdm(p, i);
    } else if SinkState(p.state) {
      SinkKeepsVdm(p, i);
    } else {
      SharedKeepsVdm(p, i);
    }
  }

  lemma BoardKeepsVdm(p: Port, ok: bool, t: nat)
    ensures BoardPhase(p, ok, t).vdm == p.vdm
  {}

  lemma TailKeepsVdm(p: Port, i: Input)
    ensures var q := DetachPhase(TimerPhase(p, i.clock.end), i);
            q.vdm == p.vdm && q.history.now == i.clock.end
  {}

  lemma PassIsDue(p: Port, i: Input)
    requires Readable(i) && Timely(p.history.now, i.clock) && Due(p.vdm, p.history.now)
    ensures Due(Pass(p, i).vdm, Pass(p, i).history.now)
  {
    var now := i.clock.end;
    var q := ButtonPhase(p.(sent := NoFrames), i.reset);
    SendingIsDue(q, i.clock.vdm, now);
    BoardKeepsVdm(VdmPhase(q, i.clock.vdm), i.boardOk, i.clock.board);
    MessageIsDue(BeforeMessage(p, i), i, now);
    HandleIsDue(BeforeHandler(p, i), i, now);
    TailKeepsVdm(HandlerPhase(BeforeHandler(p, i), i), i);
  }

  lemma CallIsDue(p: Port, e: Event)
    requires Legible(e) && InTime(p, e) && !e.Poll? && Due(p.vdm, p.history.now)
    ensures Due(After(p, e).vdm, After(p, e).history.now)
  {}

  lemma {:induction false} RunIsDue(p: Port, run: seq<Event>)
    requires Valid(p, run) && Due(p.vdm, p.history.now)
    ensures Due(End(p, run).vdm, End(p, run).history.now)
    decreases |run|
  {
    if run != [] {
      if run[0].Poll? {
        PassIsDue(p, run[0].i);
      } else {
        CallIsDue(p, run[0]);
      }
      RunIsDue(After(p, run[0]), run[1..]);
    }
  }

  /** In every run: a pass that starts more than half a second after the last one finds no
      exchange waiting for an answer, unless it has just sent the message itself. */
  lemma ExchangesEnd(start: Port, run: seq<Event>, i: Input)
    requires Initial(start) && Valid(start, run) && Readable(i)
    requires i.clock.vdm > End(start, run).history.now + T_UNSTRUCTURED_VDM
    ensures var p := End(start, run);
            var q := VdmPhase(ButtonPhase(p.(sent := NoFrames), i.reset), i.clock.vdm);
            q.vdm.state.VdmBusy? ==> p.vdm.state.VdmReady?
  {
    RunIsDue(start, run);
  }
}
