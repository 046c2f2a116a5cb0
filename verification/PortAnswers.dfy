/** What a port says and does in answer to each message, in terms of the packed words and of
    the messages on the wire: a reference for handle_request that does not follow its code. */
module PortAnswers {
  import opened PdWords
  import opened PowerPolicy
  import opened PortState
  import opened PortMachine
  import opened PortRuns
  import opened PortPower

  // ---- What is sent ----

  /** One message has been sent, with the port's own roles and counter. */
  predicate Says(p: Port, q: Port, kind: nat, data: seq<Word>) {
    && q.sent.Add? && q.sent.earlier == p.sent && q.sent.latest.Sop?
    && var k := q.sent.latest.packet;
       k.kind == kind && k.data == data && k.role == p.role && k.dataRole == p.dataRole && k.id == p.msgId
  }

  /** Nothing but what was sent has changed. */
  predicate OnlySays(p: Port, q: Port, kind: nat, data: seq<Word>) {
    Says(p, q, kind, data) && q == p.(sent := q.sent)
  }

  /** A connected port receives the control message. */
  predicate Hears(p: Port, i: Input, kind: nat) {
    Readable(i) && i.msg.Some? && Connected(p) && i.msg.value.IsControl(kind)
  }

  predicate HearsData(p: Port, i: Input, kind: nat) {
    Readable(i) && i.msg.Some? && Connected(p) && i.msg.value.IsData(kind)
  }

  /** The same outputs, but acknowledging with the given roles. */
  function Heading(p: Port, role: Role, dataRole: DataRole): Outputs {
    p.outputs.(headRole := role, headDataRole := dataRole)
  }

  // ---- Swaps and resets ----

  /** An allowed PR_Swap is accepted and entered, any other is rejected without effect. */
  lemma PrSwapIsAnswered(p: Port, i: Input)
    requires Hears(p, i, PR_SWAP)
    ensures var q := MessagePhase(p, i);
            if i.allowPowerSwap then
              && Says(p, q, ACCEPT, [])
              && q == p.(sent := q.sent, timer := NO_TIMER, flags := p.flags.(checkPrRole := false),
                         state := if p.role.Sink? then SnkSwapSnkDisable else SrcSwapSnkDisable)
            else OnlySays(p, q, REJECT, [])
  {}

  /** An allowed DR_Swap is accepted, and the data role changes exactly if the Accept counts
      as delivered; any other is rejected without effect. */
  lemma DrSwapIsAnswered(p: Port, i: Input)
    requires Hears(p, i, DR_SWAP)
    ensures var q := MessagePhase(p, i);
            if i.allowDataSwap then
              && Says(p, q, ACCEPT, [])
              && (q.dataRole != p.dataRole <==> p.tx.TxSuccess?)
              && (p.tx.TxSuccess? ==> q.outputs == Heading(p, p.role, q.dataRole))
              && (!p.tx.TxSuccess? ==> q.outputs == p.outputs)
              && q == p.(sent := q.sent, dataRole := q.dataRole, outputs := q.outputs,
                         flags := p.flags.(checkDrRole := false,
                                           checkIdentity := p.flags.checkIdentity || p.tx.TxSuccess?))
            else OnlySays(p, q, REJECT, [])
  {}

  lemma VconnSwapIsRejected(p: Port, i: Input)
    requires Hears(p, i, VCONN_SWAP)
    ensures OnlySays(p, MessagePhase(p, i), REJECT, [])
  {}

  /** Soft_Reset: discovery of the role, no timer, and an Accept with message ID 0. */
  lemma SoftResetIsAnswered(p: Port, i: Input)
    requires Hears(p, i, SOFT_RESET)
    ensures var q := MessagePhase(p, i);
            && Says(p.(msgId := 0), q, ACCEPT, [])
            && q == p.(sent := q.sent, timer := NO_TIMER, msgId := 0,
                       state := if p.role.Sink? then SnkDiscovery else SrcDiscovery)
  {}

  // ---- Questions ----

  /** Get_Source_Cap is answered with all objects, or with Reject if there are none; a source
      that was about to offer then waits for the request, if the answer counts as
      delivered. */
  lemma GetSourceCapIsAnswered(p: Port, i: Input)
    requires Hears(p, i, GET_SOURCE_CAP)
    ensures var q := MessagePhase(p, i);
            && Says(p, q, if p.srcPdos == [] then REJECT else SOURCE_CAP, p.srcPdos)
            && if p.state == SrcDiscovery && p.tx.TxSuccess? then
                 q == p.(sent := q.sent, timer := NO_TIMER, state := SrcNegociate)
               else q == p.(sent := q.sent)
  {}

  lemma GetSinkCapIsAnswered(p: Port, i: Input)
    requires Hears(p, i, GET_SINK_CAP)
    ensures OnlySays(p, MessagePhase(p, i), SINK_CAP, p.snkPdos)
  {}

  // ---- Answers to the port's own messages ----

  /** Accept moves exactly the five states that wait for one, and is never answered. */
  lemma AcceptIsFollowed(p: Port, i: Input)
    requires Hears(p, i, ACCEPT)
    ensures var q := MessagePhase(p, i);
            && q.sent == p.sent && (q != p ==> q.timer == NO_TIMER)
            && (q != p <==> p.state in {SoftReset, DrSwap, SrcSwapInit, SnkSwapInit, SnkRequested})
            && (p.state == SnkRequested ==> q.state == SnkTransition && q.flags.explicitContract)
            && (p.state == SrcSwapInit ==> q.state == SrcSwapSnkDisable && !q.flags.explicitContract)
            && (p.state == SnkSwapInit ==> q.state == SnkSwapSnkDisable && !q.flags.explicitContract)
            && (p.state == DrSwap ==> q.dataRole != p.dataRole && q.flags.checkIdentity)
            && (p.state == DrSwap ==> q.state == if p.role.Sink? then SnkReady else SrcReady)
            && (p.state == SoftReset ==>
                  q.msgId == 0 && q.state == if p.role.Sink? then SnkDiscovery else SrcDiscovery)
            && (p.state != DrSwap ==> q.dataRole == p.dataRole)
            && q.role == p.role
            && q.outputs == if p.state == DrSwap then Heading(p, p.role, q.dataRole) else p.outputs
  {}

  /** PS_RDY moves a swap on, makes a sink ready at the limit it asked for, and is a protocol
      error in SnkDiscovery; a source outside the swap ignores it. */
  lemma PsRdyIsFollowed(p: Port, i: Input)
    requires Hears(p, i, PS_RDY)
    ensures var q := MessagePhase(p, i);
            && q.sent == p.sent && (q != p ==> q.timer == NO_TIMER)
            && (p.state == SnkSwapSrcDisable ==> q == p.(state := SnkSwapStandby, timer := NO_TIMER))
            && (p.state == SrcSwapStandby ==>
                  q == p.(state := SnkDiscovery, timer := NO_TIMER, role := Sink, msgId := 0,
                          outputs := Heading(p, Sink, p.dataRole)))
            && (p.state == SnkDiscovery ==> q == p.(state := HardResetSend, timer := NO_TIMER))
            && (p.state == SnkSwapStandby ==> q == p)
            && (p.state !in {SnkSwapSrcDisable, SrcSwapStandby, SnkDiscovery, SnkSwapStandby} ==>
                  q == if p.role.Source? then p
                       else p.(state := SnkReady, timer := NO_TIMER,
                               outputs := p.outputs.(limit := p.request.limit)))
  {}

  /** Reject and Wait alike end a swap in the ready state of the role, and send a request
      without a contract back to discovery. */
  lemma RefusalEndsAttempt(p: Port, i: Input, kind: nat)
    requires (kind == REJECT || kind == WAIT) && Hears(p, i, kind)
    requires p.state == SnkRequested ==> !p.flags.explicitContract
    ensures var q := MessagePhase(p, i);
            q == if p.state == DrSwap then p.(timer := NO_TIMER, state := if p.role.Sink? then SnkReady else SrcReady)
                 else if p.state == SrcSwapInit then p.(timer := NO_TIMER, state := SrcReady)
                 else if p.state == SnkSwapInit then p.(timer := NO_TIMER, state := SnkReady)
                 else if p.state == SnkRequested then p.(timer := NO_TIMER, state := SnkDiscovery)
                 else p
  {}

  /** Under a contract a rejected request is given up. */
  lemma RejectKeepsContract(p: Port, i: Input)
    requires Hears(p, i, REJECT) && p.state == SnkRequested && p.flags.explicitContract
    ensures MessagePhase(p, i) == p.(timer := NO_TIMER, state := SnkReady)
  {}

  /** Under a contract Wait schedules a return to SnkReady in 100 ms, where any request for
      a voltage is then sent again, even for the voltage last asked for. */
  lemma WaitIsRetried(p: Port, i: Input, later: Input, rdo: Word, power: Power)
    requires Hears(p, i, WAIT) && p.state == SnkRequested && p.flags.explicitContract
    requires power.mv > 0 && !p.vdm.state.VdmBusy?
    ensures var q := MessagePhase(p, i);
            && q == p.(request := q.request, timer := Timer(i.clock.msg + 100_000, SnkReady))
            && Says(q, ActReady(q.(state := SnkReady), later, rdo, power), REQUEST, [rdo])
  {}

  /** The control messages that have an effect or an answer. */
  const CONTROLS: set<nat> :=
    {ACCEPT, REJECT, PS_RDY, GET_SOURCE_CAP, GET_SINK_CAP, DR_SWAP, PR_SWAP, VCONN_SWAP, WAIT, SOFT_RESET}

  lemma OtherControlsAreIgnored(p: Port, i: Input, kind: nat)
    requires Hears(p, i, kind) && kind !in CONTROLS
    ensures MessagePhase(p, i) == p
  {}

  // ---- Requests ----

  /** Whether the request word asks for no more than the object with its position offers, or
      says so itself: position in bits 28 to 30, operating current in bits 10 to 19, maximum
      in bits 0 to 9 against the offered current in bits 0 to 9, mismatch in bit 26. */
  predicate Acceptable(rdo: Word, pdos: Objects) {
    var pos := rdo / 0x1000_0000 % 8;
    && pos != 0 && pos <= |pdos|
    && rdo / 0x400 % 0x400 <= pdos[pos - 1] % 0x400
    && (rdo % 0x400 > pdos[pos - 1] % 0x400 ==> rdo / 0x400_0000 % 2 == 1)
  }

  /** A source accepts exactly the acceptable requests, and takes note of position and
      contract once the Accept counts as delivered; all else is rejected. */
  lemma RequestIsJudged(p: Port, i: Input)
    requires HearsData(p, i, REQUEST)
    ensures var q := MessagePhase(p, i);
            var data := i.msg.value.data;
            if p.role.Source? && |data| == 1 && Acceptable(data[0], p.srcPdos) then
              && Says(p, q, ACCEPT, [])
              && if p.tx.TxSuccess? then
                   && q.state == SrcAccepted && q.requestedIdx == data[0] / 0x1000_0000 % 8
                   && q.flags == p.flags.(explicitContract := true) && q.outputs == p.outputs
                 else q == p.(sent := q.sent)
            else
              Says(p, q, REJECT, []) && q == p.(sent := q.sent, timer := NO_TIMER, state := SrcReady)
  {}

  /** A fixed supply, as the PDO_FIXED macro is given it. */
  datatype Supply = Supply(mv: nat, ma: nat, dualRole: bool, external: bool, commCap: bool, dataSwap: bool) {
    predicate Fits() { mv / 50 < 0x400 && ma / 10 < 0x400 }

    function Pdo(): Word
      requires Fits()
    {
      PdoFixed(mv, ma, dualRole, external, commCap, dataSwap)
    }
  }

  predicate Packs(pdos: Objects, supplies: seq<Supply>) {
    && |supplies| == |pdos|
    && forall k :: 0 <= k < |pdos| ==> supplies[k].Fits() && pdos[k] == supplies[k].Pdo()
  }

  /** The condition on the macros' arguments. */
  predicate Covers(supplies: seq<Supply>, n: nat, op: nat, max: nat, mismatch: bool) {
    1 <= n <= |supplies| && op / 10 <= supplies[n - 1].ma / 10 && (max / 10 <= supplies[n - 1].ma / 10 || mismatch)
  }

  lemma PackedIsAcceptable(pdos: Objects, supplies: seq<Supply>, n: nat, op: nat, max: nat, mismatch: bool)
    requires Packs(pdos, supplies) && n < 8 && op / 10 < 0x400 && max / 10 < 0x400
    ensures Acceptable(RdoFixed(n, op, max, mismatch), pdos) <==> Covers(supplies, n, op, max, mismatch)
  {
    RdoFixedRoundTrip(n, op, max, mismatch);
    if 1 <= n <= |supplies| {
      var s := supplies[n - 1];
      PdoFixedRoundTrip(s.mv, s.ma, s.dualRole, s.external, s.commCap, s.dataSwap);
    }
  }

  /** The same in the terms of both parties: for supplies and requests as the macros pack
      them, a delivered Accept follows exactly if the position is offered, the operating
      current is covered in steps of 10 mA, and the maximum is covered or marked as a
      mismatch. */
  lemma PackedRequestIsJudged(p: Port, i: Input, supplies: seq<Supply>, n: nat, op: nat, max: nat, mismatch: bool)
    requires HearsData(p, i, REQUEST) && p.role.Source? && p.tx.TxSuccess? && Packs(p.srcPdos, supplies)
    requires n < 8 && op / 10 < 0x400 && max / 10 < 0x400
    requires i.msg.value.data == [RdoFixed(n, op, max, mismatch)]
    ensures var q := MessagePhase(p, i);
            if Covers(supplies, n, op, max, mismatch) then
              Says(p, q, ACCEPT, []) && q.state == SrcAccepted && q.requestedIdx == n && q.flags.explicitContract
            else
              Says(p, q, REJECT, []) && q.state == SrcReady && q.requestedIdx == p.requestedIdx
  {
    PackedIsAcceptable(p.srcPdos, supplies, n, op, max, mismatch);
    RdoFixedRoundTrip(n, op, max, mismatch);
    RequestIsJudged(p, i);
  }

  // ---- Interrupts ----

  function One(on: bool): nat { if on then 1 else 0 }

  /** Whether the last message counts as delivered after an alert: its interrupts are looked
      at in the order collision, success, retries used up, hard reset sent, and the last one
      set decides; without any the old status stays. */
  predicate CountsDelivered(n: Interrupts, before: bool) {
    || n.hardSent
    || (n.txSuccess && !n.retryFail)
    || (before && !n.collision && !n.txSuccess && !n.retryFail)
  }

  lemma NoticeIsReported(p: Port, on: bool, status: TxStatus)
    ensures Notified(p, on, status) ==
            p.(msgId := (p.msgId + One(on && status.TxSuccess?)) % 8, tx := if on then status else p.tx)
  {}

  lemma NoticesAreReported(p: Port, n: Interrupts, t: nat)
    requires !n.hardReset
    ensures var q := Alerted(p, n, t);
            && (q.tx.TxSuccess? <==> CountsDelivered(n, p.tx.TxSuccess?))
            && q.msgId == (p.msgId + One(n.txSuccess) + One(n.hardSent)) % 8
            && q == p.(msgId := q.msgId, tx := q.tx)
  {
    NoticeIsReported(p, n.collision, TxFailed);
    var a := Notified(p, n.collision, TxFailed);
    NoticeIsReported(a, n.txSuccess, TxSuccess);
    var b := Notified(a, n.txSuccess, TxSuccess);
    NoticeIsReported(b, n.retryFail, TxFailed);
    NoticeIsReported(Notified(b, n.retryFail, TxFailed), n.hardSent, TxSuccess);
  }

  lemma ResetComesLast(p: Port, n: Interrupts, t: nat)
    requires n.hardReset
    ensures Alerted(p, n, t) == ExecuteHardReset(Alerted(p, n.(hardReset := false), t), t)
  {}

  lemma ResetIsReported(p: Port, t: nat)
    ensures ExecuteHardReset(p, t).tx == p.tx && ExecuteHardReset(p, t).msgId == 0
  {}

  /** Every success moves the message counter, every failure leaves it; a received hard reset
      zeroes it. */
  lemma AlertIsReported(p: Port, n: Interrupts, t: nat)
    ensures var q := Alerted(p, n, t);
            && (q.tx.TxSuccess? <==> CountsDelivered(n, p.tx.TxSuccess?))
            && q.msgId == (if n.hardReset then 0 else (p.msgId + One(n.txSuccess) + One(n.hardSent)) % 8)
            && (!n.hardReset ==> q == p.(msgId := q.msgId, tx := q.tx))
  {
    NoticesAreReported(p, n.(hardReset := false), t);
    if n.hardReset {
      ResetComesLast(p, n, t);
      ResetIsReported(Alerted(p, n.(hardReset := false), t), t);
    } else {
      assert n.(hardReset := false) == n;
    }
  }

  // ---- The other data messages ----

  predicate Awaits(p: Port) { p.state == SnkDiscovery || p.state == SnkTransition || p.state == SnkReady }

  lemma AnswerSays(p: Port, first: Word, caps: CapTable, limit: Power, rdo: Word, power: Power)
    ensures var q := AnswerWith(p, first, caps, limit, rdo, power);
            && Says(p, q, REQUEST, [rdo]) && q.flags.previousPdConn && q.caps == caps && q.outputs.limit == limit
            && q.request == SinkRequest(power, false, power.mv)
            && (q.state == if p.tx.TxSuccess? then SnkRequested else p.state)
  {}

  /** An offer is answered, where one is awaited, with one request for the selected position,
      at the currents that PowerBound and PowerMaximal describe; that power is the limit once
      the source is ready. Elsewhere an offer is ignored. */
  lemma OfferIsAnswered(p: Port, i: Input)
    requires HearsData(p, i, SOURCE_CAP) && i.capIndex < |i.msg.value.data|
    requires !PdoIsBattery(i.msg.value.data[i.capIndex])
    ensures var q := MessagePhase(p, i);
            var power := ExtractPower(i.msg.value.data[i.capIndex]);
            if !Awaits(p) then q == p
            else
              && q.sent.Add? && q.sent.latest.Sop?
              && var k := q.sent.latest.packet;
                 && |k.data| == 1 && Says(p, q, REQUEST, k.data)
                 && RdoPos(k.data[0]) == i.capIndex + 1
                 && RdoOp(k.data[0]) == RdoMax(k.data[0]) == power.ma / 10
                 && (RdoMismatch(k.data[0]) <==> power.ma * power.mv < 2_250_000)
                 && q.request.limit == power && q.outputs.limit == power
                 && (q.state == if p.tx.TxSuccess? then SnkRequested else p.state)
  {
    if Awaits(p) {
      var objects := i.msg.value.data;
      var caps, limit, rdo, power := AnswerShape(p, objects, i.capIndex);
      assert caps[i.capIndex] == objects[i.capIndex];
      RequestFields(caps, i.capIndex);
      AnswerSays(p, objects[0], caps, limit, rdo, power);
    }
  }

  /** BIST: only carrier mode 2, and only in the ready state of the role, is obeyed: the
      carrier goes out and the port detaches, silently and with its supply off. */
  lemma BistIsObeyed(p: Port, i: Input)
    requires HearsData(p, i, BIST)
    ensures var q := MessagePhase(p, i);
            if i.msg.value.data[0] / 0x1000_0000 == 5 && p.state == (if p.role.Sink? then SnkReady else SrcReady) then
              && q.sent == Add(p.sent, BistCarrier) && !q.outputs.rx && q.outputs.limit == Power(0, 0)
              && q.state == (if p.role.Sink? then SnkDisconnected else SrcDisconnected)
              && (p.role.Source? ==> !q.outputs.vbusOn)
            else q == p
  {}

  /** A sink's capabilities are taken note of, and end the wait for them. */
  lemma SinkCapIsNoted(p: Port, i: Input)
    requires HearsData(p, i, SINK_CAP)
    ensures var q := MessagePhase(p, i);
            && q.flags.snkCapRecvd
            && (if p.state == SrcGetSinkCap then q == p.(flags := q.flags, timer := NO_TIMER, state := SrcReady)
                else q == p.(flags := q.flags))
  {}

  /** A vendor-defined message concerns only the exchange in progress. */
  lemma VendorTouchesExchange(p: Port, i: Input)
    requires HearsData(p, i, VENDOR_DEF)
    ensures var q := MessagePhase(p, i);
            q == p.(vdm := q.vdm) && (!p.vdm.state.VdmBusy? ==> q == p)
  {}

  lemma OtherDataIsIgnored(p: Port, i: Input, kind: nat)
    requires HearsData(p, i, kind) && kind !in {SOURCE_CAP, REQUEST, BIST, SINK_CAP, VENDOR_DEF}
    ensures MessagePhase(p, i) == p
  {}
}
