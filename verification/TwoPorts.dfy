/** A sink and a source joined by two lossless in-order channels: whenever the sink is
    ready, both agree on the supplied object, in every interleaving and through repeated
    renegotiation. */
module TwoPorts {
  import opened PdWords
  import opened PowerPolicy
  import opened PortState
  import opened PortMachine
  import opened PortRuns
  import opened PortSafety
  import opened Wires

  // ---- Messages on the wire ----

  /** What a message means for the negotiation. */
  datatype Signal = Noise | Caps(pdos: Objects) | Accept | PsRdy | Request(rdo: Word) | Alien

  /** The meaning of a message to the source (`up`) or to the sink. Get_Sink_Cap and its
      answers, Ping and vendor-defined messages are noise; the answer of a sink without
      objects reads as Reject. */
  function Meaning(k: Packet, up: bool): Signal {
    if k.data == [] then
      if k.kind == ACCEPT then Accept
      else if k.kind == PS_RDY then PsRdy
      else if (if up then k.kind == REJECT else k.kind == GET_SINK_CAP || k.kind == PING) then Noise
      else Alien
    else if k.kind == SOURCE_CAP then Caps(k.data)
    else if k.kind == REQUEST && |k.data| == 1 then Request(k.data[0])
    else if k.kind == VENDOR_DEF || (up && k.kind == SINK_CAP) then Noise
    else Alien
  }

  function Pure(k: Packet, up: bool): seq<Signal> {
    if Meaning(k, up).Noise? then [] else [Meaning(k, up)]
  }

  /** The signals in a channel, oldest first, without the noise. */
  function Signals(c: Channel, up: bool): seq<Signal> {
    if c == [] then [] else Pure(c[0], up) + Signals(c[1..], up)
  }

  lemma {:induction false} SignalsAppend(a: Channel, b: Channel, up: bool)
    ensures Signals(a + b, up) == Signals(a, up) + Signals(b, up)
    decreases |a|
  {
    if a == [] {
      assert a + b == b;
    } else {
      assert (a + b)[1..] == a[1..] + b;
      SignalsAppend(a[1..], b, up);
    }
  }

  /** The signals sent in a pass: a sink's go up. */
  function Said(p: Port, up: bool): seq<Signal> { Signals(Packets(p.sent), up) }

  lemma SaidMore(p: Port, q: Port, k: Packet, up: bool)
    requires q.sent == Add(p.sent, Sop(k))
    ensures Said(q, up) == Said(p, up) + Pure(k, up)
  {
    SignalsAppend(Packets(p.sent), [k], up);
    assert [k][1..] == [];
  }

  // ---- What one side hears and does ----

  /** The offer: one to seven objects, no battery among them. */
  predicate Offer(pdos: Objects) {
    |pdos| >= 1 && forall k :: 0 <= k < |pdos| ==> !PdoIsBattery(pdos[k])
  }

  function Heard(k: Option<Packet>, up: bool): Signal {
    if k.None? then Noise else Meaning(k.value, up)
  }

  /** No failed board check, no local reset and no swap request; the selected slot is one
      that the source offers. */
  predicate Calm(i: Input, pdos: Objects) {
    i.boardOk && !i.reset && !i.wantPowerSwap && !i.wantDataSwap && i.capIndex < |pdos|
  }

  lemma PrefixIsNoise(p: Port, i: Input, up: bool)
    requires i.boardOk && !i.reset
    ensures var q := BeforeMessage(p, i);
            q == p.(vdm := q.vdm, sent := q.sent) && Said(q, up) == []
  {
    var r := p.(sent := NoFrames);
    var q := VdmPhase(r, i.clock.vdm);
    if q.sent != NoFrames {
      SaidMore(r, q, q.sent.latest.packet, up);
    }
  }

  // ---- The sink ----

  predicate SinkPhase(s: State) { s == SnkDiscovery || s == SnkRequested || s == SnkTransition || s == SnkReady }

  predicate Knows(caps: CapTable, pdos: Objects) { forall k :: 0 <= k < |pdos| ==> caps[k] == pdos[k] }

  /** The sink's table starts with the offer, and its last request was for one of the
      offered objects, from which its limit was extracted. */
  predicate Bound(p: Port, pdos: Objects) {
    && Knows(p.caps, pdos)
    && 1 <= p.history.requestedPos <= |pdos|
    && p.request.limit == ExtractPower(pdos[p.history.requestedPos - 1])
  }

  predicate SameDeal(p: Port, q: Port) {
    && q.role == p.role && q.tx == p.tx && q.caps == p.caps && q.request.limit == p.request.limit
    && q.history.requestedPos == p.history.requestedPos && q.outputs.limit == p.outputs.limit
  }

  /** The sink has just asked for an offered object. */
  predicate Asks(q: Port, pdos: Objects, said: seq<Signal>) {
    && q.state == SnkRequested && Bound(q, pdos)
    && |said| == 1 && said[0].Request?
    && RdoPos(said[0].rdo) == q.history.requestedPos && RequestGranted(said[0].rdo, pdos)
  }

  lemma SinkHearsNoise(p: Port, i: Input, k: Option<Packet>)
    requires Readable(i) && Delivers(i, k) && Heard(k, false).Noise? && Said(p, true) == []
    ensures var q := MessagePhase(p, i);
            q == p.(vdm := q.vdm, sent := q.sent) && Said(q, true) == []
  {
    if k.Some? && Connected(p) {
      if k.value.data == [] && k.value.kind == GET_SINK_CAP {
        var q := SendSinkCap(p);
        SaidMore(p, q, q.sent.latest.packet, true);
      }
    }
  }

  /** A request for the offered object `pos`, and the power it stands for. */
  predicate AsksFor(rdo: Word, power: Power, pos: nat, pdos: Objects) {
    && 1 <= pos <= |pdos| && RdoPos(rdo) == pos && RequestGranted(rdo, pdos)
    && power == ExtractPower(pdos[pos - 1])
  }

  lemma BuildsFromOffer(caps: CapTable, index: nat, pdos: Objects)
    requires Offer(pdos) && index < |pdos| && Knows(caps, pdos)
    ensures var (rdo, power) := BuildRequest(caps, index);
            AsksFor(rdo, power, index + 1, pdos)
  {
    assert caps[index] == pdos[index];
    BuiltIsGranted(caps, pdos, index);
    RequestFields(caps, index);
  }

  lemma SinkAsks(p: Port, always: bool, rdo: Word, power: Power, pos: nat, pdos: Objects)
    requires Knows(p.caps, pdos) && AsksFor(rdo, power, pos, pdos)
    requires TxOk(p) && p.role.Sink? && Said(p, true) == []
    ensures var (q, ok) := SendBuilt(p, always, rdo, power);
            && ok && q.role.Sink? && TxOk(q)
            && (q == p.(request := p.request.(pending := false)) || Asks(q, pdos, Said(q, true)))
            && (always ==> Asks(q, pdos, Said(q, true)))
            && (q.state != p.state ==> q.timer == NO_TIMER)
  {
    if always || p.request.previousMv != power.mv {
      var q := SendBuilt(p, always, rdo, power).0;
      var k := RawPacket.Packet(REQUEST, p.role, p.dataRole, p.msgId, [rdo]);
      SaidMore(p, q, k, true);
      assert Pure(k, true) == [Request(rdo)];
    }
  }

  lemma SinkAnswers(p: Port, first: Word, caps: CapTable, limit: Power, rdo: Word, power: Power, pos: nat,
                    pdos: Objects)
    requires Knows(caps, pdos) && AsksFor(rdo, power, pos, pdos)
    requires TxOk(p) && p.role.Sink? && Said(p, true) == []
    ensures var q := AnswerWith(p, first, caps, limit, rdo, power);
            q.role.Sink? && TxOk(q) && Asks(q, pdos, Said(q, true)) && q.timer == NO_TIMER
  {
    var q := UpdatePdoFlags(p.(flags := p.flags.(previousPdConn := true)), first);
    SinkAsks(SetLimit(q.(caps := caps), limit), true, rdo, power, pos, pdos);
  }

  lemma CapsReachAnswer(p: Port, i: Input, k: Packet, pdos: Objects)
    requires Readable(i) && Delivers(i, Some(k)) && Meaning(k, false) == Caps(pdos) && pdos != [] && p.role.Sink?
    requires p.state == SnkDiscovery || p.state == SnkReady
    ensures MessagePhase(p, i) == AnswerSourceCap(p, pdos, i.capIndex)
  {}

  lemma SinkHearsCaps(p: Port, i: Input, k: Packet, pdos: Objects)
    requires Readable(i) && Delivers(i, Some(k)) && Meaning(k, false) == Caps(pdos)
    requires Offer(pdos) && Calm(i, pdos) && p.role.Sink? && TxOk(p) && Said(p, true) == []
    requires p.state == SnkDiscovery || p.state == SnkReady
    ensures var q := MessagePhase(p, i);
            SinkSide(q, pdos) && Asks(q, pdos, Said(q, true))
  {
    CapsReachAnswer(p, i, k, pdos);
    var caps, limit, rdo, power := AnswerShape(p, pdos, i.capIndex);
    BuildsFromOffer(caps, i.capIndex, pdos);
    SinkAnswers(p, pdos[0], caps, limit, rdo, power, i.capIndex + 1, pdos);
  }

  lemma SinkIgnoresCaps(p: Port, i: Input, k: Packet)
    requires Readable(i) && Delivers(i, Some(k)) && Meaning(k, false).Caps? && p.state == SnkRequested
    ensures MessagePhase(p, i) == p
  {}

  lemma SinkHearsAccept(p: Port, i: Input, k: Packet)
    requires Readable(i) && Delivers(i, Some(k)) && Meaning(k, false).Accept?
    requires p.state == SnkRequested && p.role.Sink?
    ensures var q := MessagePhase(p, i);
            q.state == SnkTransition && q.sent == p.sent && SameDeal(p, q)
  {}

  lemma SinkHearsPsRdy(p: Port, i: Input, k: Packet)
    requires Readable(i) && Delivers(i, Some(k)) && Meaning(k, false).PsRdy?
    requires p.state == SnkTransition && p.role.Sink?
    ensures var q := MessagePhase(p, i);
            && q.state == SnkReady && q.sent == p.sent && q.outputs.limit == p.request.limit
            && SameDeal(SetLimit(p, p.request.limit), q)
  {}

  /** No timer fires except those that pace the source's power transition and its wait for
      the sink's capabilities. */
  predicate NoExpiry(p: Port, end: nat) {
    p.timer.at != 0 && end >= p.timer.at ==>
      p.timer.next == SrcPowered || p.timer.next == SrcTransition || p.timer.next == SrcReady
  }

  predicate CalmFromSwitch(p: Port, i: Input)
    requires Readable(i)
  {
    NoExpiry(HandlerPhase(p, i), i.clock.end) && StaysAttached(HandlerPhase(p, i), i)
  }

  predicate SinkTimed(p: Port) { p.timer.at != 0 ==> p.timer.next == HardResetSend || p.timer.next == SnkDisconnected }

  /** Where no timer fires and the port stays attached, the checks after the switch only
      note the time. */
  lemma SinkEnds(q: Port, p: Port, i: Input)
    requires SinkPhase(q.state) && q.role.Sink? && SinkTimed(q)
    requires NoExpiry(q, i.clock.end) && StaysAttached(q, i)
    ensures DetachPhase(TimerPhase(Closed(q, p, i), i.clock.end), i) ==
            q.(last := p.state, history := q.history.(steady := Observe(p, i), now := i.clock.end))
  {}

  lemma SinkWaits(p: Port, i: Input)
    requires p.state == SnkDiscovery || p.state == SnkRequested || p.state == SnkTransition
    requires p.role.Sink? && SinkTimed(p) && Readable(i) && CalmFromSwitch(p, i)
    ensures var q := FromSwitch(p, i);
            q.state == p.state && SameDeal(p, q) && q.sent == p.sent && SinkTimed(q)
  {
    var q := Handle(p, i);
    if p.state == SnkDiscovery {
    } else if p.state == SnkRequested {
    }
    SinkEnds(q, p, i);
  }

  lemma SinkActs(p: Port, i: Input, rdo: Word, power: Power, pos: nat, pdos: Objects)
    requires p.state == SnkReady && p.role.Sink? && TxOk(p) && Said(p, true) == [] && SinkTimed(p)
    requires Knows(p.caps, pdos) && AsksFor(rdo, power, pos, pdos) && Calm(i, pdos)
    ensures var q := ActReady(p, i, rdo, power);
            && q.role.Sink? && TxOk(q) && SinkTimed(q)
            && ((q.state == SnkReady && SameDeal(p, q) && Said(q, true) == []) || Asks(q, pdos, Said(q, true)))
  {
    if !p.vdm.state.VdmBusy? {
      if p.request.pending {
        SinkAsks(p, false, rdo, power, pos, pdos);
      } else if PolicyDue(p) {
      }
    }
  }

  lemma SinkActsAndEnds(p: Port, i: Input, q: Port, pdos: Objects)
    requires q.role.Sink? && TxOk(q) && SinkTimed(q) && Readable(i) && CalmFromSwitch(p, i)
    requires (q.state == SnkReady && SameDeal(p, q) && Said(q, true) == []) || Asks(q, pdos, Said(q, true))
    requires HandlerPhase(p, i) == Closed(q, p, i)
    ensures var r := FromSwitch(p, i);
            && r.role.Sink? && TxOk(r) && SinkTimed(r)
            && ((r.state == SnkReady && SameDeal(p, r) && Said(r, true) == []) || Asks(r, pdos, Said(r, true)))
  {
    SinkEnds(q, p, i);
  }

  lemma SinkReadyRuns(p: Port, i: Input, pdos: Objects)
    requires p.state == SnkReady && p.role.Sink? && TxOk(p) && Said(p, true) == [] && SinkTimed(p)
    requires Offer(pdos) && Knows(p.caps, pdos) && Calm(i, pdos) && Readable(i) && CalmFromSwitch(p, i)
    ensures var q := FromSwitch(p, i);
            && q.role.Sink? && TxOk(q) && SinkTimed(q)
            && ((q.state == SnkReady && SameDeal(p, q) && Said(q, true) == []) || Asks(q, pdos, Said(q, true)))
  {
    var (rdo, power) := BuildRequest(p.caps, i.capIndex);
    BuildsFromOffer(p.caps, i.capIndex, pdos);
    SinkActs(p, i, rdo, power, i.capIndex + 1, pdos);
    SinkActsAndEnds(p, i, ActReady(p, i, rdo, power), pdos);
  }

  /** The sink's half of the agreement. */
  predicate SinkSide(p: Port, pdos: Objects) {
    && SinkPhase(p.state) && p.role.Sink? && TxOk(p) && SinkTimed(p)
    && (p.state != SnkDiscovery ==> Bound(p, pdos))
    && (p.state == SnkReady ==> p.outputs.limit == p.request.limit)
  }

  /** The signals that reach a sink in state `s`. */
  predicate SinkExpects(s: State, sig: Signal, pdos: Objects) {
    || sig.Noise?
    || (sig == Caps(pdos) && s != SnkTransition)
    || (sig.Accept? && s == SnkRequested)
    || (sig.PsRdy? && s == SnkTransition)
  }

  /** What a sink makes of them: it answers an offer, may ask again once it is ready, and
      otherwise follows the source silently. */
  predicate SinkReacts(p: Port, sig: Signal, q: Port, said: seq<Signal>, pdos: Objects) {
    var answers := sig.Caps? && p.state != SnkRequested;
    || (Asks(q, pdos, said) && (answers || (p.state == SnkReady && sig.Noise?) || sig.PsRdy?))
    || (!answers && said == [] && q.history.requestedPos == p.history.requestedPos
        && q.state == if sig.Accept? then SnkTransition else if sig.PsRdy? then SnkReady else p.state)
  }

  /** From the switch on, a sink keeps its state, except that a ready one may ask. */
  lemma SinkRuns(p: Port, i: Input, pdos: Objects)
    requires SinkSide(p, pdos) && Offer(pdos) && Readable(i) && Calm(i, pdos) && CalmFromSwitch(p, i)
    requires p.state == SnkReady ==> Said(p, true) == []
    ensures var q := FromSwitch(p, i);
            && SinkSide(q, pdos)
            && ((q.state == p.state && Said(q, true) == Said(p, true)
                 && q.history.requestedPos == p.history.requestedPos && (Bound(p, pdos) ==> Bound(q, pdos)))
                || (p.state == SnkReady && Asks(q, pdos, Said(q, true))))
  {
    if p.state == SnkReady {
      SinkReadyRuns(p, i, pdos);
    } else {
      SinkWaits(p, i);
    }
  }

  /** The message phase alone. */
  lemma SinkHears(p: Port, i: Input, k: Option<Packet>, pdos: Objects)
    requires SinkSide(p, pdos) && Offer(pdos) && Readable(i) && Calm(i, pdos) && Delivers(i, k) && Said(p, true) == []
    requires SinkExpects(p.state, Heard(k, false), pdos)
    ensures var q := MessagePhase(p, i);
            var sig := Heard(k, false);
            && SinkSide(q, pdos)
            && if sig.Caps? && p.state != SnkRequested then Asks(q, pdos, Said(q, true))
               else
                 && Said(q, true) == [] && q.history.requestedPos == p.history.requestedPos
                 && q.state == if sig.Accept? then SnkTransition else if sig.PsRdy? then SnkReady else p.state
  {
    var sig := Heard(k, false);
    if sig.Noise? {
      SinkHearsNoise(p, i, k);
    } else if sig.Caps? {
      if p.state == SnkRequested {
        SinkIgnoresCaps(p, i, k.value);
      } else {
        SinkHearsCaps(p, i, k.value, pdos);
      }
    } else if sig.Accept? {
      SinkHearsAccept(p, i, k.value);
    } else {
      SinkHearsPsRdy(p, i, k.value);
    }
  }

  lemma PrefixKeepsSide(p: Port, r: Port, pdos: Objects)
    requires r == p.(vdm := r.vdm, sent := r.sent)
    ensures SinkSide(p, pdos) ==> SinkSide(r, pdos)
    ensures SourceSide(p, pdos) ==> SourceSide(r, pdos)
  {}

  lemma SinkPass(p: Port, i: Input, k: Option<Packet>, pdos: Objects)
    requires SinkSide(p, pdos) && Offer(pdos) && Readable(i) && Calm(i, pdos) && Delivers(i, k)
    requires SinkExpects(p.state, Heard(k, false), pdos) && CalmFromSwitch(BeforeHandler(p, i), i)
    ensures var q := Pass(p, i);
            SinkSide(q, pdos) && SinkReacts(p, Heard(k, false), q, Said(q, true), pdos)
  {
    PrefixIsNoise(p, i, true);
    var r, m := BeforeMessage(p, i), BeforeHandler(p, i);
    PrefixKeepsSide(p, r, pdos);
    SinkHears(r, i, k, pdos);
    SinkFollows(r, Heard(k, false), m, i, pdos);
    assert Pass(p, i) == FromSwitch(m, i);
  }

  /** From what the message phase made of the signal to the end of the pass. */
  lemma SinkFollows(p: Port, sig: Signal, m: Port, i: Input, pdos: Objects)
    requires SinkSide(m, pdos) && Offer(pdos) && Readable(i) && Calm(i, pdos) && CalmFromSwitch(m, i)
    requires SinkExpects(p.state, sig, pdos)
    requires if sig.Caps? && p.state != SnkRequested then Asks(m, pdos, Said(m, true))
             else
               && Said(m, true) == [] && m.history.requestedPos == p.history.requestedPos
               && m.state == if sig.Accept? then SnkTransition else if sig.PsRdy? then SnkReady else p.state
    ensures var q := FromSwitch(m, i);
            SinkSide(q, pdos) && SinkReacts(p, sig, q, Said(q, true), pdos)
  {
    SinkRuns(m, i, pdos);
  }

  // ---- The source ----

  predicate Awaiting(s: State) { s == SrcAccepted || s == SrcPowered || s == SrcTransition }

  predicate Settled(s: State) { s == SrcReady || s == SrcGetSinkCap }

  predicate SourcePhase(s: State) { s == SrcDiscovery || s == SrcNegociate || Awaiting(s) || Settled(s) }

  predicate SourceTimed(p: Port) {
    p.timer.at != 0 ==>
      && (p.timer.next == SrcPowered ==> p.state == SrcAccepted)
      && (p.timer.next == SrcTransition ==> p.state == SrcPowered && p.last == SrcPowered)
      && (p.timer.next == SrcReady ==> p.state == SrcGetSinkCap)
  }

  /** The source's half of the agreement: once switched, the supply is at the granted
      object. */
  predicate SourceSide(p: Port, pdos: Objects) {
    && SourcePhase(p.state) && p.role.Source? && TxOk(p) && SourceTimed(p) && p.srcPdos == pdos
    && (p.state == SrcPowered && p.last == SrcPowered ==> p.outputs.supplied == p.requestedIdx)
    && (p.state == SrcTransition ==> p.outputs.supplied == p.requestedIdx)
  }

  predicate SameSupply(p: Port, q: Port) {
    && q.role == p.role && q.tx == p.tx && q.srcPdos == p.srcPdos
    && q.requestedIdx == p.requestedIdx && q.outputs.supplied == p.outputs.supplied
  }

  predicate SourceExpects(s: State, sig: Signal, pdos: Objects) {
    || sig.Noise?
    || (sig.Request? && RequestGranted(sig.rdo, pdos) && (s == SrcNegociate || Settled(s)))
  }

  lemma ControlNoise(p: Port, i: Input, k: Packet, pdos: Objects)
    requires SourceSide(p, pdos) && Readable(i) && Delivers(i, Some(k)) && Meaning(k, true).Noise? && k.data == []
    ensures MessagePhase(p, i) == p
  {}

  lemma VendorNoise(p: Port, i: Input, k: Packet, pdos: Objects)
    requires SourceSide(p, pdos) && Readable(i) && Delivers(i, Some(k)) && k.kind == VENDOR_DEF && k.data != []
    ensures var q := MessagePhase(p, i);
            q == p.(vdm := q.vdm) && SourceSide(q, pdos)
  {}

  lemma SourceHearsNoise(p: Port, i: Input, k: Option<Packet>, pdos: Objects)
    requires SourceSide(p, pdos) && Readable(i) && Delivers(i, k) && Heard(k, true).Noise?
    ensures var q := MessagePhase(p, i);
            && SourceSide(q, pdos) && SameSupply(p, q) && q.sent == p.sent && q.last == p.last
            && (q.state == p.state || (p.state == SrcGetSinkCap && q.state == SrcReady))
  {
    if k.Some? && Connected(p) {
      if k.value.data == [] {
        ControlNoise(p, i, k.value, pdos);
      } else if k.value.kind == VENDOR_DEF {
        VendorNoise(p, i, k.value, pdos);
      }
    }
  }

  lemma SourceHearsRequest(p: Port, i: Input, k: Packet, pdos: Objects)
    requires SourceSide(p, pdos) && Readable(i) && Delivers(i, Some(k)) && Said(p, false) == []
    requires SourceExpects(p.state, Meaning(k, true), pdos) && Meaning(k, true).Request?
    ensures var q := MessagePhase(p, i);
            && SourceSide(q, pdos) && q.state == SrcAccepted && Said(q, false) == [Accept]
            && q.requestedIdx == RdoPos(Meaning(k, true).rdo)
  {
    var rdo := k.data[0];
    var q := OnRequest(p, [rdo], i.clock.run);
    var a := RawPacket.Packet(ACCEPT, p.role, p.dataRole, p.msgId, []);
    SaidMore(p, q, a, false);
    assert MessagePhase(p, i) == q;
  }

  lemma SourceEnds(q: Port, p: Port, i: Input)
    requires SourcePhase(q.state) && q.role.Source?
    requires NoExpiry(q, i.clock.end) && StaysAttached(q, i)
    ensures var r := DetachPhase(TimerPhase(Closed(q, p, i), i.clock.end), i);
            var fired := q.timer.at != 0 && i.clock.end >= q.timer.at;
            r == q.(last := p.state, history := q.history.(steady := Observe(p, i), now := i.clock.end),
                    state := if fired then q.timer.next else q.state,
                    timer := if fired then NO_TIMER else q.timer)
  {}

  lemma SaysCaps(p: Port, pdos: Objects)
    requires p.srcPdos == pdos && |pdos| >= 1 && Said(p, false) == []
    ensures var q := SendSourceCap(p);
            q == p.(sent := q.sent) && Said(q, false) == [Caps(pdos)]
  {
    SaidMore(p, SendSourceCap(p), RawPacket.Packet(SOURCE_CAP, p.role, p.dataRole, p.msgId, pdos), false);
  }

  lemma SaysControl(p: Port, kind: Kind)
    requires kind != SOFT_RESET && Said(p, false) == []
    ensures Said(SendControl(p, kind), false) ==
            Pure(RawPacket.Packet(kind, p.role, p.dataRole, p.msgId, []), false)
  {
    SaidMore(p, SendControl(p, kind), RawPacket.Packet(kind, p.role, p.dataRole, p.msgId, []), false);
  }

  lemma SrcDiscoveryRuns(p: Port, i: Input, pdos: Objects)
    requires SourceSide(p, pdos) && |pdos| >= 1 && p.state == SrcDiscovery && Said(p, false) == []
    requires Readable(i) && CalmFromSwitch(p, i)
    ensures var q := FromSwitch(p, i);
            && SourceSide(q, pdos)
            && ((q.state == SrcDiscovery && Said(q, false) == [])
                || (q.state == SrcNegociate && Said(q, false) == [Caps(pdos)]))
  {
    var a := ArmNoResponse(p, i);
    if a.counters.caps < CAPS_COUNT {
      SaysCaps(a, pdos);
    }
    SourceEnds(Handle(p, i), p, i);
  }

  lemma SrcNegociateRuns(p: Port, i: Input, pdos: Objects)
    requires SourceSide(p, pdos) && p.state == SrcNegociate && Readable(i) && CalmFromSwitch(p, i)
    ensures var q := FromSwitch(p, i);
            SourceSide(q, pdos) && q.state == SrcNegociate && SameSupply(p, q) && q.sent == p.sent
  {
    SourceEnds(Handle(p, i), p, i);
  }

  lemma SrcAwaitingRuns(p: Port, i: Input, pdos: Objects)
    requires SourceSide(p, pdos) && Awaiting(p.state) && Readable(i) && CalmFromSwitch(p, i)
    requires p.state == SrcTransition ==> Said(p, false) == []
    ensures var q := FromSwitch(p, i);
            && SourceSide(q, pdos) && q.requestedIdx == p.requestedIdx
            && ((Awaiting(q.state) && q.sent == p.sent && (p.state == SrcAccepted ==> q.state != SrcTransition))
                || (p.state == SrcTransition && q.state == SrcReady && Said(q, false) == [PsRdy]
                    && q.outputs.supplied == p.requestedIdx))
  {
    if p.state == SrcTransition {
      SaysControl(p, PS_RDY);
    } else if p.state == SrcPowered {
    }
    SourceEnds(Handle(p, i), p, i);
  }

  lemma SrcReadyActs(p: Port, i: Input, pdos: Objects)
    requires SourceSide(p, pdos) && |pdos| >= 1 && p.state == SrcReady && Said(p, false) == []
    requires Readable(i) && !i.wantPowerSwap && !i.wantDataSwap
    ensures var q := RunSrcReady(p, i);
            && SourceTimed(q) && SameSupply(p, q)
            && ((Settled(q.state) && Said(q, false) == [])
                || (q.state == SrcNegociate && Said(q, false) == [Caps(pdos)]))
  {
    if !p.vdm.state.VdmBusy? {
      if p.flags.updateSrcCaps {
        SaysCaps(p, pdos);
      } else {
        var c := CountSinkCap(p);
        if !c.flags.snkCapRecvd && c.counters.snkCap <= SNK_CAP_RETRIES {
          SaysControl(c, GET_SINK_CAP);
        } else if PolicyDue(c) {
        } else if c.flags.pingEnabled {
          SaysControl(c, PING);
        }
      }
    }
  }

  lemma SrcSettledRuns(p: Port, i: Input, pdos: Objects)
    requires SourceSide(p, pdos) && |pdos| >= 1 && Settled(p.state) && Said(p, false) == []
    requires Readable(i) && CalmFromSwitch(p, i) && !i.wantPowerSwap && !i.wantDataSwap
    ensures var q := FromSwitch(p, i);
            && SourceSide(q, pdos) && SameSupply(p, q)
            && ((Settled(q.state) && Said(q, false) == [])
                || (q.state == SrcNegociate && Said(q, false) == [Caps(pdos)]))
  {
    if p.state == SrcReady {
      SrcReadyActs(p, i, pdos);
      assert Handle(p, i) == RunSrcReady(p, i);
    }
    SourceEnds(Handle(p, i), p, i);
  }

  /** What a source makes of what it hears: it accepts a request it can grant, switches
      and reports in silence, and may offer again once it is settled. */
  predicate SourceReacts(p: Port, sig: Signal, q: Port, said: seq<Signal>, pdos: Objects) {
    if sig.Request? then Awaiting(q.state) && said == [Accept] && q.requestedIdx == RdoPos(sig.rdo)
    else if p.state == SrcDiscovery then
      (q.state == SrcDiscovery && said == []) || (q.state == SrcNegociate && said == [Caps(pdos)])
    else if p.state == SrcNegociate then
      q.state == SrcNegociate && said == [] && q.outputs.supplied == p.outputs.supplied
    else if Awaiting(p.state) then
      || (Awaiting(q.state) && said == [] && q.requestedIdx == p.requestedIdx)
      || (q.state == SrcReady && said == [PsRdy] && q.outputs.supplied == p.requestedIdx)
    else
      && q.outputs.supplied == p.outputs.supplied
      && ((Settled(q.state) && said == []) || (q.state == SrcNegociate && said == [Caps(pdos)]))
  }

  lemma SourceRuns(p: Port, i: Input, pdos: Objects)
    requires SourceSide(p, pdos) && |pdos| >= 1 && Readable(i) && Calm(i, pdos) && CalmFromSwitch(p, i)
    requires Said(p, false) == []
    ensures var q := FromSwitch(p, i);
            SourceSide(q, pdos) && SourceReacts(p, Noise, q, Said(q, false), pdos)
  {
    if p.state == SrcDiscovery {
      SrcDiscoveryRuns(p, i, pdos);
    } else if p.state == SrcNegociate {
      SrcNegociateRuns(p, i, pdos);
    } else if Awaiting(p.state) {
      SrcAwaitingRuns(p, i, pdos);
    } else {
      SrcSettledRuns(p, i, pdos);
    }
  }

  lemma SourcePass(p: Port, i: Input, k: Option<Packet>, pdos: Objects)
    requires SourceSide(p, pdos) && |pdos| >= 1 && Readable(i) && Calm(i, pdos) && Delivers(i, k)
    requires SourceExpects(p.state, Heard(k, true), pdos) && CalmFromSwitch(BeforeHandler(p, i), i)
    ensures var q := Pass(p, i);
            SourceSide(q, pdos) && SourceReacts(p, Heard(k, true), q, Said(q, false), pdos)
  {
    PrefixIsNoise(p, i, false);
    var r := BeforeMessage(p, i);
    var m := BeforeHandler(p, i);
    if Heard(k, true).Noise? {
      SourceHearsNoise(r, i, k, pdos);
      SourceRuns(m, i, pdos);
    } else {
      SourceHearsRequest(r, i, k.value, pdos);
      SrcAwaitingRuns(m, i, pdos);
    }
  }

  // ---- Both sides and what is on its way ----

  /** The states of the two ports, the signals on their way to the sink and to the source,
      the position the sink asked for, and the positions the source granted and supplies. */
  datatype Talk = Talk(snk: State, src: State, down: seq<Signal>, up: seq<Signal>,
                       asked: nat, granted: nat, supplied: nat)

  /** What may be on its way once the source has accepted. */
  predicate AfterAccept(t: Talk, down: seq<Signal>, pdos: Objects) {
    || (Awaiting(t.src) && down == [] && t.granted == t.asked)
    || (Settled(t.src) && down == [PsRdy] && t.supplied == t.asked)
    || (t.src == SrcNegociate && down == [PsRdy, Caps(pdos)] && t.supplied == t.asked)
  }

  /** The request still on its way, possibly crossing an offer. */
  predicate Asking(t: Talk, pdos: Objects) {
    && |t.up| == 1 && t.up[0].Request? && RequestGranted(t.up[0].rdo, pdos) && RdoPos(t.up[0].rdo) == t.asked
    && ((t.down == [] && (t.src == SrcNegociate || Settled(t.src)))
        || (t.down == [Caps(pdos)] && t.src == SrcNegociate))
  }

  /** The answer on its way, possibly behind an offer the sink will ignore. */
  predicate Answered(t: Talk, pdos: Objects) {
    && t.up == []
    && var rest := if t.down != [] && t.down[0] == Caps(pdos) then t.down[1..] else t.down;
       rest != [] && rest[0] == Accept && AfterAccept(t, rest[1..], pdos)
  }

  predicate InStep(t: Talk, pdos: Objects) {
    if t.snk == SnkDiscovery then
      && t.up == []
      && ((t.src == SrcDiscovery && t.down == []) || (t.src == SrcNegociate && t.down == [Caps(pdos)]))
    else if t.snk == SnkRequested then Asking(t, pdos) || Answered(t, pdos)
    else if t.snk == SnkTransition then t.up == [] && AfterAccept(t, t.down, pdos)
    else
      && t.snk == SnkReady && t.up == [] && t.supplied == t.asked
      && ((Settled(t.src) && t.down == []) || (t.src == SrcNegociate && t.down == [Caps(pdos)]))
  }

  function Single(sig: Signal): seq<Signal> { if sig.Noise? then [] else [sig] }

  lemma NextToSink(t: Talk, sig: Signal, rest: seq<Signal>, pdos: Objects)
    requires InStep(t, pdos) && t.down == Single(sig) + rest
    ensures SinkExpects(t.snk, sig, pdos)
    ensures sig.Noise? ==> t.down == rest
    ensures !sig.Noise? ==> t.down != [] && t.down[0] == sig && t.down[1..] == rest
  {
    if !sig.Noise? {
      assert t.down[0] == sig && t.down[1..] == rest;
    }
  }

  lemma NextToSource(t: Talk, sig: Signal, rest: seq<Signal>, pdos: Objects)
    requires InStep(t, pdos) && t.up == Single(sig) + rest
    ensures SourceExpects(t.src, sig, pdos)
    ensures sig.Noise? ==> t.up == rest
    ensures !sig.Noise? ==> t.up != [] && t.up[0] == sig && t.up[1..] == rest
  {
    if !sig.Noise? {
      assert t.up[0] == sig && t.up[1..] == rest;
    }
  }

  /** The sink hears `sig`, the first of what is on its way, or nothing. */
  lemma SinkKeepsStep(t: Talk, sig: Signal, rest: seq<Signal>, p: Port, q: Port, said: seq<Signal>, pdos: Objects)
    requires InStep(t, pdos) && t.down == Single(sig) + rest
    requires p.state == t.snk && p.history.requestedPos == t.asked
    ensures SinkExpects(t.snk, sig, pdos)
    ensures SinkReacts(p, sig, q, said, pdos) ==>
              InStep(t.(snk := q.state, down := rest, up := t.up + said, asked := q.history.requestedPos), pdos)
  {
    NextToSink(t, sig, rest, pdos);
    assert t.up + [] == t.up;
    if t.snk == SnkDiscovery {
    } else if t.snk == SnkRequested {
      if Asking(t, pdos) {
      }
    } else if t.snk == SnkTransition {
    }
  }

  /** The source hears `sig`, the first of what is on its way, or nothing. */
  lemma SourceKeepsStep(t: Talk, sig: Signal, rest: seq<Signal>, p: Port, q: Port, said: seq<Signal>, pdos: Objects)
    requires InStep(t, pdos) && t.up == Single(sig) + rest
    requires p.state == t.src && p.requestedIdx == t.granted && p.outputs.supplied == t.supplied
    ensures SourceExpects(t.src, sig, pdos)
    ensures SourceReacts(p, sig, q, said, pdos) ==>
              InStep(t.(src := q.state, up := rest, down := t.down + said,
                        granted := q.requestedIdx, supplied := q.outputs.supplied), pdos)
  {
    NextToSource(t, sig, rest, pdos);
    assert t.down + [] == t.down;
    if t.down != [] && t.down[0] == Caps(pdos) {
      assert (t.down + said)[1..] == t.down[1..] + said;
    }
    if t.snk == SnkDiscovery {
    } else if t.snk == SnkRequested {
      if Asking(t, pdos) {
      }
    } else if t.snk == SnkTransition {
    }
  }

  // ---- The pair ----

  datatype Pair = Pair(snk: Port, src: Port, down: Channel, up: Channel)

  function TalkOf(l: Pair): Talk {
    Talk(l.snk.state, l.src.state, Signals(l.down, false), Signals(l.up, true),
         l.snk.history.requestedPos, l.src.requestedIdx, l.src.outputs.supplied)
  }

  predicate Agreed(l: Pair, pdos: Objects) {
    Offer(pdos) && SinkSide(l.snk, pdos) && SourceSide(l.src, pdos) && InStep(TalkOf(l), pdos)
  }

  /** One step of the pair: a port passes, with or without the oldest message on its way to
      it, or is notified of a successful transmission, or its application calls. */
  datatype Move =
    | SinkPolls(i: Input, delivery: bool)
    | SourcePolls(i: Input, delivery: bool)
    | SinkEvent(e: Event)
    | SourceEvent(e: Event)

  predicate Undisturbed(p: Port, i: Input, pdos: Objects) {
    Readable(i) && Calm(i, pdos) && CalmFromSwitch(BeforeHandler(p, i), i)
  }

  predicate Harmless(e: Event) {
    e == TxDone(TxSuccess) || e.AskNewPower? || e.AskContractUpdate? || e.AskPing? || e.AskVdm?
  }

  predicate Possible(l: Pair, m: Move, pdos: Objects) {
    match m
    case SinkPolls(i, delivery) => Arrives(i, l.down, delivery) && Undisturbed(l.snk, i, pdos)
    case SourcePolls(i, delivery) => Arrives(i, l.up, delivery) && Undisturbed(l.src, i, pdos)
    case SinkEvent(e) => Harmless(e)
    case SourceEvent(e) => Harmless(e)
  }

  function Next(l: Pair, m: Move, pdos: Objects): Pair
    requires Possible(l, m, pdos)
  {
    match m
    case SinkPolls(i, delivery) =>
      var q := Pass(l.snk, i);
      l.(snk := q, down := Taken(l.down, delivery), up := l.up + Packets(q.sent))
    case SourcePolls(i, delivery) =>
      var q := Pass(l.src, i);
      l.(src := q, up := Taken(l.up, delivery), down := l.down + Packets(q.sent))
    case SinkEvent(e) => l.(snk := After(l.snk, e))
    case SourceEvent(e) => l.(src := After(l.src, e))
  }

  lemma SinkPollsAgree(l: Pair, i: Input, delivery: bool, pdos: Objects)
    requires Agreed(l, pdos) && Possible(l, SinkPolls(i, delivery), pdos)
    ensures Agreed(Next(l, SinkPolls(i, delivery), pdos), pdos)
  {
    var k := First(l.down, delivery);
    var rest := Signals(Taken(l.down, delivery), false);
    var q := Pass(l.snk, i);
    SinkKeepsStep(TalkOf(l), Heard(k, false), rest, l.snk, q, Said(q, true), pdos);
    SinkPass(l.snk, i, k, pdos);
    SignalsAppend(l.up, Packets(q.sent), true);
  }

  lemma SourcePollsAgree(l: Pair, i: Input, delivery: bool, pdos: Objects)
    requires Agreed(l, pdos) && Possible(l, SourcePolls(i, delivery), pdos)
    ensures Agreed(Next(l, SourcePolls(i, delivery), pdos), pdos)
  {
    var k := First(l.up, delivery);
    var rest := Signals(Taken(l.up, delivery), true);
    var q := Pass(l.src, i);
    SourceKeepsStep(TalkOf(l), Heard(k, true), rest, l.src, q, Said(q, false), pdos);
    SourcePass(l.src, i, k, pdos);
    SignalsAppend(l.down, Packets(q.sent), false);
  }

  lemma EventKeepsSink(p: Port, e: Event, pdos: Objects)
    requires SinkSide(p, pdos) && Harmless(e)
    ensures var q := After(p, e);
            SinkSide(q, pdos) && q.state == p.state && q.history == p.history
  {}

  lemma EventKeepsSource(p: Port, e: Event, pdos: Objects)
    requires SourceSide(p, pdos) && Harmless(e)
    ensures var q := After(p, e);
            SourceSide(q, pdos) && q.state == p.state && SameSupply(p, q)
  {}

  lemma MoveAgrees(l: Pair, m: Move, pdos: Objects)
    requires Agreed(l, pdos) && Possible(l, m, pdos)
    ensures Agreed(Next(l, m, pdos), pdos)
  {
    match m
    case SinkPolls(i, delivery) => SinkPollsAgree(l, i, delivery, pdos);
    case SourcePolls(i, delivery) => SourcePollsAgree(l, i, delivery, pdos);
    case SinkEvent(e) => EventKeepsSink(l.snk, e, pdos);
    case SourceEvent(e) => EventKeepsSource(l.src, e, pdos);
  }

  ghost predicate Course(l: Pair, moves: seq<Move>, pdos: Objects)
    decreases |moves|
  {
    moves == [] || (Possible(l, moves[0], pdos) && Course(Next(l, moves[0], pdos), moves[1..], pdos))
  }

  ghost function Outcome(l: Pair, moves: seq<Move>, pdos: Objects): Pair
    requires Course(l, moves, pdos)
    decreases |moves|
  {
    if moves == [] then l else Outcome(Next(l, moves[0], pdos), moves[1..], pdos)
  }

  lemma {:induction false} CourseAgrees(l: Pair, moves: seq<Move>, pdos: Objects)
    requires Agreed(l, pdos) && Course(l, moves, pdos)
    ensures Agreed(Outcome(l, moves, pdos), pdos)
    decreases |moves|
  {
    if moves != [] {
      MoveAgrees(l, moves[0], pdos);
      CourseAgrees(Next(l, moves[0], pdos), moves[1..], pdos);
    }
  }

  /** Two attached ports before the first offer: a sink and a source in their discovery
      states, nothing on its way, and the last transmissions acknowledged. */
  predicate Start(l: Pair, pdos: Objects) {
    && l.snk.role.Sink? && l.snk.state == SnkDiscovery && TxOk(l.snk)
    && l.src.role.Source? && l.src.state == SrcDiscovery && TxOk(l.src) && l.src.srcPdos == pdos
    && TimersKept(l.snk) && TimersKept(l.src) && l.down == [] && l.up == []
  }

  lemma StartAgrees(l: Pair, pdos: Objects)
    requires Offer(pdos) && Start(l, pdos)
    ensures Agreed(l, pdos)
  {}

  /** The source last switched to exactly the object the sink asked for, and the sink's
      limit is the power extracted from that object. */
  predicate SameObject(l: Pair, pdos: Objects) {
    var pos := l.snk.history.requestedPos;
    1 <= pos <= |pdos| && l.src.outputs.supplied == pos && l.snk.outputs.limit == ExtractPower(pdos[pos - 1])
  }

  lemma ReadyMeansSame(l: Pair, pdos: Objects)
    requires Agreed(l, pdos) && l.snk.state == SnkReady
    ensures SameObject(l, pdos)
  {}

  /** Whenever the sink is ready, both ports mean the same object. */
  lemma TwoPortsAgree(l: Pair, moves: seq<Move>, pdos: Objects)
    requires Offer(pdos) && Start(l, pdos) && Course(l, moves, pdos)
    ensures Outcome(l, moves, pdos).snk.state == SnkReady ==> SameObject(Outcome(l, moves, pdos), pdos)
  {
    StartAgrees(l, pdos);
    CourseAgrees(l, moves, pdos);
    if Outcome(l, moves, pdos).snk.state == SnkReady {
      ReadyMeansSame(Outcome(l, moves, pdos), pdos);
    }
  }
}
