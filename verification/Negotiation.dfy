/** The agreement of TwoPorts is not empty: from every start in which the source still
    advertises, seven passes lead to a sink that is ready. */
module Negotiation {
  import opened PdWords
  import opened PowerPolicy
  import opened PortState
  import opened PortMachine
  import opened PortRuns
  import opened PortSafety
  import opened TwoPorts
  import opened Wires

  /** The next clock value a port can read. */
  function Now(p: Port): (t: nat)
    ensures 0 < t && p.history.now <= t
  {
    if p.history.now == 0 then 1 else p.history.now
  }

  /** An uneventful pass of an attached port that takes up the clock where the last one left
      it and lasts `span`. */
  function Still(p: Port, msg: Option<Message>, span: nat): (i: Input)
    ensures (msg.Some? ==> msg.value.Valid()) ==> Readable(i)
    ensures Timely(p.history.now, i.clock)
  {
    var t := Now(p);
    Input(false, true, msg, Open, Open, RdPulled, RdPulled, true, true, true, true, false, false, false, false,
          Freeze, 0, Clock(t, t, t, t, t, t + span))
  }

  function Carrying(p: Port, k: Packet, span: nat): (i: Input)
    ensures Readable(i) && Timely(p.history.now, i.clock)
  {
    Still(p, Some(k.Encode()), span)
  }

  predicate SentOnly(q: Port, k: Packet) { q.sent == Add(NoFrames, Sop(k)) }

  lemma BeginsQuietly(p: Port, i: Input)
    requires i.boardOk && !i.reset && p.state != SrcReady && p.state != SnkReady
    ensures var q := BeforeMessage(p, i);
            q == p.(vdm := q.vdm, sent := NoFrames)
  {}

  lemma OffersInHandler(p: Port, i: Input) returns (k: Packet)
    requires p.role.Source? && p.state == SrcDiscovery && TxOk(p) && p.counters.caps < CAPS_COUNT && p.srcPdos != []
    requires p.sent == NoFrames && i == Still(p, None, 0)
    ensures var q := FromSwitch(p, i);
            && CalmFromSwitch(p, i)
            && q.role.Source? && q.state == SrcNegociate && q.last == SrcDiscovery && TxOk(q) && q.srcPdos == p.srcPdos
            && SentOnly(q, k) && Meaning(k, false) == Caps(p.srcPdos)
  {
    k := RawPacket.Packet(SOURCE_CAP, p.role, p.dataRole, p.msgId, p.srcPdos);
  }

  lemma Offers(p: Port) returns (k: Packet)
    requires p.role.Source? && p.state == SrcDiscovery && TxOk(p) && p.counters.caps < CAPS_COUNT && p.srcPdos != []
    ensures var i := Still(p, None, 0);
            var q := Pass(p, i);
            && CalmFromSwitch(BeforeHandler(p, i), i)
            && q.role.Source? && q.state == SrcNegociate && q.last == SrcDiscovery && TxOk(q) && q.srcPdos == p.srcPdos
            && SentOnly(q, k) && Meaning(k, false) == Caps(p.srcPdos)
  {
    var i := Still(p, None, 0);
    BeginsQuietly(p, i);
    k := OffersInHandler(BeforeHandler(p, i), i);
  }

  lemma AsksInMessage(p: Port, caps: Packet, i: Input) returns (k: Packet)
    requires p.role.Sink? && p.state == SnkDiscovery && TxOk(p) && p.sent == NoFrames
    requires Meaning(caps, false).Caps? && Offer(caps.data) && i == Carrying(p, caps, 0)
    ensures var q := MessagePhase(p, i);
            && q.role.Sink? && q.state == SnkRequested && TxOk(q) && !q.request.pending && q.timer == NO_TIMER
            && SentOnly(q, k) && Meaning(k, true).Request? && RequestGranted(k.data[0], caps.data)
  {
    var table, limit, rdo, power := AnswerShape(p, caps.data, 0);
    k := RawPacket.Packet(REQUEST, p.role, p.dataRole, p.msgId, [rdo]);
    BuiltIsGranted(table, caps.data, 0);
    AsksWith(p, caps.data[0], table, limit, rdo, power, k);
  }

  lemma AsksWith(p: Port, first: Word, caps: CapTable, limit: Power, rdo: Word, power: Power, k: Packet)
    requires p.role.Sink? && TxOk(p) && p.sent == NoFrames
    requires k == RawPacket.Packet(REQUEST, p.role, p.dataRole, p.msgId, [rdo])
    ensures var q := AnswerWith(p, first, caps, limit, rdo, power);
            && q.role.Sink? && q.state == SnkRequested && TxOk(q) && !q.request.pending && q.timer == NO_TIMER
            && SentOnly(q, k)
  {}

  lemma Requests(p: Port, caps: Packet) returns (k: Packet)
    requires p.role.Sink? && p.state == SnkDiscovery && TxOk(p)
    requires Meaning(caps, false).Caps? && Offer(caps.data)
    ensures var i := Carrying(p, caps, 0);
            var q := Pass(p, i);
            && CalmFromSwitch(BeforeHandler(p, i), i)
            && q.role.Sink? && q.state == SnkRequested && TxOk(q) && !q.request.pending
            && SentOnly(q, k) && Meaning(k, true).Request? && RequestGranted(k.data[0], caps.data)
  {
    var i := Carrying(p, caps, 0);
    BeginsQuietly(p, i);
    k := AsksInMessage(BeforeMessage(p, i), caps, i);
  }

  lemma Agrees(p: Port, ask: Packet) returns (k: Packet)
    requires p.role.Source? && p.state == SrcNegociate && p.last == SrcDiscovery && TxOk(p)
    requires Meaning(ask, true).Request? && RequestGranted(ask.data[0], p.srcPdos)
    ensures var i := Carrying(p, ask, T_SINK_TRANSITION);
            var q := Pass(p, i);
            && CalmFromSwitch(BeforeHandler(p, i), i)
            && q.role.Source? && q.state == SrcPowered && q.last == SrcAccepted && TxOk(q)
            && SentOnly(q, k) && Meaning(k, false).Accept?
  {
    k := RawPacket.Packet(ACCEPT, p.role, p.dataRole, p.msgId, []);
  }

  lemma Accepts(p: Port, accept: Packet)
    requires p.role.Sink? && p.state == SnkRequested && TxOk(p) && !p.request.pending && Meaning(accept, false).Accept?
    ensures var i := Carrying(p, accept, 0);
            var q := Pass(p, i);
            && CalmFromSwitch(BeforeHandler(p, i), i)
            && q.role.Sink? && q.state == SnkTransition && TxOk(q) && !q.request.pending && q.sent == NoFrames
  {}

  lemma Switches(p: Port)
    requires p.role.Source? && p.state == SrcPowered && p.last == SrcAccepted && TxOk(p)
    ensures var i := Still(p, None, SUPPLY_TURN_ON);
            var q := Pass(p, i);
            && CalmFromSwitch(BeforeHandler(p, i), i)
            && q.role.Source? && q.state == SrcTransition && TxOk(q) && q.sent == NoFrames
  {}

  lemma Reports(p: Port) returns (k: Packet)
    requires p.role.Source? && p.state == SrcTransition && TxOk(p)
    ensures var i := Still(p, None, 0);
            var q := Pass(p, i);
            && CalmFromSwitch(BeforeHandler(p, i), i)
            && SentOnly(q, k) && Meaning(k, false).PsRdy?
  {
    k := RawPacket.Packet(PS_RDY, p.role, p.dataRole, p.msgId, []);
  }

  lemma Settles(p: Port, ready: Packet)
    requires p.role.Sink? && p.state == SnkTransition && TxOk(p) && !p.request.pending && Meaning(ready, false).PsRdy?
    ensures var i := Carrying(p, ready, 0);
            CalmFromSwitch(BeforeHandler(p, i), i) && Pass(p, i).state == SnkReady
  {}

  // ---- The seven steps of the pair ----

  predicate Waits(p: Port, s: State) { p.role.Sink? && p.state == s && TxOk(p) && !p.request.pending }

  predicate Supplies(p: Port, s: State, last: State) {
    p.role.Source? && p.state == s && p.last == last && TxOk(p)
  }

  predicate Offered(l: Pair, k: Packet, pdos: Objects) {
    && l.snk.role.Sink? && l.snk.state == SnkDiscovery && TxOk(l.snk)
    && Supplies(l.src, SrcNegociate, SrcDiscovery) && l.src.srcPdos == pdos
    && l.down == [k] && l.up == [] && Meaning(k, false) == Caps(pdos)
  }

  predicate Asked(l: Pair, k: Packet, pdos: Objects) {
    && Waits(l.snk, SnkRequested) && Supplies(l.src, SrcNegociate, SrcDiscovery) && l.src.srcPdos == pdos
    && l.down == [] && l.up == [k] && Meaning(k, true).Request? && RequestGranted(k.data[0], pdos)
  }

  predicate Granted(l: Pair, k: Packet) {
    && Waits(l.snk, SnkRequested) && Supplies(l.src, SrcPowered, SrcAccepted)
    && l.down == [k] && l.up == [] && Meaning(k, false).Accept?
  }

  predicate Powering(l: Pair) {
    Waits(l.snk, SnkTransition) && Supplies(l.src, SrcPowered, SrcAccepted) && l.down == [] && l.up == []
  }

  lemma OnePacket(q: Port, k: Packet)
    requires SentOnly(q, k)
    ensures [] + Packets(q.sent) == [k]
  {
    assert Packets(NoFrames) == [];
  }

  lemma StepOffer(l: Pair, pdos: Objects) returns (k: Packet)
    requires Offer(pdos) && Start(l, pdos) && l.src.counters.caps < CAPS_COUNT
    ensures var m := SourcePolls(Still(l.src, None, 0), false);
            Possible(l, m, pdos) && Offered(Next(l, m, pdos), k, pdos)
  {
    k := Offers(l.src);
    OnePacket(Pass(l.src, Still(l.src, None, 0)), k);
  }

  lemma StepAsk(l: Pair, caps: Packet, pdos: Objects) returns (k: Packet)
    requires Offer(pdos) && Offered(l, caps, pdos)
    ensures var m := SinkPolls(Carrying(l.snk, caps, 0), true);
            Possible(l, m, pdos) && Asked(Next(l, m, pdos), k, pdos)
  {
    k := Requests(l.snk, caps);
    OnePacket(Pass(l.snk, Carrying(l.snk, caps, 0)), k);
  }

  lemma StepGrant(l: Pair, ask: Packet, pdos: Objects) returns (k: Packet)
    requires Offer(pdos) && Asked(l, ask, pdos)
    ensures var m := SourcePolls(Carrying(l.src, ask, T_SINK_TRANSITION), true);
            Possible(l, m, pdos) && Granted(Next(l, m, pdos), k)
  {
    k := Agrees(l.src, ask);
    OnePacket(Pass(l.src, Carrying(l.src, ask, T_SINK_TRANSITION)), k);
  }

  lemma StepAccept(l: Pair, accept: Packet, pdos: Objects)
    requires Offer(pdos) && Granted(l, accept)
    ensures var m := SinkPolls(Carrying(l.snk, accept, 0), true);
            Possible(l, m, pdos) && Powering(Next(l, m, pdos))
  {
    Accepts(l.snk, accept);
  }

  lemma StepSwitch(l: Pair, pdos: Objects)
    requires Offer(pdos) && Powering(l)
    ensures var m := SourcePolls(Still(l.src, None, SUPPLY_TURN_ON), false);
            && Possible(l, m, pdos)
            && var n := Next(l, m, pdos);
               && n.src.role.Source? && n.src.state == SrcTransition && TxOk(n.src)
               && Waits(n.snk, SnkTransition) && n.down == [] && n.up == []
  {
    Switches(l.src);
  }

  lemma StepReport(l: Pair, pdos: Objects) returns (k: Packet)
    requires Offer(pdos) && l.src.role.Source? && l.src.state == SrcTransition && TxOk(l.src)
    requires Waits(l.snk, SnkTransition) && l.down == [] && l.up == []
    ensures var m := SourcePolls(Still(l.src, None, 0), false);
            && Possible(l, m, pdos)
            && var n := Next(l, m, pdos);
               Waits(n.snk, SnkTransition) && n.down == [k] && Meaning(k, false).PsRdy?
  {
    k := Reports(l.src);
    OnePacket(Pass(l.src, Still(l.src, None, 0)), k);
  }

  lemma StepSettle(l: Pair, ready: Packet, pdos: Objects)
    requires Offer(pdos) && Waits(l.snk, SnkTransition) && l.down == [ready] && Meaning(ready, false).PsRdy?
    ensures var m := SinkPolls(Carrying(l.snk, ready, 0), true);
            Possible(l, m, pdos) && Next(l, m, pdos).snk.state == SnkReady
  {
    Settles(l.snk, ready);
  }

  /** The pass continues the clock of its port. */
  predicate Punctual(l: Pair, m: Move) {
    match m
    case SinkPolls(i, _) => Timely(l.snk.history.now, i.clock)
    case SourcePolls(i, _) => Timely(l.src.history.now, i.clock)
    case _ => true
  }

  ghost predicate PunctualCourse(l: Pair, moves: seq<Move>, pdos: Objects)
    requires Course(l, moves, pdos)
    decreases |moves|
  {
    moves == [] || (Punctual(l, moves[0]) && PunctualCourse(Next(l, moves[0], pdos), moves[1..], pdos))
  }

  lemma Prepends(l: Pair, m: Move, moves: seq<Move>, pdos: Objects)
    requires Possible(l, m, pdos) && Course(Next(l, m, pdos), moves, pdos)
    requires Punctual(l, m) && PunctualCourse(Next(l, m, pdos), moves, pdos)
    ensures Course(l, [m] + moves, pdos) && PunctualCourse(l, [m] + moves, pdos)
    ensures Outcome(l, [m] + moves, pdos) == Outcome(Next(l, m, pdos), moves, pdos)
  {
    assert ([m] + moves)[1..] == moves;
  }

  /** From every start in which the source has not used up its advertisements, seven passes
      complete a negotiation, on clocks that do not run backwards. */
  lemma NegotiationCompletes(l: Pair, pdos: Objects) returns (moves: seq<Move>)
    requires Offer(pdos) && Start(l, pdos) && l.src.counters.caps < CAPS_COUNT
    ensures |moves| == 7 && Course(l, moves, pdos) && PunctualCourse(l, moves, pdos)
    ensures Outcome(l, moves, pdos).snk.state == SnkReady
  {
    var caps := StepOffer(l, pdos);
    var m1 := SourcePolls(Still(l.src, None, 0), false);
    var rest := FromOffer(Next(l, m1, pdos), caps, pdos);
    Prepends(l, m1, rest, pdos);
    moves := [m1] + rest;
  }

  lemma FromOffer(l: Pair, caps: Packet, pdos: Objects) returns (moves: seq<Move>)
    requires Offer(pdos) && Offered(l, caps, pdos)
    ensures |moves| == 6 && Course(l, moves, pdos) && PunctualCourse(l, moves, pdos)
    ensures Outcome(l, moves, pdos).snk.state == SnkReady
  {
    var ask := StepAsk(l, caps, pdos);
    var m := SinkPolls(Carrying(l.snk, caps, 0), true);
    var rest := FromRequest(Next(l, m, pdos), ask, pdos);
    Prepends(l, m, rest, pdos);
    moves := [m] + rest;
  }

  lemma FromRequest(l: Pair, ask: Packet, pdos: Objects) returns (moves: seq<Move>)
    requires Offer(pdos) && Asked(l, ask, pdos)
    ensures |moves| == 5 && Course(l, moves, pdos) && PunctualCourse(l, moves, pdos)
    ensures Outcome(l, moves, pdos).snk.state == SnkReady
  {
    var accept := StepGrant(l, ask, pdos);
    var m := SourcePolls(Carrying(l.src, ask, T_SINK_TRANSITION), true);
    var rest := FromAccept(Next(l, m, pdos), accept, pdos);
    Prepends(l, m, rest, pdos);
    moves := [m] + rest;
  }

  lemma FromAccept(l: Pair, accept: Packet, pdos: Objects) returns (moves: seq<Move>)
    requires Offer(pdos) && Granted(l, accept)
    ensures |moves| == 4 && Course(l, moves, pdos) && PunctualCourse(l, moves, pdos)
    ensures Outcome(l, moves, pdos).snk.state == SnkReady
  {
    StepAccept(l, accept, pdos);
    var m := SinkPolls(Carrying(l.snk, accept, 0), true);
    var rest := FromPowering(Next(l, m, pdos), pdos);
    Prepends(l, m, rest, pdos);
    moves := [m] + rest;
  }

  lemma FromPowering(l: Pair, pdos: Objects) returns (moves: seq<Move>)
    requires Offer(pdos) && Powering(l)
    ensures |moves| == 3 && Course(l, moves, pdos) && PunctualCourse(l, moves, pdos)
    ensures Outcome(l, moves, pdos).snk.state == SnkReady
  {
    StepSwitch(l, pdos);
    var m := SourcePolls(Still(l.src, None, SUPPLY_TURN_ON), false);
    var rest := FromTransition(Next(l, m, pdos), pdos);
    Prepends(l, m, rest, pdos);
    moves := [m] + rest;
  }

  lemma FromTransition(l: Pair, pdos: Objects) returns (moves: seq<Move>)
    requires Offer(pdos) && l.src.role.Source? && l.src.state == SrcTransition && TxOk(l.src)
    requires Waits(l.snk, SnkTransition) && l.down == [] && l.up == []
    ensures |moves| == 2 && Course(l, moves, pdos) && PunctualCourse(l, moves, pdos)
    ensures Outcome(l, moves, pdos).snk.state == SnkReady
  {
    var ready := StepReport(l, pdos);
    var m1 := SourcePolls(Still(l.src, None, 0), false);
    var n := Next(l, m1, pdos);
    StepSettle(n, ready, pdos);
    var m2 := SinkPolls(Carrying(n.snk, ready, 0), true);
    Prepends(n, m2, [], pdos);
    Prepends(l, m1, [m2] + [], pdos);
    moves := [m1] + ([m2] + []);
  }
}
