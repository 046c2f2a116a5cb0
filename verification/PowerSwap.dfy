/** A power role swap between two ports joined by lossless in-order channels, asked for by
    either: in every interleaving the two never drive VBUS or present Rp together, and the
    swap ends with the roles exchanged or, if it is rejected, with nothing changed. */
module PowerSwap {
  import opened PdWords
  import opened PowerPolicy
  import opened PortState
  import opened PortMachine
  import opened PortRuns
  import opened PortSafety
  import opened PortPower
  import opened Wires

  // ---- Messages ----

  datatype Signal = Ask | Yes | No | Ready | Other

  function Meaning(k: Packet): Signal {
    if k.data != [] then Other
    else if k.kind == PR_SWAP then Ask
    else if k.kind == ACCEPT then Yes
    else if k.kind == REJECT then No
    else if k.kind == PS_RDY then Ready
    else Other
  }

  function Signals(c: Channel): seq<Signal> {
    seq(|c|, k requires 0 <= k < |c| => Meaning(c[k]))
  }

  function Said(p: Port): seq<Signal> { Signals(Packets(p.sent)) }

  // ---- The two sides ----

  /** How far the port that gives up the source role has come. */
  datatype Giver = Stays | Asks | Asked | Waits | Cuts | Cut | Gives | Gave | IsSink | NoGiver

  function GiverOf(p: Port): Giver {
    var entered := p.last == p.state;
    if p.state == SrcReady then if entered then Stays else NoGiver
    else if p.state == SrcSwapInit then if entered then Asked else Asks
    else if p.state == SrcSwapSnkDisable then Waits
    else if p.state == SrcSwapSrcDisable then if entered then Cut else Cuts
    else if p.state == SrcSwapStandby then if entered then Gave else Gives
    else if p.state == SnkDiscovery then IsSink
    else NoGiver
  }

  /** How far the port that takes it over has come. */
  datatype Taker = Keeps | Wants | Wanted | Idles | Turns | Turned | IsSource | Offers | NoTaker

  function TakerOf(p: Port): Taker {
    var entered := p.last == p.state;
    if p.state == SnkReady then if entered then Keeps else NoTaker
    else if p.state == SnkSwapInit then if entered then Wanted else Wants
    else if p.state == SnkSwapSrcDisable then Idles
    else if p.state == SnkSwapStandby && entered then Turns
    else if p.state == SnkSwapComplete then Turned
    else if p.state == SrcDiscovery then IsSource
    else if p.state == SrcNegociate then Offers
    else NoTaker
  }

  /** Nothing else to do: no vendor message, no renewal, no policy, no ping. */
  predicate Unoccupied(p: Port) {
    && TxOk(p) && p.vdm.state.VdmDone? && !p.request.pending && !PolicyDue(p)
    && !p.flags.updateSrcCaps && !p.flags.pingEnabled
    && (p.flags.snkCapRecvd || p.counters.snkCap > SNK_CAP_RETRIES)
  }

  /** An uneventful pass on a punctual clock; of the timers only those that pace the swap
      fire, and the detach check finds nothing amiss. */
  predicate Calm(p: Port, i: Input) {
    && Readable(i) && Timely(p.history.now, i.clock) && i.boardOk && !i.reset && i.supplyOk
    && CalmRest(HandlerPhase(BeforeHandler(p, i), i), i)
  }

  predicate CalmRest(h: Port, i: Input) {
    && (h.timer.at != 0 && i.clock.end >= h.timer.at ==>
          h.timer.next == SrcSwapSrcDisable || h.timer.next == SrcSwapStandby || h.timer.next == SnkSwapComplete)
    && var t := TimerPhase(h, i.clock.end);
       DetachPhase(t, i) == t
  }

  function Heard(k: Option<Packet>): Option<Signal> {
    if k.None? then None else Some(Meaning(k.value))
  }

  // ---- The giver ----

  /** Before the cut the giver supplies; until it has given up, it is the source. */
  predicate GiverSide(p: Port) {
    && Safe(p) && Ruled(p) && Unoccupied(p) && !GiverOf(p).NoGiver?
    && (GiverOf(p) != Gave && GiverOf(p) != IsSink ==> p.role.Source?)
    && (GiverOf(p) in {Stays, Asks, Asked, Waits, Cuts} ==> p.outputs.vbusOn)
  }

  /** What a step leaves as it is, as long as the giver may still supply. */
  predicate Holds(p: Port, q: Port) {
    && (GiverOf(q) != Gave ==> q.role == p.role)
    && (GiverOf(q) in {Stays, Asks, Asked, Waits, Cuts} ==> q.outputs.vbusOn == p.outputs.vbusOn)
  }

  /** What a giver does when it hears `sig` or nothing. */
  predicate GiverReacts(g: Giver, sig: Option<Signal>, h: Giver, said: seq<Signal>) {
    match g
    case Stays =>
      if sig == Some(Ask) then (h in {Waits, Cuts} && said == [Yes]) || (h == Stays && said == [No])
      else h == Stays && said == []
    case Asks => h == Asked && said == [Ask]
    case Asked =>
      if sig == Some(Yes) then h in {Waits, Cuts} && said == []
      else if sig == Some(No) then h == Stays && said == []
      else h == Asked && said == []
    case Waits => h in {Waits, Cuts} && said == []
    case Cuts => h in {Cut, Gives} && said == []
    case Cut => h in {Cut, Gives} && said == []
    case Gives => h == Gave && said == [Ready]
    case Gave => said == [] && h == if sig == Some(Ready) then IsSink else Gave
    case _ => true
  }

  /** What may reach it. */
  predicate GiverExpects(g: Giver, sig: Option<Signal>) {
    || sig.None?
    || (sig.value.Ask? && g == Stays)
    || ((sig.value.Yes? || sig.value.No?) && g == Asked)
    || (sig.value.Ready? && g == Gave)
  }

  lemma UneventfulPrefix(p: Port, i: Input)
    requires p.vdm.state.VdmDone? && i.boardOk && !i.reset
    ensures BeforeMessage(p, i) == p.(sent := NoFrames)
  {}

  lemma GiverWaitsOn(p: Port, i: Input)
    requires GiverSide(p) && Calm(p, i) && i.msg.None? && GiverOf(p) in {Asked, Waits, Cut, Gave}
    ensures var q := Pass(p, i);
            Unoccupied(q) && q.sent == NoFrames && GiverReacts(GiverOf(p), None, GiverOf(q), [])
            && Holds(p, q)
  {
    UneventfulPrefix(p, i);
  }

  /** One control message has been sent. */
  predicate SaysOne(q: Port, sig: Signal) {
    q.sent.Add? && q.sent.earlier.NoFrames? && q.sent.latest.Sop? && Meaning(q.sent.latest.packet) == sig
  }

  lemma OneIsSaid(q: Port, sig: Signal)
    requires SaysOne(q, sig)
    ensures Said(q) == [sig]
  {
    assert Packets(q.sent) == [q.sent.latest.packet];
  }

  lemma GiverStays(p: Port, i: Input)
    requires GiverSide(p) && Calm(p, i) && i.msg.None? && GiverOf(p) == Stays
    ensures var q := Pass(p, i);
            Unoccupied(q) && GiverOf(q) == Stays && q.sent == NoFrames && Holds(p, q)
  {
    UneventfulPrefix(p, i);
  }

  lemma GiverAsks(p: Port, i: Input)
    requires GiverSide(p) && Calm(p, i) && i.msg.None? && GiverOf(p) == Asks
    ensures var q := Pass(p, i);
            Unoccupied(q) && GiverOf(q) == Asked && SaysOne(q, Ask) && Holds(p, q)
  {
    UneventfulPrefix(p, i);
  }

  lemma GiverCuts(p: Port, i: Input)
    requires GiverSide(p) && Calm(p, i) && i.msg.None? && GiverOf(p) == Cuts
    ensures var q := Pass(p, i);
            Unoccupied(q) && GiverOf(q) in {Cut, Gives} && q.sent == NoFrames && Holds(p, q)
  {
    UneventfulPrefix(p, i);
  }

  lemma GiverGives(p: Port, i: Input)
    requires GiverSide(p) && Calm(p, i) && i.msg.None? && GiverOf(p) == Gives
    ensures var q := Pass(p, i);
            Unoccupied(q) && GiverOf(q) == Gave && SaysOne(q, Ready)
  {
    UneventfulPrefix(p, i);
  }

  lemma GiverActs(p: Port, i: Input)
    requires GiverSide(p) && Calm(p, i) && i.msg.None? && GiverOf(p) in {Stays, Asks, Cuts, Gives}
    ensures var q := Pass(p, i);
            Unoccupied(q) && GiverReacts(GiverOf(p), None, GiverOf(q), Said(q)) && Holds(p, q)
  {
    if GiverOf(p) == Stays {
      GiverStays(p, i);
    } else if GiverOf(p) == Asks {
      GiverAsks(p, i);
      OneIsSaid(Pass(p, i), Ask);
    } else if GiverOf(p) == Cuts {
      GiverCuts(p, i);
    } else {
      GiverGives(p, i);
      OneIsSaid(Pass(p, i), Ready);
    }
  }

  lemma AcceptsAsk(p: Port, i: Input, k: Packet)
    requires GiverSide(p) && Readable(i) && Delivers(i, Some(k)) && Meaning(k).Ask? && GiverOf(p) == Stays
    requires i.allowPowerSwap && p.sent == NoFrames
    ensures var b := MessagePhase(p, i);
            && b.state == SrcSwapSnkDisable && b.last == p.last && SaysOne(b, Yes) && Unoccupied(b)
            && b.role == p.role && b.outputs.vbusOn == p.outputs.vbusOn
            && b.timer == NO_TIMER
  {}

  lemma StartsWaiting(b: Port, i: Input)
    requires b.state == SrcSwapSnkDisable && b.role.Source? && Unoccupied(b) && b.timer == NO_TIMER && Readable(i)
    requires CalmRest(HandlerPhase(b, i), i)
    ensures var q := FromSwitch(b, i);
            && Unoccupied(q) && GiverOf(q) in {Waits, Cuts} && q.sent == b.sent && q.role == b.role
            && q.outputs.vbusOn == b.outputs.vbusOn
  {}

  lemma GiverAccepts(p: Port, i: Input, k: Packet)
    requires GiverSide(p) && Calm(p, i) && Delivers(i, Some(k)) && Meaning(k).Ask? && GiverOf(p) == Stays
    requires i.allowPowerSwap
    ensures var q := Pass(p, i);
            Unoccupied(q) && GiverOf(q) in {Waits, Cuts} && SaysOne(q, Yes) && Holds(p, q)
  {
    UneventfulPrefix(p, i);
    AcceptsAsk(p.(sent := NoFrames), i, k);
    StartsWaiting(BeforeHandler(p, i), i);
  }

  lemma RejectsAsk(p: Port, i: Input, k: Packet)
    requires Readable(i) && Delivers(i, Some(k)) && Meaning(k).Ask? && Connected(p) && !i.allowPowerSwap
    requires p.sent == NoFrames
    ensures var b := MessagePhase(p, i);
            b == p.(sent := b.sent) && SaysOne(b, No)
  {}

  /** From the switch on, a quiet ready source does nothing. */
  lemma SourceRests(b: Port, i: Input)
    requires b.state == SrcReady && b.role.Source? && Unoccupied(b) && b.timer.at == 0 && Readable(i)
    requires CalmRest(HandlerPhase(b, i), i)
    ensures var q := FromSwitch(b, i);
            Unoccupied(q) && GiverOf(q) == Stays && q.sent == b.sent && q.role == b.role
            && q.outputs.vbusOn == b.outputs.vbusOn
  {}

  lemma GiverRejects(p: Port, i: Input, k: Packet)
    requires GiverSide(p) && Calm(p, i) && Delivers(i, Some(k)) && Meaning(k).Ask? && GiverOf(p) == Stays
    requires !i.allowPowerSwap
    ensures var q := Pass(p, i);
            Unoccupied(q) && GiverOf(q) == Stays && SaysOne(q, No) && Holds(p, q)
  {
    UneventfulPrefix(p, i);
    RejectsAsk(p.(sent := NoFrames), i, k);
    SourceRests(BeforeHandler(p, i), i);
  }

  lemma GiverHearsAsk(p: Port, i: Input, k: Packet)
    requires GiverSide(p) && Calm(p, i) && Delivers(i, Some(k)) && Meaning(k).Ask? && GiverOf(p) == Stays
    ensures var q := Pass(p, i);
            Unoccupied(q) && GiverReacts(Stays, Some(Ask), GiverOf(q), Said(q)) && Holds(p, q)
  {
    if i.allowPowerSwap {
      GiverAccepts(p, i, k);
      OneIsSaid(Pass(p, i), Yes);
    } else {
      GiverRejects(p, i, k);
      OneIsSaid(Pass(p, i), No);
    }
  }

  /** The answer to its own PR_Swap. */
  lemma GiverFollows(p: Port, i: Input, k: Packet)
    requires p.state == SrcSwapInit && p.role.Source? && Unoccupied(p) && Readable(i) && Delivers(i, Some(k))
    requires Meaning(k).Yes? || Meaning(k).No?
    ensures var b := MessagePhase(p, i);
            && b == p.(state := b.state, timer := NO_TIMER, flags := b.flags) && Unoccupied(b)
            && b.state == if Meaning(k).Yes? then SrcSwapSnkDisable else SrcReady
  {}

  lemma GiverHearsAnswer(p: Port, i: Input, k: Packet)
    requires GiverSide(p) && Calm(p, i) && Delivers(i, Some(k)) && GiverOf(p) == Asked
    requires Meaning(k).Yes? || Meaning(k).No?
    ensures var q := Pass(p, i);
            Unoccupied(q) && GiverReacts(Asked, Some(Meaning(k)), GiverOf(q), Said(q)) && Holds(p, q)
  {
    UneventfulPrefix(p, i);
    GiverFollows(p.(sent := NoFrames), i, k);
    if Meaning(k).Yes? {
      StartsWaiting(BeforeHandler(p, i), i);
    } else {
      SourceRests(BeforeHandler(p, i), i);
    }
  }

  lemma BecomesSink(p: Port, i: Input, k: Packet)
    requires p.state == SrcSwapStandby && Readable(i) && Delivers(i, Some(k)) && Meaning(k).Ready? && Unoccupied(p)
    ensures var b := MessagePhase(p, i);
            && b.state == SnkDiscovery && b.role.Sink? && b.timer == NO_TIMER && b.sent == p.sent && Unoccupied(b)
            && b.last == p.last
  {}

  lemma StartsAsSink(b: Port, i: Input)
    requires b.state == SnkDiscovery && b.last != SnkDiscovery && b.role.Sink? && Unoccupied(b) && Readable(i)
    requires b.timer == NO_TIMER && CalmRest(HandlerPhase(b, i), i)
    ensures var q := FromSwitch(b, i);
            Unoccupied(q) && GiverOf(q) == IsSink && q.sent == b.sent && q.role.Sink?
  {}

  lemma GiverHearsReady(p: Port, i: Input, k: Packet)
    requires GiverSide(p) && Calm(p, i) && Delivers(i, Some(k)) && Meaning(k).Ready? && GiverOf(p) == Gave
    ensures var q := Pass(p, i);
            Unoccupied(q) && GiverOf(q) == IsSink && q.sent == NoFrames && q.role.Sink?
  {
    UneventfulPrefix(p, i);
    BecomesSink(p.(sent := NoFrames), i, k);
    StartsAsSink(BeforeHandler(p, i), i);
  }

  /** The five messages that break the rules of the power path do not reach it. */
  lemma GiverUnharmed(p: Port, i: Input, k: Option<Packet>)
    requires GiverSide(p) && Calm(p, i) && Delivers(i, k) && GiverExpects(GiverOf(p), Heard(k))
    ensures !Harmful(p, Poll(i))
  {
    UneventfulPrefix(p, i);
  }

  lemma GiverPass(p: Port, i: Input, k: Option<Packet>)
    requires GiverSide(p) && GiverOf(p) != IsSink && Calm(p, i) && Delivers(i, k)
    requires GiverExpects(GiverOf(p), Heard(k))
    ensures var q := Pass(p, i);
            GiverSide(q) && GiverReacts(GiverOf(p), Heard(k), GiverOf(q), Said(q))
  {
    PassKeeps(p, i);
    GiverUnharmed(p, i, k);
    PassRules(p, i);
    if k.None? {
      if GiverOf(p) in {Stays, Asks, Cuts, Gives} {
        GiverActs(p, i);
      } else {
        GiverWaitsOn(p, i);
      }
    } else if Meaning(k.value).Ask? {
      GiverHearsAsk(p, i, k.value);
    } else if Meaning(k.value).Ready? {
      GiverHearsReady(p, i, k.value);
    } else {
      GiverHearsAnswer(p, i, k.value);
    }
  }

  // ---- The taker ----

  predicate Driving(t: Taker) { t in {Turns, Turned, IsSource, Offers} }

  /** From the turn on the taker supplies. */
  predicate TakerSide(p: Port) {
    Safe(p) && Ruled(p) && Unoccupied(p) && !TakerOf(p).NoTaker? && (Driving(TakerOf(p)) ==> p.outputs.vbusOn)
  }

  predicate Lights(p: Port, q: Port) {
    Driving(TakerOf(q)) && (Driving(TakerOf(p)) ==> p.outputs.vbusOn) ==> q.outputs.vbusOn
  }

  predicate TakerReacts(g: Taker, sig: Option<Signal>, h: Taker, said: seq<Signal>) {
    match g
    case Keeps =>
      if sig == Some(Ask) then (h == Idles && said == [Yes]) || (h == Keeps && said == [No])
      else h == Keeps && said == []
    case Wants => h == Wanted && said == [Ask]
    case Wanted =>
      said == [] && h == if sig == Some(Yes) then Idles else if sig == Some(No) then Keeps else Wanted
    case Idles => said == [] && if sig == Some(Ready) then h in {Turns, Turned} else h == Idles
    case Turns => said == [] && h in {Turns, Turned}
    case Turned => h == IsSource && said == [Ready]
    case IsSource => h in {IsSource, Offers}
    case Offers => h == Offers
    case NoTaker => true
  }

  predicate TakerExpects(g: Taker, sig: Option<Signal>) {
    || sig.None?
    || (sig.value.Ask? && g == Keeps)
    || ((sig.value.Yes? || sig.value.No?) && g == Wanted)
    || (sig.value.Ready? && g == Idles)
  }

  lemma TakerWaitsOn(p: Port, i: Input)
    requires TakerSide(p) && Calm(p, i) && i.msg.None? && TakerOf(p) in {Wanted, Idles, Turns, Offers}
    ensures var q := Pass(p, i);
            Unoccupied(q) && Lights(p, q) && q.sent == NoFrames && TakerReacts(TakerOf(p), None, TakerOf(q), [])
  {
    UneventfulPrefix(p, i);
  }

  lemma TakerWants(p: Port, i: Input)
    requires TakerSide(p) && Calm(p, i) && i.msg.None? && TakerOf(p) == Wants
    ensures var q := Pass(p, i);
            Unoccupied(q) && Lights(p, q) && TakerOf(q) == Wanted && SaysOne(q, Ask)
  {
    UneventfulPrefix(p, i);
  }

  lemma TakesOver(b: Port, i: Input)
    requires b.state == SnkSwapComplete && b.timer.at == 0 && Unoccupied(b) && b.sent == NoFrames && Readable(i)
    requires CalmRest(HandlerPhase(b, i), i)
    ensures var q := FromSwitch(b, i);
            Unoccupied(q) && TakerOf(q) == IsSource && SaysOne(q, Ready) && q.outputs.vbusOn == b.outputs.vbusOn
  {}

  lemma TakerTakes(p: Port, i: Input)
    requires TakerSide(p) && Calm(p, i) && i.msg.None? && TakerOf(p) == Turned
    ensures var q := Pass(p, i);
            Unoccupied(q) && Lights(p, q) && TakerOf(q) == IsSource && SaysOne(q, Ready)
  {
    UneventfulPrefix(p, i);
    TakesOver(p.(sent := NoFrames), i);
  }

  lemma MovesOn(b: Port, i: Input)
    requires b.state == SrcDiscovery && Unoccupied(b) && Readable(i) && CalmRest(HandlerPhase(b, i), i)
    requires b.timer.at != 0 ==> Successor(SrcDiscovery, b.timer.next)
    ensures var q := FromSwitch(b, i);
            Unoccupied(q) && TakerOf(q) in {IsSource, Offers} && q.outputs.vbusOn == b.outputs.vbusOn
  {
    var h := Handle(b, i);
    Advertises(b, i);
    assert HandlerPhase(b, i) == Closed(h, b, i);
  }

  lemma Advertises(b: Port, i: Input)
    requires b.state == SrcDiscovery && Unoccupied(b) && Readable(i)
    requires b.timer.at != 0 ==> Successor(SrcDiscovery, b.timer.next)
    ensures var h := Handle(b, i);
            && (h.state == SrcDiscovery || h.state == SrcNegociate) && Unoccupied(h)
            && h.outputs.vbusOn == b.outputs.vbusOn
            && (h.timer.at != 0 ==> Successor(SrcDiscovery, h.timer.next))
  {
    ArmsQuietly(b, i);
    OffersQuietly(ArmNoResponse(b, i));
  }

  lemma ArmsQuietly(b: Port, i: Input)
    requires b.state == SrcDiscovery && Unoccupied(b) && (b.timer.at != 0 ==> Successor(SrcDiscovery, b.timer.next))
    ensures var c := ArmNoResponse(b, i);
            c == b.(timer := c.timer) && (c.timer.at != 0 ==> Successor(SrcDiscovery, c.timer.next))
  {}

  lemma OffersQuietly(c: Port)
    requires c.state == SrcDiscovery && Unoccupied(c) && (c.timer.at != 0 ==> Successor(SrcDiscovery, c.timer.next))
    ensures var h := Advertise(c);
            && (h.state == SrcDiscovery || h.state == SrcNegociate) && Unoccupied(h)
            && h.outputs.vbusOn == c.outputs.vbusOn
            && (h.timer.at != 0 ==> Successor(SrcDiscovery, h.timer.next))
  {
    if c.counters.caps < CAPS_COUNT {
    }
  }

  lemma TakerOffers(p: Port, i: Input)
    requires TakerSide(p) && Calm(p, i) && i.msg.None? && TakerOf(p) == IsSource
    ensures var q := Pass(p, i);
            Unoccupied(q) && Lights(p, q) && TakerOf(q) in {IsSource, Offers}
  {
    UneventfulPrefix(p, i);
    MovesOn(p.(sent := NoFrames), i);
  }

  lemma TakerActs(p: Port, i: Input)
    requires TakerSide(p) && Calm(p, i) && i.msg.None? && TakerOf(p) in {Wants, Turned, IsSource}
    ensures var q := Pass(p, i);
            Unoccupied(q) && Lights(p, q) && TakerReacts(TakerOf(p), None, TakerOf(q), Said(q))
  {
    if TakerOf(p) == Wants {
      TakerWants(p, i);
      OneIsSaid(Pass(p, i), Ask);
    } else if TakerOf(p) == Turned {
      TakerTakes(p, i);
      OneIsSaid(Pass(p, i), Ready);
    } else {
      TakerOffers(p, i);
    }
  }

  lemma TakerKeepsStill(p: Port, i: Input)
    requires TakerSide(p) && Calm(p, i) && i.msg.None? && TakerOf(p) == Keeps
    ensures var q := Pass(p, i);
            Unoccupied(q) && Lights(p, q) && TakerOf(q) == Keeps && q.sent == NoFrames
  {
    UneventfulPrefix(p, i);
  }

  /** From the switch on, a quiet ready sink does nothing. */
  lemma SinkRests(b: Port, i: Input)
    requires b.state == SnkReady && Unoccupied(b) && b.timer.at == 0 && Readable(i) && CalmRest(HandlerPhase(b, i), i)
    ensures var q := FromSwitch(b, i);
            Unoccupied(q) && TakerOf(q) == Keeps && q.sent == b.sent
  {}

  /** A sink that has agreed stops drawing and waits for the source to give up. */
  lemma StartsIdling(b: Port, i: Input)
    requires b.state == SnkSwapSnkDisable && Unoccupied(b) && b.timer.at == 0 && Readable(i)
    requires b.last != SnkSwapSrcDisable && CalmRest(HandlerPhase(b, i), i)
    ensures var q := FromSwitch(b, i);
            Unoccupied(q) && TakerOf(q) == Idles && q.sent == b.sent
  {}

  lemma TakerAccepts(p: Port, i: Input, k: Packet)
    requires TakerSide(p) && Calm(p, i) && Delivers(i, Some(k)) && Meaning(k).Ask? && TakerOf(p) == Keeps
    requires p.role.Sink? && i.allowPowerSwap
    ensures var q := Pass(p, i);
            Unoccupied(q) && Lights(p, q) && TakerOf(q) == Idles && SaysOne(q, Yes)
  {
    UneventfulPrefix(p, i);
  }

  lemma TakerRejects(p: Port, i: Input, k: Packet)
    requires TakerSide(p) && Calm(p, i) && Delivers(i, Some(k)) && Meaning(k).Ask? && TakerOf(p) == Keeps
    requires p.role.Sink? && !i.allowPowerSwap
    ensures var q := Pass(p, i);
            Unoccupied(q) && Lights(p, q) && TakerOf(q) == Keeps && SaysOne(q, No)
  {
    UneventfulPrefix(p, i);
    RejectsAsk(p.(sent := NoFrames), i, k);
    SinkRests(BeforeHandler(p, i), i);
  }

  lemma TakerHearsAsk(p: Port, i: Input, k: Packet)
    requires TakerSide(p) && Calm(p, i) && Delivers(i, Some(k)) && Meaning(k).Ask? && TakerOf(p) == Keeps
    requires p.role.Sink?
    ensures var q := Pass(p, i);
            Unoccupied(q) && Lights(p, q) && TakerReacts(Keeps, Some(Ask), TakerOf(q), Said(q))
  {
    if i.allowPowerSwap {
      TakerAccepts(p, i, k);
      OneIsSaid(Pass(p, i), Yes);
    } else {
      TakerRejects(p, i, k);
      OneIsSaid(Pass(p, i), No);
    }
  }

  lemma TakerFollows(p: Port, i: Input, k: Packet)
    requires p.state == SnkSwapInit && Connected(p) && Unoccupied(p) && Readable(i) && Delivers(i, Some(k))
    requires Meaning(k).Yes? || Meaning(k).No?
    ensures var b := MessagePhase(p, i);
            && b == p.(state := b.state, timer := NO_TIMER, flags := b.flags) && Unoccupied(b)
            && b.state == if Meaning(k).Yes? then SnkSwapSnkDisable else SnkReady
  {}

  lemma TakerHearsAnswer(p: Port, i: Input, k: Packet)
    requires TakerSide(p) && Calm(p, i) && Delivers(i, Some(k)) && TakerOf(p) == Wanted
    requires Meaning(k).Yes? || Meaning(k).No?
    ensures var q := Pass(p, i);
            Unoccupied(q) && Lights(p, q) && TakerReacts(Wanted, Some(Meaning(k)), TakerOf(q), Said(q))
  {
    UneventfulPrefix(p, i);
    TakerFollows(p.(sent := NoFrames), i, k);
    if Meaning(k).Yes? {
      StartsIdling(BeforeHandler(p, i), i);
    } else {
      SinkRests(BeforeHandler(p, i), i);
    }
  }

  lemma HearsGiverOff(p: Port, i: Input, k: Packet)
    requires p.state == SnkSwapSrcDisable && Connected(p) && Unoccupied(p) && Readable(i) && Delivers(i, Some(k))
    requires Meaning(k).Ready?
    ensures MessagePhase(p, i) == p.(state := SnkSwapStandby, timer := NO_TIMER)
  {}

  lemma TurnsOn(b: Port, i: Input)
    requires b.state == SnkSwapStandby && b.last != SnkSwapStandby && b.timer.at == 0 && Unoccupied(b) && Readable(i)
    requires i.supplyOk && CalmRest(HandlerPhase(b, i), i)
    ensures var q := FromSwitch(b, i);
            Unoccupied(q) && TakerOf(q) in {Turns, Turned} && q.outputs.vbusOn && q.sent == b.sent
  {}

  lemma TakerHearsReady(p: Port, i: Input, k: Packet)
    requires TakerSide(p) && Calm(p, i) && Delivers(i, Some(k)) && Meaning(k).Ready? && TakerOf(p) == Idles
    ensures var q := Pass(p, i);
            Unoccupied(q) && Lights(p, q) && TakerOf(q) in {Turns, Turned} && q.sent == NoFrames
  {
    UneventfulPrefix(p, i);
    HearsGiverOff(p.(sent := NoFrames), i, k);
    TurnsOn(BeforeHandler(p, i), i);
  }

  lemma TakerUnharmed(p: Port, i: Input, k: Option<Packet>)
    requires TakerSide(p) && Calm(p, i) && Delivers(i, k) && TakerExpects(TakerOf(p), Heard(k))
    ensures !Harmful(p, Poll(i))
  {
    UneventfulPrefix(p, i);
  }

  lemma TakerPass(p: Port, i: Input, k: Option<Packet>)
    requires TakerSide(p) && Calm(p, i) && Delivers(i, k) && TakerExpects(TakerOf(p), Heard(k))
    ensures var q := Pass(p, i);
            TakerSide(q) && TakerReacts(TakerOf(p), Heard(k), TakerOf(q), Said(q))
  {
    PassKeeps(p, i);
    TakerUnharmed(p, i, k);
    PassRules(p, i);
    if k.None? {
      if TakerOf(p) in {Wants, Turned, IsSource} {
        TakerActs(p, i);
      } else if TakerOf(p) == Keeps {
        TakerKeepsStill(p, i);
      } else {
        TakerWaitsOn(p, i);
      }
    } else if Meaning(k.value).Ask? {
      TakerHearsAsk(p, i, k.value);
    } else if Meaning(k.value).Ready? {
      TakerHearsReady(p, i, k.value);
    } else {
      TakerHearsAnswer(p, i, k.value);
    }
  }

  // ---- Both sides and what is on its way ----

  /** The giver has agreed, and is on its way out. */
  predicate Giving(g: Giver) { g in {Waits, Cuts, Cut, Gives, Gave} }

  function Report(g: Giver): seq<Signal> { if g == Gave then [Ready] else [] }

  /** What may be on its way to the taker (`down`) and to the giver (`up`). */
  predicate InStep(g: Giver, t: Taker, down: seq<Signal>, up: seq<Signal>) {
    match t
    case Keeps =>
      || ((g == Stays || g == Asks) && down == [] && up == [])
      || (g == Asked && ((down == [Ask] && up == []) || (down == [] && up == [No])))
    case Wants => g == Stays && down == [] && up == []
    case Wanted =>
      || (g == Stays && ((down == [] && up == [Ask]) || (down == [No] && up == [])))
      || (Giving(g) && up == [] && down == [Yes] + Report(g))
    case Idles =>
      || (g == Asked && down == [] && up == [Yes])
      || (Giving(g) && up == [] && down == Report(g))
    case Turns => g == Gave && down == [] && up == []
    case Turned => g == Gave && down == [] && up == []
    case NoTaker => false
    case _ => down == [] && (g == IsSink || (g == Gave && up != [] && up[0] == Ready))
  }

  function Single(sig: Option<Signal>): seq<Signal> { if sig.None? then [] else [sig.value] }

  /** The giver hears the oldest signal on its way, or nothing. */
  lemma GiverKeepsStep(g: Giver, t: Taker, down: seq<Signal>, up: seq<Signal>, sig: Option<Signal>,
                       rest: seq<Signal>, h: Giver, said: seq<Signal>)
    requires InStep(g, t, down, up) && up == Single(sig) + rest && g != IsSink
    ensures GiverExpects(g, sig)
    ensures GiverReacts(g, sig, h, said) ==> InStep(h, t, down + said, rest)
  {
    assert down + [] == down && [] + said == said;
    if sig.Some? {
      assert up[0] == sig.value && up[1..] == rest;
    }
    assert [Yes] + [] == [Yes] && [Yes] + [Ready] == [Yes, Ready];
  }

  lemma TakerKeepsStep(g: Giver, t: Taker, down: seq<Signal>, up: seq<Signal>, sig: Option<Signal>,
                       rest: seq<Signal>, h: Taker, said: seq<Signal>)
    requires InStep(g, t, down, up) && down == Single(sig) + rest
    ensures TakerExpects(t, sig)
    ensures TakerReacts(t, sig, h, said) ==> InStep(g, h, rest, up + said)
  {
    assert up + [] == up && [] + said == said;
    if sig.Some? {
      assert down[0] == sig.value && down[1..] == rest;
    }
    if Giving(g) {
      assert ([Yes] + Report(g))[1..] == Report(g);
    }
  }

  // ---- The pair ----

  datatype Pair = Pair(giver: Port, taker: Port, down: Channel, up: Channel)

  predicate Agreed(l: Pair) {
    && GiverSide(l.giver) && TakerSide(l.taker)
    && InStep(GiverOf(l.giver), TakerOf(l.taker), Signals(l.down), Signals(l.up))
  }

  /** A port passes, with or without the oldest message on its way to it; is notified that its
      message was delivered; or is asked by its application to swap, while neither has asked
      yet. */
  datatype Move =
    | GiverPolls(i: Input, delivery: bool)
    | TakerPolls(i: Input, delivery: bool)
    | GiverSent
    | TakerSent
    | GiverCalled
    | TakerCalled

  /** Up to the moment at which the former source has become a sink. */
  predicate Possible(l: Pair, m: Move) {
    var rests := GiverOf(l.giver) == Stays && TakerOf(l.taker) == Keeps;
    match m
    case GiverPolls(i, delivery) => GiverOf(l.giver) != IsSink && Arrives(i, l.up, delivery) && Calm(l.giver, i)
    case TakerPolls(i, delivery) => Arrives(i, l.down, delivery) && Calm(l.taker, i)
    case GiverCalled => rests
    case TakerCalled => rests
    case _ => true
  }

  function Next(l: Pair, m: Move): Pair
    requires Possible(l, m)
  {
    match m
    case GiverPolls(i, delivery) =>
      var q := Pass(l.giver, i);
      l.(giver := q, up := Taken(l.up, delivery), down := l.down + Packets(q.sent))
    case TakerPolls(i, delivery) =>
      var q := Pass(l.taker, i);
      l.(taker := q, down := Taken(l.down, delivery), up := l.up + Packets(q.sent))
    case GiverSent => l.(giver := TransmitComplete(l.giver, TxSuccess))
    case TakerSent => l.(taker := TransmitComplete(l.taker, TxSuccess))
    case GiverCalled => l.(giver := RequestPowerSwap(l.giver))
    case TakerCalled => l.(taker := RequestPowerSwap(l.taker))
  }

  lemma SignalsAppend(a: Channel, b: Channel)
    ensures Signals(a + b) == Signals(a) + Signals(b)
  {}

  lemma SignalsTaken(c: Channel, delivery: bool)
    requires delivery ==> c != []
    ensures Signals(c) == Single(Heard(First(c, delivery))) + Signals(Taken(c, delivery))
  {}

  lemma GiverPollsAgree(l: Pair, i: Input, delivery: bool)
    requires Agreed(l) && Possible(l, GiverPolls(i, delivery))
    ensures Agreed(Next(l, GiverPolls(i, delivery)))
  {
    var k := First(l.up, delivery);
    var q := Pass(l.giver, i);
    SignalsTaken(l.up, delivery);
    GiverKeepsStep(GiverOf(l.giver), TakerOf(l.taker), Signals(l.down), Signals(l.up), Heard(k),
                   Signals(Taken(l.up, delivery)), GiverOf(q), Said(q));
    GiverPass(l.giver, i, k);
    SignalsAppend(l.down, Packets(q.sent));
  }

  lemma TakerPollsAgree(l: Pair, i: Input, delivery: bool)
    requires Agreed(l) && Possible(l, TakerPolls(i, delivery))
    ensures Agreed(Next(l, TakerPolls(i, delivery)))
  {
    var k := First(l.down, delivery);
    var q := Pass(l.taker, i);
    SignalsTaken(l.down, delivery);
    TakerKeepsStep(GiverOf(l.giver), TakerOf(l.taker), Signals(l.down), Signals(l.up), Heard(k),
                   Signals(Taken(l.down, delivery)), TakerOf(q), Said(q));
    TakerPass(l.taker, i, k);
    SignalsAppend(l.up, Packets(q.sent));
  }

  lemma NoticeAgrees(p: Port)
    ensures var q := TransmitComplete(p, TxSuccess);
            && (GiverSide(p) ==> GiverSide(q) && GiverOf(q) == GiverOf(p))
            && (TakerSide(p) ==> TakerSide(q) && TakerOf(q) == TakerOf(p))
  {
    if Safe(p) {
      NoticeKeeps(p, TxSuccess);
    }
    if Ruled(p) {
      NotifiedRules(p, true, TxSuccess);
    }
  }

  lemma GiverCallAgrees(p: Port)
    requires GiverSide(p) && GiverOf(p) == Stays
    ensures GiverSide(RequestPowerSwap(p)) && GiverOf(RequestPowerSwap(p)) == Asks
  {
    SwapCallsKeep(p);
    SwapCallRules(p);
  }

  lemma TakerCallAgrees(p: Port)
    requires TakerSide(p) && TakerOf(p) == Keeps
    ensures TakerSide(RequestPowerSwap(p)) && TakerOf(RequestPowerSwap(p)) == Wants
  {
    SwapCallsKeep(p);
    SwapCallRules(p);
  }

  lemma MoveAgrees(l: Pair, m: Move)
    requires Agreed(l) && Possible(l, m)
    ensures Agreed(Next(l, m))
  {
    match m
    case GiverPolls(i, delivery) => GiverPollsAgree(l, i, delivery);
    case TakerPolls(i, delivery) => TakerPollsAgree(l, i, delivery);
    case GiverSent => NoticeAgrees(l.giver);
    case TakerSent => NoticeAgrees(l.taker);
    case GiverCalled => GiverCallAgrees(l.giver);
    case TakerCalled => TakerCallAgrees(l.taker);
  }

  ghost predicate Course(l: Pair, moves: seq<Move>)
    decreases |moves|
  {
    moves == [] || (Possible(l, moves[0]) && Course(Next(l, moves[0]), moves[1..]))
  }

  ghost function Outcome(l: Pair, moves: seq<Move>): Pair
    requires Course(l, moves)
    decreases |moves|
  {
    if moves == [] then l else Outcome(Next(l, moves[0]), moves[1..])
  }

  lemma {:induction false} CourseAgrees(l: Pair, moves: seq<Move>)
    requires Agreed(l) && Course(l, moves)
    ensures Agreed(Outcome(l, moves))
    decreases |moves|
  {
    if moves != [] {
      MoveAgrees(l, moves[0]);
      CourseAgrees(Next(l, moves[0]), moves[1..]);
    }
  }

  // ---- What it means ----

  /** A source with its supply on and a sink, both ready and quiet, nothing on its way. */
  predicate Start(l: Pair) {
    && Safe(l.giver) && Ruled(l.giver) && Unoccupied(l.giver) && Safe(l.taker) && Ruled(l.taker) && Unoccupied(l.taker)
    && l.giver.state == SrcReady && l.giver.last == SrcReady && l.giver.outputs.vbusOn
    && l.taker.state == SnkReady && l.taker.last == SnkReady && l.down == [] && l.up == []
  }

  lemma StartAgrees(l: Pair)
    requires Start(l)
    ensures Agreed(l)
  {}

  predicate IsSupplying(p: Port) { p.role.Source? && p.outputs.pull.Rp? && p.outputs.vbusOn }

  predicate IsSinking(p: Port) { p.role.Sink? && p.outputs.pull.Rd? && !p.outputs.vbusOn }

  /** At every moment at most one of the ports drives VBUS and at most one presents Rp. */
  predicate NeverBoth(l: Pair) {
    !(l.giver.outputs.vbusOn && l.taker.outputs.vbusOn) && !(l.giver.outputs.pull.Rp? && l.taker.outputs.pull.Rp?)
  }

  /** A sink that still draws after the cut has the source's Accept on its way to it. */
  predicate CutInTime(l: Pair) {
    l.taker.role.Sink? && l.taker.outputs.limit != Power(0, 0) && !l.giver.outputs.vbusOn ==>
      l.taker.state == SnkSwapInit && l.down != [] && l.down[0].IsControl(ACCEPT)
  }

  /** Between attempts the roles are the old ones; once the giver is a sink, they are
      exchanged. */
  predicate RolesFollow(l: Pair) {
    && (l.giver.state == SrcReady && l.taker.state == SnkReady ==> IsSupplying(l.giver) && IsSinking(l.taker))
    && (l.giver.state == SnkDiscovery ==> IsSinking(l.giver) && IsSupplying(l.taker))
  }

  lemma AgreedIsSafe(l: Pair)
    requires Agreed(l)
    ensures NeverBoth(l) && RolesFollow(l)
  {
    if TakerOf(l.taker) in {Keeps, Wants, Wanted, Idles} {
    } else if GiverOf(l.giver) == Gave {
    }
  }

  lemma AgreedCutsInTime(l: Pair)
    requires Agreed(l)
    ensures CutInTime(l)
  {
    if TakerOf(l.taker) == Wanted && Giving(GiverOf(l.giver)) {
      assert Signals(l.down)[0] == Yes;
    }
  }

  /** Every swap, asked for by either side, accepted or rejected, any number of times, in
      every interleaving. */
  lemma SwapIsSafe(l: Pair, moves: seq<Move>)
    requires Start(l) && Course(l, moves)
    ensures var o := Outcome(l, moves);
            NeverBoth(o) && CutInTime(o) && RolesFollow(o)
  {
    StartAgrees(l);
    CourseAgrees(l, moves);
    AgreedIsSafe(Outcome(l, moves));
    AgreedCutsInTime(Outcome(l, moves));
  }
}
