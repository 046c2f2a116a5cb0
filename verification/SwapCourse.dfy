/** The agreement of PowerSwap is not empty: from every start a call and eight passes, on
    clocks that do not run backwards, exchange the roles. */
module SwapCourse {
  import opened PdWords
  import opened PowerPolicy
  import opened PortState
  import opened PortMachine
  import opened PortRuns
  import opened PortSafety
  import opened PortPower
  import opened PowerSwap
  import opened Wires
  import Negotiation

  /** An uneventful pass that allows a swap and lasts `span`. */
  function Allowing(p: Port, msg: Option<Message>, span: nat): Input {
    Negotiation.Still(p, msg, span).(allowPowerSwap := true)
  }

  function Bringing(p: Port, k: Packet, span: nat): Input { Allowing(p, Some(k.Encode()), span) }

  lemma StepAsking(p: Port)
    requires GiverSide(p) && GiverOf(p) == Asks
    ensures var i := Allowing(p, None, 0);
            Calm(p, i) && GiverOf(Pass(p, i)) == Asked
  {
    UneventfulPrefix(p, Allowing(p, None, 0));
  }

  lemma StepAgreeing(p: Port, k: Packet)
    requires TakerSide(p) && TakerOf(p) == Keeps && p.role.Sink? && Meaning(k).Ask?
    ensures var i := Bringing(p, k, 0);
            Calm(p, i) && TakerOf(Pass(p, i)) == Idles
  {
    UneventfulPrefix(p, Bringing(p, k, 0));
  }

  lemma StepWaiting(p: Port, k: Packet)
    requires GiverSide(p) && GiverOf(p) == Asked && Meaning(k).Yes?
    ensures var i := Bringing(p, k, T_SINK_TRANSITION);
            Calm(p, i) && GiverOf(Pass(p, i)) == Cuts
  {
    var i := Bringing(p, k, T_SINK_TRANSITION);
    UneventfulPrefix(p, i);
    GiverFollows(p.(sent := NoFrames), i, k);
    FinishesWaiting(BeforeHandler(p, i), i);
  }

  lemma FinishesWaiting(b: Port, i: Input)
    requires b.state == SrcSwapSnkDisable && b.last != SrcSwapSnkDisable && b.timer == NO_TIMER
    requires Readable(i) && i.clock.end == i.clock.run + T_SINK_TRANSITION
    ensures CalmRest(HandlerPhase(b, i), i) && GiverOf(FromSwitch(b, i)) == Cuts
  {}

  lemma StepCutting(p: Port)
    requires GiverSide(p) && GiverOf(p) == Cuts
    ensures var i := Allowing(p, None, SUPPLY_TURN_OFF);
            Calm(p, i) && GiverOf(Pass(p, i)) == Gives
  {
    UneventfulPrefix(p, Allowing(p, None, SUPPLY_TURN_OFF));
  }

  lemma StepGivingUp(p: Port)
    requires GiverSide(p) && GiverOf(p) == Gives
    ensures var i := Allowing(p, None, 0);
            Calm(p, i) && GiverOf(Pass(p, i)) == Gave
  {
    UneventfulPrefix(p, Allowing(p, None, 0));
  }

  lemma StepTurning(p: Port, k: Packet)
    requires TakerSide(p) && TakerOf(p) == Idles && p.role.Sink? && Meaning(k).Ready?
    ensures var i := Bringing(p, k, SUPPLY_TURN_ON);
            Calm(p, i) && TakerOf(Pass(p, i)) == Turned
  {
    var i := Bringing(p, k, SUPPLY_TURN_ON);
    UneventfulPrefix(p, i);
    HearsGiverOff(p.(sent := NoFrames), i, k);
    FinishesTurning(BeforeHandler(p, i), i);
  }

  lemma FinishesTurning(b: Port, i: Input)
    requires b.state == SnkSwapStandby && b.last != SnkSwapStandby && b.timer.at == 0
    requires Readable(i) && i.supplyOk && i.clock.end == i.clock.run + SUPPLY_TURN_ON
    ensures CalmRest(HandlerPhase(b, i), i) && TakerOf(FromSwitch(b, i)) == Turned
  {}

  lemma StepTaking(p: Port)
    requires TakerSide(p) && TakerOf(p) == Turned
    ensures var i := Allowing(p, None, 0);
            Calm(p, i) && TakerOf(Pass(p, i)) == IsSource
  {
    UneventfulPrefix(p, Allowing(p, None, 0));
  }

  lemma SinkingIsCalm(b: Port, i: Input)
    requires b.state == SnkDiscovery && b.last != SnkDiscovery && b.role.Sink? && b.timer == NO_TIMER
    requires Readable(i) && Ordered(i.clock) && i.clock.end == i.clock.run && i.vbusEnd
    ensures CalmRest(HandlerPhase(b, i), i)
  {}

  lemma StepSinking(p: Port, k: Packet)
    requires GiverSide(p) && GiverOf(p) == Gave && Meaning(k).Ready?
    ensures var i := Bringing(p, k, 0);
            Calm(p, i) && GiverOf(Pass(p, i)) == IsSink
  {
    var i := Bringing(p, k, 0);
    UneventfulPrefix(p, i);
    BecomesSink(p.(sent := NoFrames), i, k);
    SinkingIsCalm(BeforeHandler(p, i), i);
    StartsAsSink(BeforeHandler(p, i), i);
  }

  // ---- The steps of the pair ----

  /** Where both ports are, and what is on its way. */
  predicate Stage(l: Pair, g: Giver, t: Taker, down: seq<PowerSwap.Signal>, up: seq<PowerSwap.Signal>) {
    && Agreed(l) && GiverOf(l.giver) == g && TakerOf(l.taker) == t
    && Signals(l.down) == down && Signals(l.up) == up
  }

  lemma GiverStep(l: Pair, i: Input, delivery: bool)
    requires Agreed(l) && Possible(l, GiverPolls(i, delivery))
    ensures var n := Next(l, GiverPolls(i, delivery));
            && Agreed(n) && n.taker == l.taker && n.giver == Pass(l.giver, i)
            && GiverReacts(GiverOf(l.giver), Heard(First(l.up, delivery)), GiverOf(n.giver), Said(n.giver))
            && Signals(n.down) == Signals(l.down) + Said(n.giver) && n.up == Taken(l.up, delivery)
  {
    GiverPollsAgree(l, i, delivery);
    var k := First(l.up, delivery);
    SignalsTaken(l.up, delivery);
    GiverKeepsStep(GiverOf(l.giver), TakerOf(l.taker), Signals(l.down), Signals(l.up), Heard(k),
                   Signals(Taken(l.up, delivery)), GiverOf(Pass(l.giver, i)), Said(Pass(l.giver, i)));
    GiverPass(l.giver, i, k);
    SignalsAppend(l.down, Packets(Pass(l.giver, i).sent));
  }

  lemma TakerStep(l: Pair, i: Input, delivery: bool)
    requires Agreed(l) && Possible(l, TakerPolls(i, delivery))
    ensures var n := Next(l, TakerPolls(i, delivery));
            && Agreed(n) && n.giver == l.giver && n.taker == Pass(l.taker, i)
            && TakerReacts(TakerOf(l.taker), Heard(First(l.down, delivery)), TakerOf(n.taker), Said(n.taker))
            && Signals(n.up) == Signals(l.up) + Said(n.taker) && n.down == Taken(l.down, delivery)
  {
    TakerPollsAgree(l, i, delivery);
    var k := First(l.down, delivery);
    SignalsTaken(l.down, delivery);
    TakerKeepsStep(GiverOf(l.giver), TakerOf(l.taker), Signals(l.down), Signals(l.up), Heard(k),
                   Signals(Taken(l.down, delivery)), TakerOf(Pass(l.taker, i)), Said(Pass(l.taker, i)));
    TakerPass(l.taker, i, k);
    SignalsAppend(l.up, Packets(Pass(l.taker, i).sent));
  }

  lemma FromReport(l: Pair) returns (moves: seq<Move>)
    requires Stage(l, Gave, IsSource, [], [Ready])
    ensures |moves| == 1 && Course(l, moves) && GiverOf(Outcome(l, moves).giver) == IsSink
  {
    assert Meaning(l.up[0]) == Signals(l.up)[0];
    StepSinking(l.giver, l.up[0]);
    moves := [GiverPolls(Bringing(l.giver, l.up[0], 0), true)];
    assert moves[1..] == [];
  }

  lemma FromTurned(l: Pair) returns (moves: seq<Move>)
    requires Stage(l, Gave, Turned, [], [])
    ensures |moves| == 2 && Course(l, moves) && GiverOf(Outcome(l, moves).giver) == IsSink
  {
    StepTaking(l.taker);
    var m := TakerPolls(Allowing(l.taker, None, 0), false);
    TakerStep(l, m.i, false);
    var rest := FromReport(Next(l, m));
    moves := [m] + rest;
    assert moves[1..] == rest;
  }

  lemma FromGave(l: Pair) returns (moves: seq<Move>)
    requires Stage(l, Gave, Idles, [Ready], [])
    ensures |moves| == 3 && Course(l, moves) && GiverOf(Outcome(l, moves).giver) == IsSink
  {
    assert Meaning(l.down[0]) == Signals(l.down)[0];
    StepTurning(l.taker, l.down[0]);
    var m := TakerPolls(Bringing(l.taker, l.down[0], SUPPLY_TURN_ON), true);
    TakerStep(l, m.i, true);
    var rest := FromTurned(Next(l, m));
    moves := [m] + rest;
    assert moves[1..] == rest;
  }

  lemma FromGives(l: Pair) returns (moves: seq<Move>)
    requires Stage(l, Gives, Idles, [], [])
    ensures |moves| == 4 && Course(l, moves) && GiverOf(Outcome(l, moves).giver) == IsSink
  {
    StepGivingUp(l.giver);
    var m := GiverPolls(Allowing(l.giver, None, 0), false);
    GiverStep(l, m.i, false);
    var rest := FromGave(Next(l, m));
    moves := [m] + rest;
    assert moves[1..] == rest;
  }

  lemma FromCuts(l: Pair) returns (moves: seq<Move>)
    requires Stage(l, Cuts, Idles, [], [])
    ensures |moves| == 5 && Course(l, moves) && GiverOf(Outcome(l, moves).giver) == IsSink
  {
    StepCutting(l.giver);
    var m := GiverPolls(Allowing(l.giver, None, SUPPLY_TURN_OFF), false);
    GiverStep(l, m.i, false);
    var rest := FromGives(Next(l, m));
    moves := [m] + rest;
    assert moves[1..] == rest;
  }

  lemma FromAccept(l: Pair) returns (moves: seq<Move>)
    requires Stage(l, Asked, Idles, [], [Yes])
    ensures |moves| == 6 && Course(l, moves) && GiverOf(Outcome(l, moves).giver) == IsSink
  {
    assert Meaning(l.up[0]) == Signals(l.up)[0];
    StepWaiting(l.giver, l.up[0]);
    var m := GiverPolls(Bringing(l.giver, l.up[0], T_SINK_TRANSITION), true);
    GiverStep(l, m.i, true);
    var rest := FromCuts(Next(l, m));
    moves := [m] + rest;
    assert moves[1..] == rest;
  }

  lemma FromAsk(l: Pair) returns (moves: seq<Move>)
    requires Stage(l, Asked, Keeps, [Ask], [])
    ensures |moves| == 7 && Course(l, moves) && GiverOf(Outcome(l, moves).giver) == IsSink
  {
    assert Meaning(l.down[0]) == Signals(l.down)[0];
    StepAgreeing(l.taker, l.down[0]);
    var m := TakerPolls(Bringing(l.taker, l.down[0], 0), true);
    TakerStep(l, m.i, true);
    var rest := FromAccept(Next(l, m));
    moves := [m] + rest;
    assert moves[1..] == rest;
  }

  lemma FromCall(l: Pair) returns (moves: seq<Move>)
    requires Stage(l, Asks, Keeps, [], [])
    ensures |moves| == 8 && Course(l, moves) && GiverOf(Outcome(l, moves).giver) == IsSink
  {
    StepAsking(l.giver);
    var m := GiverPolls(Allowing(l.giver, None, 0), false);
    GiverStep(l, m.i, false);
    var rest := FromAsk(Next(l, m));
    moves := [m] + rest;
    assert moves[1..] == rest;
  }

  lemma CallStarts(l: Pair)
    requires Start(l)
    ensures Stage(Next(l, GiverCalled), Asks, Keeps, [], [])
  {
    StartAgrees(l);
    GiverCallAgrees(l.giver);
  }

  lemma CallPrecedes(l: Pair, n: Pair, rest: seq<Move>)
    requires Possible(l, GiverCalled) && n == Next(l, GiverCalled) && Course(n, rest)
    ensures Course(l, [GiverCalled] + rest) && Outcome(l, [GiverCalled] + rest) == Outcome(n, rest)
  {
    assert ([GiverCalled] + rest)[1..] == rest;
  }

  lemma ReachesExchange(l: Pair) returns (moves: seq<Move>)
    requires Start(l)
    ensures |moves| == 9 && Course(l, moves) && GiverOf(Outcome(l, moves).giver) == IsSink
  {
    CallStarts(l);
    var n := Next(l, GiverCalled);
    var rest := FromCall(n);
    CallPrecedes(l, n, rest);
    moves := [GiverCalled] + rest;
  }

  /** A call and eight passes exchange the roles. */
  lemma SwapCompletes(l: Pair) returns (moves: seq<Move>)
    requires Start(l)
    ensures |moves| == 9 && Course(l, moves)
    ensures var o := Outcome(l, moves);
            IsSinking(o.giver) && IsSupplying(o.taker)
  {
    moves := ReachesExchange(l);
    SwapIsSafe(l, moves);
  }
}
