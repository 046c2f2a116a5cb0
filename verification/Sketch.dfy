/** The sketch around the port (NOA_ESP32_PD.ino): initialisation, then turns of its loop,
    with any calls of the application between them. */
module Sketch {
  import opened PdWords
  import opened PowerPolicy
  import opened PortState
  import opened PortMachine
  import opened PortRuns
  import opened PortSafety
  import Fusb302Fifo
  import opened Fusb302Registers
  import opened PdPortObject

  /** One turn of the loop, which handles the chip's interrupts at clock value `t` if its
      line is low, or a call of the application. */
  datatype Turn = Loop(interrupts: Option<Interrupts>, t: nat, i: Input) | Call(e: Event)

  predicate IsCall(e: Event) { !e.Poll? && !e.TxDone? && !e.HardResetReceived? }

  /** The clock readings of all turns continue each other. */
  ghost predicate Continuous(now: nat, turns: seq<Turn>)
    decreases |turns|
  {
    turns == [] ||
    match turns[0]
    case Loop(_, _, i) => Readable(i) && Timely(now, i.clock) && Continuous(i.clock.end, turns[1..])
    case Call(e) => IsCall(e) && Continuous(now, turns[1..])
  }

  lemma AlertKeepsNow(p: Port, n: Interrupts, t: nat)
    ensures Alerted(p, n, t).history == p.history
  {}

  lemma CallKeepsNow(p: Port, e: Event)
    requires IsCall(e)
    ensures After(p, e).history == p.history
  {}

  lemma PassEnds(p: Port, i: Input)
    requires Readable(i)
    ensures Pass(p, i).history.now == i.clock.end
  {
    TailEnds(HandlerPhase(BeforeHandler(p, i), i), i);
  }

  lemma TailEnds(p: Port, i: Input)
    ensures DetachPhase(TimerPhase(p, i.clock.end), i).history.now == i.clock.end
  {}

  method RunLoop(port: PdPort, interrupts: Option<Interrupts>, t: nat, i: Input)
    requires port.Sound() && Readable(i) && Timely(port.pd.history.now, i.clock)
    modifies port, port.chip, port.chip.regs, port.policy, port.policy.caps
    ensures port.Sound() && port.pd.history.now == i.clock.end
  {
    if interrupts.Some? {
      AlertKeepsNow(port.pd, interrupts.value, t);
      port.Alert(interrupts.value, t);
    }
    PassEnds(port.pd, i.(msg := Fusb302Fifo.GetMessage(port.chip.fifo).0));
    port.RunStateMachine(i);
  }

  method MakeCall(port: PdPort, e: Event)
    requires port.Sound() && IsCall(e)
    modifies port, port.chip, port.chip.regs, port.policy, port.policy.caps
    ensures port.Sound() && port.pd == After(old(port.pd), e)
  {
    match e
    case AskPowerSwap => port.RequestPowerSwap();
    case AskDataSwap => port.RequestDataSwap();
    case AskSoftReset => port.RequestSoftReset();
    case AskNewPower => port.RequestNewPower();
    case AskSourceVoltage => port.RequestSourceVoltage(port.policy.maxRequestMv);
    case AskContractUpdate => port.UpdateContract();
    case AskPing(on) => port.EnablePing(on);
    case AskVdm(vid, cmd, data) => port.SendVdm(vid, cmd, data);
  }

  /** From power-on, after any turns: the port is sound, and if it is detached the chip
      neither acknowledges nor listens. */
  method Serve(powerOn: Registers, boot: Registers, srcPdos: Objects, snkPdos: Objects, turns: seq<Turn>)
    returns (port: PdPort)
    requires SoftwareReset(boot) && Continuous(0, turns)
    ensures fresh(port) && port.Sound()
    ensures Detached(port.pd.state) ==> !Has(port.chip.regs[SWITCHES1], AUTO_GCRC) && !port.chip.rx
  {
    port := new PdPort(powerOn, boot, srcPdos, snkPdos);
    var k := 0;
    while k < |turns|
      invariant 0 <= k <= |turns|
      invariant fresh(port) && fresh(port.chip) && fresh(port.chip.regs) && fresh(port.policy)
      invariant fresh(port.policy.caps)
      invariant port.Sound() && Continuous(port.pd.history.now, turns[k..])
    {
      match turns[k] {
        case Loop(interrupts, t, i) => RunLoop(port, interrupts, t, i);
        case Call(e) =>
          CallKeepsNow(port.pd, e);
          MakeCall(port, e);
      }
      assert turns[k..][1..] == turns[k + 1..];
      k := k + 1;
    }
    if Detached(port.pd.state) {
      SilentChip(port);
    }
  }
}
