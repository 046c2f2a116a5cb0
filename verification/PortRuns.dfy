/** Runs: everything that can reach a port between two clock readings, in any order. */
module PortRuns {
  import opened PdWords
  import opened PowerPolicy
  import opened PortState
  import opened PortMachine

  /** A pass of the state machine, an interrupt handled by the chip alert, or a call of
      the application. */
  datatype Event =
    | Poll(i: Input)
    | TxDone(status: TxStatus)
    | HardResetReceived(t: nat)
    | AskPowerSwap
    | AskDataSwap
    | AskSoftReset
    | AskNewPower
    | AskSourceVoltage
    | AskContractUpdate
    | AskPing(on: bool)
    | AskVdm(vid: nat, cmd: nat, data: seq<Word>)

  predicate Legible(e: Event) { e.Poll? ==> Readable(e.i) }

  /** The clock readings an event takes continue those of the past. */
  predicate InTime(p: Port, e: Event) {
    match e
    case Poll(i) => Timely(p.history.now, i.clock)
    case HardResetReceived(t) => p.history.now <= t
    case _ => true
  }

  function After(p: Port, e: Event): Port
    requires Legible(e)
  {
    match e
    case Poll(i) => Pass(p, i)
    case TxDone(status) => TransmitComplete(p, status)
    case HardResetReceived(t) => ExecuteHardReset(p, t)
    case AskPowerSwap => RequestPowerSwap(p)
    case AskDataSwap => RequestDataSwap(p)
    case AskSoftReset => RequestSoftReset(p)
    case AskNewPower => RequestNewPower(p)
    case AskSourceVoltage => RequestSourceVoltage(p)
    case AskContractUpdate => UpdateContract(p)
    case AskPing(on) => EnablePing(p, on)
    case AskVdm(vid, cmd, data) => SendVdm(p, vid, cmd, data)
  }

  // ---- The chip alert ----

  /** The interrupts fusb302_tcpc_alert acts on. */
  datatype Interrupts = Interrupts(collision: bool, txSuccess: bool, retryFail: bool, hardSent: bool,
                                   hardReset: bool, gcrcSent: bool)

  function Notified(p: Port, on: bool, status: TxStatus): Port {
    if on then TransmitComplete(p, status) else p
  }

  /** One alert: the events of its interrupts, in the order in which they are looked at. */
  function Alerted(p: Port, n: Interrupts, t: nat): Port {
    var q := Notified(Notified(Notified(Notified(p, n.collision, TxFailed), n.txSuccess, TxSuccess),
                               n.retryFail, TxFailed), n.hardSent, TxSuccess);
    if n.hardReset then ExecuteHardReset(q, t) else q
  }

  // ---- Runs ----

  ghost predicate Valid(p: Port, run: seq<Event>)
    decreases |run|
  {
    run == [] ||
    (Legible(run[0]) && InTime(p, run[0]) && Valid(After(p, run[0]), run[1..]))
  }

  /** The state after a run. */
  ghost function End(p: Port, run: seq<Event>): Port
    requires Valid(p, run)
    decreases |run|
  {
    if run == [] then p else End(After(p, run[0]), run[1..])
  }
}
