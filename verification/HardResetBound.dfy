/** Bounded hard resets: an attached sink that hears nothing tries at most
    HARD_RESET_COUNT hard resets, however often their transmission is retried. */
module HardResetBound {
  import opened PdWords
  import opened PowerPolicy
  import opened PortState
  import opened PortMachine
  import opened PortRuns
  import opened PortSafety

  predicate AttachedSink(p: Port) { p.role.Sink? && Connected(p) }

  /** Nothing is received and nobody interferes; transmissions complete or fail at will,
      and CC, VBUS, hooks and clock are arbitrary. */
  predicate Quiet(e: Event) {
    match e
    case Poll(i) => i.msg.None? && i.boardOk && !i.reset
    case TxDone(_) => true
    case _ => false
  }

  /** A run of quiet events during which the port stays an attached sink. */
  ghost predicate QuietRun(p: Port, run: seq<Event>)
    requires Valid(p, run)
    decreases |run|
  {
    && AttachedSink(p)
    && (run == [] || (Quiet(run[0]) && QuietRun(After(p, run[0]), run[1..])))
  }

  function EntersReset(p: Port, e: Event): nat
    requires Legible(e)
  {
    if p.state != HardResetSend && After(p, e).state == HardResetSend then 1 else 0
  }

  /** How often a run enters HardResetSend. */
  ghost function Entries(p: Port, run: seq<Event>): nat
    requires Valid(p, run)
    decreases |run|
  {
    if run == [] then 0 else EntersReset(p, run[0]) + Entries(After(p, run[0]), run[1..])
  }

  /** How many more entries the counter leaves room for. */
  function Budget(p: Port): nat {
    var c := p.counters.hardReset;
    if p.state == HardResetSend then if c >= 1 then 0 else 1
    else if p.state == HardResetExecute || p.state == SnkHardResetRecover || p.state == SnkDiscovery then
      if c >= HARD_RESET_COUNT then 0 else HARD_RESET_COUNT - c
    else HARD_RESET_COUNT
  }

  lemma SendPays(p: Port, i: Input)
    requires Safe(p) && p.role.Sink? && p.state == HardResetSend
    ensures Budget(TimerPhase(Closed(RunHardResetSend(p, i), p, i), i.clock.end)) <= Budget(p)
  {
    if !Entered(p) && p.counters.hardResetSent {
    } else if TxOk(p) {
    }
  }

  lemma ExecutePays(p: Port, i: Input)
    requires Safe(p) && p.role.Sink? && p.state == HardResetExecute
    ensures var q := TimerPhase(Closed(RunHardResetExecute(p, i), p, i), i.clock.end);
            q.state == SnkHardResetRecover && Budget(q) <= Budget(p)
  {}

  predicate Pays(p: Port, q: Port) {
    (if q.state == HardResetSend then 1 else 0) + Budget(q) <= Budget(p)
  }

  lemma RecoverPays(p: Port, i: Input)
    requires Safe(p) && p.role.Sink? && p.state == SnkHardResetRecover
    ensures var q := TimerPhase(Closed(RunSnkHardResetRecover(p, i), p, i), i.clock.end);
            q.state == SnkDisconnected || Pays(p, q)
  {
    if Entered(p) {
    }
  }

  lemma DiscoveryPays(p: Port, i: Input)
    requires Safe(p) && p.role.Sink? && p.state == SnkDiscovery
    ensures var q := TimerPhase(Closed(RunSnkDiscovery(p, i), p, i), i.clock.end);
            q.state == SnkDisconnected || Pays(p, q)
  {
    if Entered(p) {
      if p.counters.hardReset < HARD_RESET_COUNT {
      } else if p.flags.previousPdConn {
      }
    }
  }

  /** A port that is still an attached sink after the detach check was left alone by it. */
  lemma NotDetached(p: Port, i: Input)
    requires AttachedSink(DetachPhase(p, i))
    ensures DetachPhase(p, i) == p
  {}

  /** The states from which the counter decides what is left. */
  predicate Resetting(s: State) {
    s == HardResetSend || s == HardResetExecute || s == SnkHardResetRecover || s == SnkDiscovery
  }

  lemma QuietPrefix(p: Port, i: Input)
    requires Safe(p) && Readable(i) && Quiet(Poll(i))
    ensures var q := BeforeHandler(p, i);
            && q == p.(vdm := q.vdm, sent := q.sent) && Safe(q) && Budget(q) == Budget(p)
  {}

  lemma ResettingPays(p: Port, i: Input)
    requires Safe(p) && Readable(i) && p.role.Sink? && Resetting(p.state)
    ensures var q := TimerPhase(HandlerPhase(p, i), i.clock.end);
            q.state == SnkDisconnected
            || (if p.state != HardResetSend && q.state == HardResetSend then 1 else 0) + Budget(q) <= Budget(p)
  {
    if p.state == HardResetSend {
      SendPays(p, i);
    } else if p.state == HardResetExecute {
      ExecutePays(p, i);
    } else if p.state == SnkHardResetRecover {
      RecoverPays(p, i);
    } else {
      DiscoveryPays(p, i);
    }
  }

  /** Every quiet event that leaves the sink attached pays for the entry it makes. */
  lemma StepPays(p: Port, e: Event)
    requires Safe(p) && AttachedSink(p) && Legible(e) && Quiet(e) && AttachedSink(After(p, e))
    ensures EntersReset(p, e) + Budget(After(p, e)) <= Budget(p)
  {
    if e.Poll? {
      var q := BeforeHandler(p, e.i);
      QuietPrefix(p, e.i);
      NotDetached(TimerPhase(HandlerPhase(q, e.i), e.i.clock.end), e.i);
      if Resetting(p.state) {
        ResettingPays(q, e.i);
      }
    }
  }

  lemma {:induction false} RunPays(p: Port, run: seq<Event>)
    requires Safe(p) && Valid(p, run) && QuietRun(p, run)
    ensures Entries(p, run) <= Budget(p)
    decreases |run|
  {
    if run != [] {
      StepPays(p, run[0]);
      AfterKeeps(p, run[0]);
      RunPays(After(p, run[0]), run[1..]);
    }
  }

  /** Counting the one in progress, if any, at most two. */
  lemma {:induction false} HardResetsAreBounded(p: Port, run: seq<Event>)
    requires Safe(p) && Valid(p, run) && QuietRun(p, run)
    ensures Entries(p, run) + (if p.state == HardResetSend then 1 else 0) <= HARD_RESET_COUNT
  {
    RunPays(p, run);
  }
}
