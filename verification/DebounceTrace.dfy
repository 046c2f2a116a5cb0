/** Debounce soundness on traces: every attach is preceded by at least 100 ms of passes
    that all classified CC alike (section 4.5.2 of the USB Type-C specification). */
module DebounceTrace {
  import opened PdWords
  import opened PowerPolicy
  import opened PortState
  import opened PortMachine
  import opened PortRuns
  import opened PortSafety

  function Classified(s: State, i: Input): CcState {
    if s == SrcDisconnectedDebounce then ClassifySource(i.cc1, i.cc2) else ClassifySink(i.cc1, i.cc2)
  }

  /** Every pass of the run finds the port in debounce state `s` and classifies CC as
      `c`. */
  ghost predicate AllClassified(p: Port, run: seq<Event>, s: State, c: CcState)
    requires Valid(p, run)
    decreases |run|
  {
    run == [] ||
    (&& (run[0].Poll? ==> BeforeHandler(p, run[0].i).state == s && Classified(s, run[0].i) == c)
     && AllClassified(After(p, run[0]), run[1..], s, c))
  }

  /** A run from `start` split into `before` and `steady`, where all of `steady` classifies
      alike and starts with a pass at clock value `since`. */
  ghost predicate SteadySince(start: Port, before: seq<Event>, steady: seq<Event>, s: State, c: CcState, since: nat)
  {
    && Valid(start, before) && Valid(End(start, before), steady)
    && steady != [] && steady[0].Poll? && steady[0].i.clock.run == since
    && AllClassified(End(start, before), steady, s, c)
  }

  lemma {:induction false} EndAppends(p: Port, run: seq<Event>, e: Event)
    requires Valid(p, run + [e])
    ensures Valid(p, run) && Legible(e) && InTime(End(p, run), e)
    ensures End(p, run + [e]) == After(End(p, run), e)
    decreases |run|
  {
    if run == [] {
      assert run + [e] == [e];
    } else {
      assert (run + [e])[1..] == run[1..] + [e];
      EndAppends(After(p, run[0]), run[1..], e);
    }
  }

  lemma {:induction false} ClassifiedAppends(p: Port, run: seq<Event>, e: Event, s: State, c: CcState)
    requires Valid(p, run) && AllClassified(p, run, s, c)
    requires Legible(e) && InTime(End(p, run), e)
    requires e.Poll? ==> BeforeHandler(End(p, run), e.i).state == s && Classified(s, e.i) == c
    ensures Valid(p, run + [e]) && AllClassified(p, run + [e], s, c)
    decreases |run|
  {
    if run == [] {
      assert run + [e] == [e];
    } else {
      assert (run + [e])[1..] == run[1..] + [e];
      ClassifiedAppends(After(p, run[0]), run[1..], e, s, c);
    }
  }

  /** Messages never lead into a debounce state and leave the records alone. */
  predicate Undebounced(p: Port, q: Port) {
    && q.history.steady == p.history.steady
    && (Debouncing(q.state) ==> q.state == p.state && q.last == p.last)
  }

  lemma AnswerUndebounced(p: Port, first: Word, caps: CapTable, limit: Power, rdo: Word, power: Power)
    ensures Undebounced(p, AnswerWith(p, first, caps, limit, rdo, power))
  {}

  lemma DataUndebounced(p: Port, kind: nat, objects: Objects, i: Input)
    requires |objects| > 0 && Readable(i)
    ensures Undebounced(p, HandleData(p, kind, objects, i))
  {
    if kind == SOURCE_CAP {
      if p.state == SnkDiscovery || p.state == SnkTransition || p.state == SnkReady {
        var caps, limit, rdo, power := AnswerShape(p, objects, i.capIndex);
        AnswerUndebounced(p, objects[0], caps, limit, rdo, power);
      }
    } else if kind == REQUEST {
    } else if kind == BIST {
    } else if kind == SINK_CAP {
    }
  }

  lemma ControlUndebounced(p: Port, kind: nat, i: Input)
    ensures Undebounced(p, HandleControl(p, kind, i))
  {
    if kind == GET_SOURCE_CAP {
    } else if kind == PS_RDY {
    } else if kind == REJECT || kind == WAIT {
    } else if kind == ACCEPT {
    } else if kind == SOFT_RESET {
    } else if kind == PR_SWAP {
    } else if kind == DR_SWAP {
    }
  }

  lemma MessageUndebounced(p: Port, i: Input)
    requires Readable(i)
    ensures Undebounced(p, MessagePhase(p, i))
  {
    if i.msg.Some? && Connected(p) {
      var m := i.msg.value;
      if HeaderCnt(m.header) > 0 {
        DataUndebounced(p, HeaderKind(m.header), m.data, i);
      } else {
        ControlUndebounced(p, HeaderKind(m.header), i);
      }
    }
  }

  lemma PrefixUndebounced(p: Port, i: Input)
    requires Readable(i)
    ensures Undebounced(p, BeforeHandler(p, i))
  {
    MessageUndebounced(BeforeMessage(p, i), i);
  }

  /** A pass that leaves the port in the debounce state whose handler it ran. */
  lemma PassRecords(p: Port, i: Input)
    requires Readable(i) && Debouncing(Pass(p, i).state) && Pass(p, i).last == Pass(p, i).state
    ensures var q := Pass(p, i);
            var c := Classified(q.state, i);
            && BeforeHandler(p, i).state == q.state && q.history.steady.state == c
            && (q.history.steady == Steady(c, i.clock.run)
                || (p.state == p.last == q.state && q.history.steady == p.history.steady))
  {
    PrefixUndebounced(p, i);
    HandlerRecords(BeforeHandler(p, i), i);
  }

  lemma HandlerRecords(p: Port, i: Input)
    requires Readable(i)
    ensures FromSwitch(p, i).last == p.state && FromSwitch(p, i).history.steady == Observe(p, i)
  {}

  lemma CallsUndebounced(p: Port, e: Event)
    requires Legible(e) && !e.Poll?
    ensures var q := After(p, e);
            q.history.steady == p.history.steady
            && (Debouncing(q.state) && q.last == q.state ==> q.state == p.state && q.last == p.last)
  {}

  /** In a debounce state whose handler has run, the record is about the tail of the run. */
  ghost predicate Recorded(start: Port, run: seq<Event>)
    requires Valid(start, run)
  {
    var p := End(start, run);
    Debouncing(p.state) && p.last == p.state ==>
      exists before: seq<Event>, steady: seq<Event> ::
        && run == before + steady
        && SteadySince(start, before, steady, p.state, p.history.steady.state, p.history.steady.since)
  }

  lemma {:induction false} EndSplits(p: Port, a: seq<Event>, b: seq<Event>)
    requires Valid(p, a) && Valid(p, a + b)
    ensures Valid(End(p, a), b) && End(p, a + b) == End(End(p, a), b)
    decreases |a|
  {
    if a == [] {
      assert a + b == b;
    } else {
      assert (a + b)[1..] == a[1..] + b;
      EndSplits(After(p, a[0]), a[1..], b);
    }
  }

  lemma Begins(start: Port, run: seq<Event>, e: Event)
    requires Valid(start, run) && e.Poll? && Legible(e) && InTime(End(start, run), e)
    ensures var s := BeforeHandler(End(start, run), e.i).state;
            SteadySince(start, run, [e], s, Classified(s, e.i), e.i.clock.run)
  {
    var p := End(start, run);
    assert [e][1..] == [];
    assert Valid(After(p, e), []);
    assert Valid(p, [e]);
  }

  lemma Extends(start: Port, before: seq<Event>, steady: seq<Event>, e: Event, s: State, c: CcState, since: nat)
    requires SteadySince(start, before, steady, s, c, since)
    requires Valid(start, before + steady) && Legible(e) && InTime(End(start, before + steady), e)
    requires e.Poll? ==>
               BeforeHandler(End(start, before + steady), e.i).state == s && Classified(s, e.i) == c
    ensures SteadySince(start, before, steady + [e], s, c, since)
  {
    EndSplits(start, before, steady);
    ClassifiedAppends(End(start, before), steady, e, s, c);
    assert (steady + [e])[0] == steady[0];
  }

  /** The tail of the run that the record is about. */
  lemma TailOf(start: Port, run: seq<Event>) returns (before: seq<Event>, steady: seq<Event>)
    requires Valid(start, run) && Recorded(start, run)
    requires var p := End(start, run); Debouncing(p.state) && p.last == p.state
    ensures run == before + steady
    ensures var p := End(start, run);
            SteadySince(start, before, steady, p.state, p.history.steady.state, p.history.steady.since)
  {
    var p := End(start, run);
    before, steady :| run == before + steady
                      && SteadySince(start, before, steady, p.state, p.history.steady.state, p.history.steady.since);
  }

  lemma RecordedContinues(start: Port, run: seq<Event>, e: Event, p: Port, q: Port)
    requires Valid(start, run) && p == End(start, run) && Recorded(start, run) && Legible(e) && InTime(p, e)
    requires Valid(start, run + [e]) && q == End(start, run + [e])
    requires Debouncing(p.state) && p.last == p.state == q.state == q.last && q.history.steady == p.history.steady
    requires e.Poll? ==> BeforeHandler(p, e.i).state == p.state && Classified(p.state, e.i) == p.history.steady.state
    ensures Recorded(start, run + [e])
  {
    var before, steady := TailOf(start, run);
    Extends(start, before, steady, e, p.state, p.history.steady.state, p.history.steady.since);
    assert run + [e] == before + (steady + [e]);
    IsRecorded(start, run + [e], q, before, steady + [e]);
  }

  lemma IsRecorded(start: Port, run: seq<Event>, p: Port, before: seq<Event>, steady: seq<Event>)
    requires Valid(start, run) && p == End(start, run) && run == before + steady
    requires SteadySince(start, before, steady, p.state, p.history.steady.state, p.history.steady.since)
    ensures Recorded(start, run)
  {}

  lemma RecordedStep(start: Port, run: seq<Event>, e: Event)
    requires Valid(start, run + [e]) && Valid(start, run) && Recorded(start, run)
    ensures Recorded(start, run + [e])
  {
    EndAppends(start, run, e);
    var p, q := End(start, run), After(End(start, run), e);
    if Debouncing(q.state) && q.last == q.state {
      if e.Poll? {
        PassRecords(p, e.i);
        if q.history.steady == Steady(Classified(q.state, e.i), e.i.clock.run) {
          Begins(start, run, e);
        } else {
          RecordedContinues(start, run, e, p, q);
        }
      } else {
        CallsUndebounced(p, e);
        RecordedContinues(start, run, e, p, q);
      }
    }
  }

  lemma {:induction false} RunIsRecorded(start: Port, run: seq<Event>)
    requires Initial(start) && Valid(start, run)
    ensures Recorded(start, run)
    decreases |run|
  {
    if run != [] {
      var n := |run| - 1;
      assert run == run[..n] + [run[n]];
      EndAppends(start, run[..n], run[n]);
      RunIsRecorded(start, run[..n]);
      RecordedStep(start, run[..n], run[n]);
    }
  }

  /** The pass attaches: a source switches its supply on, a sink enters discovery, each
      from its debounce state. */
  predicate Attaches(p: Port, i: Input)
    requires Readable(i)
  {
    || (p.state == SrcDisconnectedDebounce && Handle(p, i).state == SrcStartup)
    || (p.state == SnkDisconnectedDebounce && Handle(p, i).state == SnkDiscovery)
  }

  lemma AttachNeedsRecord(p: Port, i: Input)
    requires AtSwitch(p, i) && Attaches(p, i)
    ensures p.last == p.state && Classified(p.state, i) == p.history.steady.state
    ensures i.clock.run >= p.history.steady.since + T_CC_DEBOUNCE
  {
    if p.state == SrcDisconnectedDebounce {
      var c := ClassifySource(i.cc1, i.cc2);
      if c.CcNone? {
      } else if c != p.cc.state {
      } else if i.clock.run < p.cc.debounce || c.AudioAcc? {
      }
    }
  }

  lemma AttachState(p: Port, i: Input)
    requires Safe(p) && Readable(i) && Timely(p.history.now, i.clock) && Attaches(BeforeHandler(p, i), i)
    ensures var s := BeforeHandler(p, i).state;
            && Debouncing(s) && p.state == s && p.last == s && Classified(s, i) == p.history.steady.state
            && i.clock.run >= p.history.steady.since + T_CC_DEBOUNCE
  {
    BeforeHandlerKeeps(p, i);
    AttachNeedsRecord(BeforeHandler(p, i), i);
    PrefixUndebounced(p, i);
  }

  /** The attaching pass and all passes of at least the last 100 ms found the port in the
      same debounce state and classified CC alike. */
  lemma AttachIsDebounced(start: Port, run: seq<Event>, i: Input)
    returns (before: seq<Event>, steady: seq<Event>, since: nat)
    requires Initial(start) && Valid(start, run) && Readable(i) && Timely(End(start, run).history.now, i.clock)
    requires Attaches(BeforeHandler(End(start, run), i), i)
    ensures run == before + steady
    ensures var s := BeforeHandler(End(start, run), i).state;
            SteadySince(start, before, steady, s, Classified(s, i), since)
    ensures i.clock.run >= since + T_CC_DEBOUNCE
  {
    InitialIsSafe(start);
    RunKeeps(start, run);
    AttachState(End(start, run), i);
    RunIsRecorded(start, run);
    before, steady := TailOf(start, run);
    since := End(start, run).history.steady.since;
  }
}
